/** The filter bar (`PropertiesFilters.tsx`): a form whose values are a
    partial record of text fields and a feature list. "Search" hands the
    values, with the property type replaced by its Inmovilla code, to an
    optional callback; "Reset all" empties the form. */
module PropertiesFilters {
  import opened JsValue

  datatype Field =
    | Operation | Type | Location | MinPrice | MaxPrice | Ref | Beds | Baths | MinSize | Features

  /** A field's value: a text, the feature list, or a present `undefined`. */
  datatype FieldValue = Text(text: string) | List(items: seq<string>) | Undefined

  /** The form values; an absent key is a field never set. */
  type FilterValues = map<Field, FieldValue>

  /** `{ features: [] }`. */
  const EmptyValues: FilterValues := map[Features := List([])]

  /** `TYPE_MAPPING`: the form's type names and their Inmovilla codes. */
  const TypeMapping: map<string, string> := map["villa" := "6499", "apartment" := "2799", "penthouse" := "3099"]

  /** `filters.type ? TYPE_MAPPING[filters.type] : undefined`. */
  function NormalizedType(values: FilterValues): (v: FieldValue)
    ensures v.Undefined? || v in {Text("6499"), Text("2799"), Text("3099")}
    ensures v.Text? <==> Type in values && values[Type].Text? && values[Type].text in TypeMapping
  {
    if Type in values && values[Type].Text? && values[Type].text != "" && values[Type].text in TypeMapping
    then Text(TypeMapping[values[Type].text])
    else Undefined
  }

  /** The values handed to the search callback. */
  function Normalize(values: FilterValues): (out: FilterValues)
    ensures Type in out && out[Type] == NormalizedType(values)
    ensures forall k :: k != Type ==> (k in out <==> k in values)
    ensures forall k :: k in values && k != Type ==> out[k] == values[k]
  {
    values[Type := NormalizedType(values)]
  }

  /** The three type names map to their codes, any other type (and no type)
      to `undefined`, and normalizing twice loses the code. */
  lemma NormalizeTypes(values: FilterValues)
    ensures Normalize(values[Type := Text("villa")])[Type] == Text("6499")
    ensures Normalize(values[Type := Text("apartment")])[Type] == Text("2799")
    ensures Normalize(values[Type := Text("penthouse")])[Type] == Text("3099")
    ensures Normalize(values[Type := Text("chalet")])[Type] == Undefined
    ensures Type !in values ==> Normalize(values)[Type] == Undefined
    ensures Normalize(Normalize(values))[Type] == Undefined
  {
    assert "chalet" !in TypeMapping;
    assert "6499" !in TypeMapping && "2799" !in TypeMapping && "3099" !in TypeMapping;
  }

  /** The text shown in a field's input: `filters.k || ""`. */
  function InputText(values: FilterValues, k: Field): (text: string)
    ensures k in values && values[k].Text? ==> text == values[k].text
    ensures !(k in values && values[k].Text?) ==> text == ""
  {
    if k in values && values[k].Text? then values[k].text else ""
  }

  /** The form's state. */
  class FiltersForm {
    var values: FilterValues
    var advanced: bool

    constructor ()
      ensures values == EmptyValues && !advanced
    {
      values := EmptyValues;
      advanced := false;
    }

    /** `update(key, value)`: one field set, the others kept. */
    method Update(k: Field, v: FieldValue)
      modifies this
      ensures values == old(values)[k := v] && advanced == old(advanced)
      ensures k in values && values[k] == v
      ensures forall j :: j != k ==> (j in values <==> j in old(values))
      ensures forall j :: j != k && j in values ==> values[j] == old(values)[j]
    {
      values := values[k := v];
    }

    /** "Search": the normalized values go to the callback when there is
        one; the form itself does not change. */
    method HandleSearch(hasCallback: bool) returns (sent: Option<FilterValues>)
      ensures hasCallback ==> sent == Some(Normalize(values))
      ensures !hasCallback ==> sent == None
    {
      if hasCallback {
        sent := Some(Normalize(values));
      } else {
        sent := None;
      }
    }

    /** "Reset all": the form goes back to the empty values, which are also
        sent to the callback. */
    method ResetFilters(hasCallback: bool) returns (sent: Option<FilterValues>)
      modifies this
      ensures values == EmptyValues && advanced == old(advanced)
      ensures hasCallback ==> sent == Some(EmptyValues)
      ensures !hasCallback ==> sent == None
    {
      values := EmptyValues;
      sent := if hasCallback then Some(EmptyValues) else None;
    }

    /** The "Filters" button shows or hides the bedroom/bathroom panel. */
    method ToggleAdvanced()
      modifies this
      ensures advanced == !old(advanced) && values == old(values)
    {
      advanced := !advanced;
    }
  }
}
