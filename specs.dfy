/** The specification panel of a property (`PropertySpecs.tsx`): three
    groups of labelled values read from the raw record, the amenity check
    marks and the energy-letter strip. */
module PropertySpecs {
  import opened JsValue

  // ---------------------------------------------------------------------
  // Rendering of a value cell

  /** No object anywhere inside: React cannot render an object child. */
  predicate NoObject(v: Value) {
    match v
    case Obj(_) => false
    case Arr(items) => forall i :: 0 <= i < |items| ==> NoObject(items[i])
    case _ => true
  }

  /** The text React renders for a child value: strings and numbers as
      text, booleans and nullish values as nothing, arrays as their
      elements one after another. */
  function RenderText(v: Value): string
    requires NoObject(v)
  {
    match v
    case Str(s) => s
    case Num(n) => IntToString(n)
    case Arr(items) => RenderAll(items)
    case _ => ""
  }

  function RenderAll(items: seq<Value>): string
    requires forall i :: 0 <= i < |items| ==> NoObject(items[i])
  {
    if |items| == 0 then "" else RenderText(items[0]) + RenderAll(items[1..])
  }

  /** `{item.value || "-"}`: a falsy value shows a dash. */
  function Display(v: Value): (text: string)
    requires NoObject(v)
    ensures !Truthy(v) ==> text == "-"
    ensures v.Str? && Truthy(v) ==> text == v.s
    ensures v.Num? && Truthy(v) ==> text == IntToString(v.n)
    ensures (v.Str? || v.Num?) ==> |text| > 0
  {
    if Truthy(v) then RenderText(v) else "-"
  }

  // ---------------------------------------------------------------------
  // The three groups

  datatype SpecItem =
    | Reference | Operation | PropertyType | Zone
    | BuiltSurface | Conservation | Antiquity | ExteriorType
    | Ibi | Regime

  /** The items of the "features", "technical details" and
      "administration" groups, in display order. */
  const SpecGroups: seq<seq<SpecItem>> := [
    [Reference, Operation, PropertyType, Zone],
    [BuiltSurface, Conservation, Antiquity, ExteriorType],
    [Ibi, Regime]
  ]

  /** `${a} suffix` when a is truthy, a dash otherwise. */
  function WithUnit(a: Value, suffix: string): (v: Value)
    ensures Truthy(a) ==> v == Str(ToJsString(a) + suffix)
    ensures !Truthy(a) ==> v == Str("-")
  {
    if Truthy(a) then Str(ToJsString(a) + suffix) else Str("-")
  }

  /** The value of one item; `yearsLabel` is the translated word for
      "years". */
  function ItemValue(p: Value, item: SpecItem, yearsLabel: string): (v: Value)
    ensures item == Zone && Truthy(Get(p, "zona")) ==>
      v == Str(ToJsString(Get(p, "zona")) + " / " + ToJsString(Get(p, "ciudad")))
    ensures item == Zone && !Truthy(Get(p, "zona")) ==> v == Get(p, "ciudad")
    ensures item == Reference ==> v == Get(p, "ref")
    ensures item == Operation ==> v == Get(p, "acciones")
    ensures item == PropertyType ==> v == Get(p, "nbtipo")
    ensures item == Conservation ==> v == Get(p, "nbconservacion")
    ensures item == ExteriorType ==> Truthy(v)
    ensures item == ExteriorType && Truthy(Get(p, "tipo_ext")) ==> v == Get(p, "tipo_ext")
    ensures item == ExteriorType && !Truthy(Get(p, "tipo_ext")) ==> v == Str("Exterior")
    ensures item == Regime ==> Truthy(v)
    ensures item == Regime && Truthy(Get(p, "nbestatuto")) ==> v == Get(p, "nbestatuto")
    ensures item == Regime && !Truthy(Get(p, "nbestatuto")) ==> v == Str("Libre")
    ensures item in {BuiltSurface, Antiquity, Ibi} ==> v.Str? && Truthy(v)
  {
    match item
    case Reference => Get(p, "ref")
    case Operation => Get(p, "acciones")
    case PropertyType => Get(p, "nbtipo")
    case Zone =>
      if Truthy(Get(p, "zona"))
      then Str(ToJsString(Get(p, "zona")) + " / " + ToJsString(Get(p, "ciudad")))
      else Get(p, "ciudad")
    case BuiltSurface => WithUnit(Get(p, "m_cons"), " m²")
    case Conservation => Get(p, "nbconservacion")
    case Antiquity => WithUnit(Get(p, "antiguedad"), " " + yearsLabel)
    case ExteriorType => Or(Get(p, "tipo_ext"), Str("Exterior"))
    case Ibi => WithUnit(Get(p, "ibi"), " €")
    case Regime => Or(Get(p, "nbestatuto"), Str("Libre"))
  }

  /** The text shown for an item. */
  function ItemText(p: Value, item: SpecItem, yearsLabel: string): string
    requires NoObject(ItemValue(p, item, yearsLabel))
  {
    Display(ItemValue(p, item, yearsLabel))
  }

  /** The exterior type and the legal regime fall back to "Exterior" and
      "Libre" and so never show a dash for a missing value; a surface,
      an age or a tax amount shows its unit, or the dash when missing. */
  lemma FallbackTexts(p: Value, yearsLabel: string)
    requires NoObject(Get(p, "tipo_ext")) && NoObject(Get(p, "nbestatuto"))
    ensures !Truthy(Get(p, "tipo_ext")) ==> ItemText(p, ExteriorType, yearsLabel) == "Exterior"
    ensures !Truthy(Get(p, "nbestatuto")) ==> ItemText(p, Regime, yearsLabel) == "Libre"
    ensures Truthy(Get(p, "m_cons")) ==>
      ItemText(p, BuiltSurface, yearsLabel) == ToJsString(Get(p, "m_cons")) + " m²"
    ensures !Truthy(Get(p, "m_cons")) ==> ItemText(p, BuiltSurface, yearsLabel) == "-"
    ensures Truthy(Get(p, "ibi")) ==> ItemText(p, Ibi, yearsLabel) == ToJsString(Get(p, "ibi")) + " €"
  {
  }

  // ---------------------------------------------------------------------
  // Amenities

  /** `checkAmenity`: an amenity is present when its field is "S", "1" or
      a positive number. */
  function CheckAmenity(v: Value): (present: bool)
    ensures present <==> v == Str("S") || v == Str("1") || (v.Num? && v.n > 0)
    ensures present ==> Truthy(v)
  {
    if !Truthy(v) then false
    else v == Str("S") || v == Num(1) || v == Str("1") || (v.Num? && v.n > 0)
  }

  /** The record fields of the 26 amenities, in display order. */
  const AmenityKeys: seq<string> := [
    "aire_con", "parking_inc", "m_terraza", "ascensor", "armarios",
    "trastero", "puerta_blindada", "muebles", "videoportero", "piscina_com",
    "luz", "agua", "parking", "barbacoa", "tv",
    "sala_juegos", "jardin", "adaptado_pmr", "bomba_frio_calor", "vistas_despejadas",
    "zona_verde", "vigilancia_24h", "arboles", "centros_comerciales", "zona_costera",
    "golf"
  ]

  lemma AmenityKeysDistinct()
    ensures |AmenityKeys| == 26
    ensures forall i, j :: 0 <= i < j < |AmenityKeys| ==> AmenityKeys[i] != AmenityKeys[j]
  {
  }

  /** The check mark of each amenity. */
  function AmenityStates(p: Value): (marks: seq<bool>)
    ensures |marks| == |AmenityKeys|
    ensures forall i :: 0 <= i < |marks| ==> marks[i] == CheckAmenity(Get(p, AmenityKeys[i]))
  {
    seq(|AmenityKeys|, i requires 0 <= i < |AmenityKeys| => CheckAmenity(Get(p, AmenityKeys[i])))
  }

  /** Setting one amenity field of a record turns on exactly that amenity's
      check mark according to the new value and leaves every other mark as
      it was. */
  lemma AmenityIndependent(fields: seq<(string, Value)>, k: nat, v: Value)
    requires k < |AmenityKeys|
    ensures AmenityStates(Obj(fields + [(AmenityKeys[k], v)]))[k] == CheckAmenity(v)
    ensures forall j :: 0 <= j < |AmenityKeys| && j != k ==>
      AmenityStates(Obj(fields + [(AmenityKeys[k], v)]))[j] == AmenityStates(Obj(fields))[j]
  {
    AmenityKeysDistinct();
    var updated := fields + [(AmenityKeys[k], v)];
    assert updated[..|updated| - 1] == fields;
  }

  // ---------------------------------------------------------------------
  // Energy certificate strip

  const EnergyLetters: seq<char> := ['A', 'B', 'C', 'D', 'E', 'F', 'G']

  /** `energialetra?.toUpperCase() === letter`. */
  predicate Highlighted(energialetra: Value, letter: char)
    requires energialetra.Str? || IsNullish(energialetra)
  {
    energialetra.Str? && Upper(energialetra.s) == [letter]
  }

  /** The strip's highlight flags, one per letter A..G. */
  function EnergyStrip(p: Value): (marks: seq<bool>)
    requires Get(p, "energialetra").Str? || IsNullish(Get(p, "energialetra"))
    ensures |marks| == 7
    ensures forall i :: 0 <= i < 7 ==> marks[i] == Highlighted(Get(p, "energialetra"), EnergyLetters[i])
  {
    seq(7, i requires 0 <= i < 7 => Highlighted(Get(p, "energialetra"), EnergyLetters[i]))
  }

  /** At most one letter is highlighted; a one-letter rating in either case
      highlights its own letter; a missing rating highlights none. */
  lemma EnergyStripSpec(p: Value)
    requires Get(p, "energialetra").Str? || IsNullish(Get(p, "energialetra"))
    ensures forall i, j :: 0 <= i < j < 7 ==> !(EnergyStrip(p)[i] && EnergyStrip(p)[j])
    ensures IsNullish(Get(p, "energialetra")) ==> forall i :: 0 <= i < 7 ==> !EnergyStrip(p)[i]
    ensures forall i :: 0 <= i < 7 && Get(p, "energialetra") == Str([EnergyLetters[i]]) ==> EnergyStrip(p)[i]
    ensures forall i :: 0 <= i < 7 && Get(p, "energialetra") == Str([LowerChar(EnergyLetters[i])]) ==>
      EnergyStrip(p)[i]
  {
  }
}
