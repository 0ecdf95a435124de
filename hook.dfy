/** The listing hook (`useProperties.ts`): one request per language; the
    records are the `paginacion` array of the answer, without its leading
    pagination header when the first entry has neither a reference nor an
    offer code. Every failure leaves an empty list. */
module UseProperties {
  import opened JsValue
  import Inmovilla

  /** The first entry is the pagination header rather than a record. */
  predicate IsHeader(first: Value) {
    !Truthy(Get(first, "ref")) && !Truthy(Get(first, "cod_ofer"))
  }

  /** The list kept from a response. `None` is a failed request, an HTTP
      error status or a body that is not JSON. An empty array or a nullish
      first entry makes the header test throw, which also ends in the empty
      list. */
  function ListFromResponse(response: Option<Value>): (list: seq<Value>)
    ensures response.None? ==> list == []
    ensures response.Some? && !(Truthy(response.value) && Get(response.value, "paginacion").Arr?) ==> list == []
  {
    if response.None? then []
    else
      var data := response.value;
      if !Truthy(data) then []
      else
        var paginacion := Get(data, "paginacion");
        if !paginacion.Arr? then []
        else
          var raw := paginacion.items;
          if |raw| == 0 || IsNullish(raw[0]) then []
          else if IsHeader(raw[0]) then raw[1..]
          else raw
  }

  /** The kept list is the array itself, the array without its header, or
      empty when the header test throws; it never gains or reorders
      records. */
  lemma ListFromResponseSpec(data: Value, raw: seq<Value>)
    requires Truthy(data) && Get(data, "paginacion") == Arr(raw)
    ensures var list := ListFromResponse(Some(data));
      && (list == raw || list == [] || (|raw| > 0 && list == raw[1..]))
      && (|raw| > 0 && !IsNullish(raw[0]) && !IsHeader(raw[0]) ==> list == raw)
      && (|raw| > 0 && !IsNullish(raw[0]) && IsHeader(raw[0]) ==> list == raw[1..])
      && (|raw| > 0 && IsNullish(raw[0]) ==> list == [])
      && (forall v :: v in list ==> v in raw)
  {
  }

  /** A record with a reference is never taken for the header. */
  lemma RecordWithRefKept(data: Value, first: Value, rest: seq<Value>, ref: string)
    requires Truthy(data) && Get(data, "paginacion") == Arr([first] + rest)
    requires ref != "" && Get(first, "ref") == Str(ref)
    ensures ListFromResponse(Some(data)) == [first] + rest
  {
  }

  /** The hook's state. */
  class PropertiesStore {
    var properties: seq<Value>
    var loading: bool

    constructor ()
      ensures properties == [] && loading
    {
      properties := [];
      loading := true;
    }

    /** The request for language `lang` and its outcome `response`; the
        language id the request is sent with is returned. */
    method Fetch(lang: string, response: Option<Value>) returns (langId: string)
      modifies this
      ensures langId == Inmovilla.LangId(lang) && (langId == "1" <==> lang == "es")
      ensures properties == ListFromResponse(response)
      ensures !loading
    {
      loading := true;
      langId := Inmovilla.LangId(lang);
      properties := ListFromResponse(response);
      loading := false;
    }
  }
}
