/** Conventions of the Inmovilla API that several views repeat: the language
    id sent with each request and the numeric test for a rental. */
module Inmovilla {
  import opened JsValue
  import PropertyMapper

  /** `lang === 'es' ? '1' : '2'`. */
  function LangId(lang: string): (id: string)
    ensures id == "1" <==> lang == "es"
    ensures id == "1" || id == "2"
  {
    if lang == "es" then "1" else "2"
  }

  /** `Number(keyacci) === 2`: the rental test of the catalog price rule and
      of the preview. */
  predicate IsRentalCode(keyacci: Value) {
    ToNumber(keyacci) == Some(2)
  }

  /** The mapper (strict `=== 1` is a sale) and the numeric rental test agree
      on the numbers 1 and 2 ... */
  lemma ClassificationsAgreeOnCodes()
    ensures PropertyMapper.OperationOf(Num(1)) == PropertyMapper.Sale && !IsRentalCode(Num(1))
    ensures PropertyMapper.OperationOf(Num(2)) == PropertyMapper.Rent && IsRentalCode(Num(2))
  {
  }

  /** ... but not on other codes: 3 and the string "1" are rentals for the
      mapper and sales for the numeric test, while the string "2" is a rental
      for both. */
  lemma ClassificationsDisagree()
    ensures PropertyMapper.OperationOf(Num(3)) == PropertyMapper.Rent && !IsRentalCode(Num(3))
    ensures PropertyMapper.OperationOf(Str("1")) == PropertyMapper.Rent && !IsRentalCode(Str("1"))
    ensures PropertyMapper.OperationOf(Str("2")) == PropertyMapper.Rent && IsRentalCode(Str("2"))
  {
    NumberOfString(1);
    NumberOfString(2);
    assert IntToString(1) == "1" && IntToString(2) == "2";
  }
}
