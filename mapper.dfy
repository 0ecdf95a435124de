/** The normaliser of src/lib/property-mapper.ts: one raw Inmovilla listing
    record, the optional description table and a language number become a
    `Property` display record. Every field has a fallback, so the function is
    total on every record that is not `null` or `undefined`. */
module PropertyMapper {
  import opened JsValue

  datatype Operation = Sale | Rent
  datatype Status = Available | Unavailable

  datatype Specs = Specs(
    size: Value, beds: Value, baths: Value,
    conservation: Value, year: Value, ibi: Value, exterior: bool)

  datatype Energy = Energy(
    letter: Value, consumption: Value, emissionsLetter: Value, emissionsValue: Value)

  datatype Property = Property(
    id: string,
    reference: Value,
    title: Value,
    description: Value,
    price: int,
    operation: Operation,
    operationLabel: string,
    status: Status,
    location: string,
    propertyType: Value,
    mainImage: Value,
    images: seq<Value>,
    specs: Specs,
    energy: Energy,
    features: seq<string>)

  const DefaultTitle := Str("Property")
  const DefaultDescription := Str("No description available.")

  /** `raw.cod_ofer?.toString() ?? ""`. A numeric offer code reads back from
      its id. */
  function OfferId(codOfer: Value): (id: string)
    ensures IsNullish(codOfer) ==> id == ""
    ensures codOfer.Str? ==> id == codOfer.s
    ensures codOfer.Num? ==> ToNumber(Str(id)) == Some(codOfer.n)
  {
    if IsNullish(codOfer) then ""
    else if codOfer.Num? then NumberOfString(codOfer.n); ToJsString(codOfer)
    else ToJsString(codOfer)
  }

  /** `descripciones?.[raw.cod_ofer]?.[lang]`. */
  function DescriptionBlock(descripciones: Value, codOfer: Value, lang: int): Value
  {
    Get(Get(descripciones, ToJsString(codOfer)), IntToString(lang))
  }

  /** `descBlock?.titulo || raw.nbtipo || "Property"`. */
  function Title(block: Value, raw: Value): (r: Value)
    ensures Truthy(r)
    ensures Truthy(Get(block, "titulo")) ==> r == Get(block, "titulo")
    ensures !Truthy(Get(block, "titulo")) && Truthy(Get(raw, "nbtipo")) ==> r == Get(raw, "nbtipo")
    ensures !Truthy(Get(block, "titulo")) && !Truthy(Get(raw, "nbtipo")) ==> r == DefaultTitle
  {
    Or(Or(Get(block, "titulo"), Get(raw, "nbtipo")), DefaultTitle)
  }

  /** `descBlock?.descrip || raw.descrip || "No description available."`. */
  function Description(block: Value, raw: Value): (r: Value)
    ensures Truthy(r)
    ensures Truthy(Get(block, "descrip")) ==> r == Get(block, "descrip")
    ensures !Truthy(Get(block, "descrip")) && Truthy(Get(raw, "descrip")) ==> r == Get(raw, "descrip")
    ensures !Truthy(Get(block, "descrip")) && !Truthy(Get(raw, "descrip")) ==> r == DefaultDescription
  {
    Or(Or(Get(block, "descrip"), Get(raw, "descrip")), DefaultDescription)
  }

  /** The mapper's classification: only the number 1 (strict equality) is a sale. */
  function OperationOf(keyacci: Value): (op: Operation)
    ensures op == Sale <==> keyacci == Num(1)
  {
    if keyacci == Num(1) then Sale else Rent
  }

  function OperationLabel(keyacci: Value): (text: string)
    ensures keyacci == Num(1) ==> text == "Vender"
    ensures keyacci == Num(2) ==> text == "Alquilar"
    ensures keyacci != Num(1) && keyacci != Num(2) ==> text == "Otro"
  {
    if keyacci == Num(1) then "Vender" else if keyacci == Num(2) then "Alquilar" else "Otro"
  }

  /** The raw price field the operation selects. */
  function PriceField(raw: Value, op: Operation): Value
  {
    if op == Sale then Get(raw, "precioinmo") else Get(raw, "precioalq")
  }

  /** `Number(v) || 0`: NaN and 0 both become 0, so the result is a number. */
  function NumberOrZero(v: Value): (price: int)
    ensures price == 0 <==> ToNumber(v) == None || ToNumber(v) == Some(0)
    ensures price != 0 ==> ToNumber(v) == Some(price)
  {
    match ToNumber(v)
    case None => 0
    case Some(n) => n
  }

  /** `raw.estadoficha === 0 || raw.nodispo === 1`. */
  function StatusOf(raw: Value): (st: Status)
    ensures st == Unavailable <==> Get(raw, "estadoficha") == Num(0) || Get(raw, "nodispo") == Num(1)
  {
    if Get(raw, "estadoficha") == Num(0) || Get(raw, "nodispo") == Num(1) then Unavailable else Available
  }

  /** The length `Array.from({ length: numfotos })` gives: NaN and negative
      counts give 0. */
  function PhotoCount(numfotos: Value): (count: nat)
    ensures numfotos.Num? && numfotos.n > 0 ==> count == numfotos.n
    ensures ToNumber(numfotos) == None ==> count == 0
  {
    match ToNumber(numfotos)
    case None => 0
    case Some(n) => if n < 0 then 0 else n
  }

  /** The URL part shared by all photos of a record. */
  function PhotoUrlPrefix(raw: Value): string
  {
    "https://fotos" + ToJsString(Get(raw, "srvfotos")) + ".apinmo.com/"
      + ToJsString(Get(raw, "numagencia")) + "/" + ToJsString(Get(raw, "cod_ofer")) + "/"
      + ToJsString(Get(raw, "fotoletra")) + "-"
  }

  /** The URL of photo number k (counting from 1). */
  function PhotoUrl(raw: Value, k: nat): (url: string)
    ensures |url| > 0
  {
    PhotoUrlPrefix(raw) + NatToString(k) + ".jpg"
  }

  /** Different photo numbers give different URLs. */
  lemma PhotoUrlInjective(raw: Value, a: nat, b: nat)
    requires PhotoUrl(raw, a) == PhotoUrl(raw, b)
    ensures a == b
  {
    var p := PhotoUrlPrefix(raw);
    var u := PhotoUrl(raw, a);
    assert |NatToString(a)| == |NatToString(b)|;
    assert NatToString(a) == u[|p|..|u| - 4];
    assert NatToString(b) == u[|p|..|u| - 4];
    NatToStringInjective(a, b);
  }

  predicate HasPhotoSet(raw: Value) {
    Truthy(Get(raw, "numfotos")) && Truthy(Get(raw, "fotoletra")) && Truthy(Get(raw, "srvfotos"))
  }

  /** The image list: numbered photo URLs when the record has a photo count,
      a photo letter and a photo server; else the single `foto`; else none. */
  function Images(raw: Value): (images: seq<Value>)
    ensures forall i :: 0 <= i < |images| ==> Truthy(images[i])
    ensures HasPhotoSet(raw) ==> |images| == PhotoCount(Get(raw, "numfotos"))
    ensures HasPhotoSet(raw) ==> forall i :: 0 <= i < |images| ==> images[i] == Str(PhotoUrl(raw, i + 1))
    ensures !HasPhotoSet(raw) && Truthy(Get(raw, "foto")) ==> images == [Get(raw, "foto")]
    ensures !HasPhotoSet(raw) && !Truthy(Get(raw, "foto")) ==> images == []
  {
    if HasPhotoSet(raw) then
      seq(PhotoCount(Get(raw, "numfotos")), i requires 0 <= i => Str(PhotoUrl(raw, i + 1)))
    else if Truthy(Get(raw, "foto")) then [Get(raw, "foto")]
    else []
  }

  /** Synthesised photo URLs are pairwise distinct. */
  lemma ImagesDistinct(raw: Value, i: nat, j: nat)
    requires HasPhotoSet(raw)
    requires i < j < |Images(raw)|
    ensures Images(raw)[i] != Images(raw)[j]
  {
    if Images(raw)[i] == Images(raw)[j] {
      PhotoUrlInjective(raw, i + 1, j + 1);
    }
  }

  /** `images[0] || ""`. */
  function MainImage(images: seq<Value>): (main: Value)
    ensures |images| > 0 && Truthy(images[0]) ==> main == images[0]
    ensures |images| == 0 ==> main == Str("")
  {
    Or(if |images| > 0 then images[0] else Undef, Str(""))
  }

  /** The values of a list that `filter(Boolean)` keeps, as strings. */
  function TruthyStrings(vs: seq<Value>): (parts: seq<string>)
    ensures |parts| <= |vs|
  {
    if |vs| == 0 then []
    else (if Truthy(vs[0]) then [ToJsString(vs[0])] else []) + TruthyStrings(vs[1..])
  }

  /** `[zona, ciudad].filter(Boolean).join(" / ")`. */
  function Location(zona: Value, ciudad: Value): (loc: string)
    ensures !Truthy(zona) && !Truthy(ciudad) ==> loc == ""
    ensures Truthy(zona) && !Truthy(ciudad) ==> loc == ToJsString(zona)
    ensures !Truthy(zona) && Truthy(ciudad) ==> loc == ToJsString(ciudad)
    ensures Truthy(zona) && Truthy(ciudad) ==> loc == ToJsString(zona) + " / " + ToJsString(ciudad)
  {
    var tail := if Truthy(ciudad) then [ToJsString(ciudad)] else [];
    assert [zona, ciudad][1..] == [ciudad];
    assert TruthyStrings([ciudad]) == tail + TruthyStrings([]);
    assert TruthyStrings([zona, ciudad]) == (if Truthy(zona) then [ToJsString(zona)] else []) + tail;
    JoinTwo(ToJsString(zona), ToJsString(ciudad), " / ");
    Join(TruthyStrings([zona, ciudad]), " / ")
  }

  /** Sizes, rooms and the optional secondary attributes, each with its default. */
  function SpecsOf(raw: Value): (specs: Specs)
    ensures Truthy(specs.size) || specs.size == Num(0)
    ensures Truthy(specs.beds) || specs.beds == Num(0)
    ensures Truthy(specs.baths) || specs.baths == Num(0)
    ensures Truthy(Get(raw, "m_cons")) ==> specs.size == Get(raw, "m_cons")
    ensures Truthy(specs.conservation) || specs.conservation == Undef
    ensures Truthy(specs.year) || specs.year == Undef
    ensures Truthy(specs.ibi) || specs.ibi == Undef
    ensures specs.exterior <==> Get(raw, "todoext") == Num(1)
    ensures !Truthy(Get(raw, "m_cons")) && Truthy(Get(raw, "m_uties")) ==> specs.size == Get(raw, "m_uties")
    ensures !Truthy(Get(raw, "m_cons")) && !Truthy(Get(raw, "m_uties")) ==>
      specs.size == if Truthy(Get(raw, "m_parcela")) then Get(raw, "m_parcela") else Num(0)
    ensures specs.beds == if Truthy(Get(raw, "total_hab")) then Get(raw, "total_hab") else Num(0)
    ensures Truthy(Get(raw, "banyos")) ==> specs.baths == Get(raw, "banyos")
    ensures !Truthy(Get(raw, "banyos")) ==>
      specs.baths == if Truthy(Get(raw, "aseos")) then Get(raw, "aseos") else Num(0)
    ensures specs.conservation == if Truthy(Get(raw, "conservacion_txt")) then Get(raw, "conservacion_txt") else Undef
    ensures specs.year == if Truthy(Get(raw, "antiguedad")) then Get(raw, "antiguedad") else Undef
    ensures specs.ibi == if Truthy(Get(raw, "ibi")) then Get(raw, "ibi") else Undef
  {
    Specs(
      Or(Or(Or(Get(raw, "m_cons"), Get(raw, "m_uties")), Get(raw, "m_parcela")), Num(0)),
      Or(Get(raw, "total_hab"), Num(0)),
      Or(Or(Get(raw, "banyos"), Get(raw, "aseos")), Num(0)),
      Or(Get(raw, "conservacion_txt"), Undef),
      Or(Get(raw, "antiguedad"), Undef),
      Or(Get(raw, "ibi"), Undef),
      Get(raw, "todoext") == Num(1))
  }

  function EnergyOf(raw: Value): (e: Energy)
    ensures Truthy(e.letter) || e.letter == Null
    ensures Truthy(e.consumption) || e.consumption == Null
    ensures Truthy(e.emissionsLetter) || e.emissionsLetter == Null
    ensures Truthy(e.emissionsValue) || e.emissionsValue == Null
    ensures e.letter == if Truthy(Get(raw, "energialetra")) then Get(raw, "energialetra") else Null
    ensures e.consumption == if Truthy(Get(raw, "energiavalor")) then Get(raw, "energiavalor") else Null
    ensures e.emissionsLetter == if Truthy(Get(raw, "emisionesletra")) then Get(raw, "emisionesletra") else Null
    ensures e.emissionsValue == if Truthy(Get(raw, "emisionesvalor")) then Get(raw, "emisionesvalor") else Null
  {
    Energy(
      Or(Get(raw, "energialetra"), Null),
      Or(Get(raw, "energiavalor"), Null),
      Or(Get(raw, "emisionesletra"), Null),
      Or(Get(raw, "emisionesvalor"), Null))
  }

  /** The main image is the first image, or "" when there is none. */
  predicate MainImageConsistent(p: Property) {
    (|p.images| == 0 ==> p.mainImage == Str(""))
    && (|p.images| > 0 ==> p.mainImage == p.images[0])
  }

  /** `mapInmovillaToProperty(raw, descripciones, lang)`; reading a field of
      `null` or `undefined` would throw, hence the precondition. */
  function MapInmovillaToProperty(raw: Value, descripciones: Value, lang: int): (p: Property)
    requires !IsNullish(raw)
    ensures Truthy(p.title) && Truthy(p.description)
    ensures p.operation == Sale <==> Get(raw, "keyacci") == Num(1)
    ensures p.price != 0 ==> ToNumber(PriceField(raw, p.operation)) == Some(p.price)
    ensures p.price == 0 <==> ToNumber(PriceField(raw, p.operation)) in {None, Some(0)}
    ensures p.status == Unavailable <==> Get(raw, "estadoficha") == Num(0) || Get(raw, "nodispo") == Num(1)
    ensures forall i :: 0 <= i < |p.images| ==> Truthy(p.images[i])
    ensures MainImageConsistent(p)
    ensures p.features == []
  {
    var codOfer := Get(raw, "cod_ofer");
    var block := DescriptionBlock(descripciones, codOfer, lang);
    var keyacci := Get(raw, "keyacci");
    var op := OperationOf(keyacci);
    var images := Images(raw);
    Property(
      OfferId(codOfer),
      Or(Get(raw, "ref"), Str("")),
      Title(block, raw),
      Description(block, raw),
      NumberOrZero(PriceField(raw, op)),
      op,
      OperationLabel(keyacci),
      StatusOf(raw),
      Location(Get(raw, "zona"), Get(raw, "ciudad")),
      Or(Get(raw, "nbtipo"), Str("")),
      MainImage(images),
      images,
      SpecsOf(raw),
      EnergyOf(raw),
      [])
  }

  /** With a photo set of n > 0 photos, the record lists exactly n numbered
      URLs in ascending order and the main image is photo 1. */
  lemma PhotoSetImages(raw: Value, descripciones: Value, lang: int, n: nat)
    requires !IsNullish(raw) && HasPhotoSet(raw) && Get(raw, "numfotos") == Num(n)
    ensures |MapInmovillaToProperty(raw, descripciones, lang).images| == n
    ensures forall i :: 0 <= i < n ==>
      MapInmovillaToProperty(raw, descripciones, lang).images[i] == Str(PhotoUrl(raw, i + 1))
    ensures MapInmovillaToProperty(raw, descripciones, lang).mainImage == Str(PhotoUrl(raw, 1))
  {
  }

  /** A negative photo count is truthy, so it wins over `foto` and leaves the
      record without any image. */
  lemma NegativePhotoCountHidesFoto(raw: Value, descripciones: Value, lang: int)
    requires !IsNullish(raw) && HasPhotoSet(raw) && Get(raw, "numfotos") == Num(-1)
    requires Truthy(Get(raw, "foto"))
    ensures MapInmovillaToProperty(raw, descripciones, lang).images == []
    ensures MapInmovillaToProperty(raw, descripciones, lang).mainImage == Str("")
  {
  }
}
