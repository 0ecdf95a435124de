/** The quick-view panel (`PropertyPreview.tsx`) opened from the catalog:
    it fetches the listing's detail once per offer and language, keeps it in
    a page-wide cache, shows a photo carousel, a title with fallbacks and
    the price of the operation. The listed record is the raw one from the
    listing hook. */
module PropertyPreview {
  import opened JsValue
  import Inmovilla
  import Carousel
  import Catalog

  /** The detail kept per offer and language. */
  datatype Details = Details(images: seq<string>, detailedTitle: Value, fullDescription: Value)

  /** The panel's state: the detail on display and whether it is loading. */
  datatype ExtraData = ExtraData(images: seq<string>, detailedTitle: Value, fullDescription: Value, loading: bool)

  function Loaded(d: Details): (e: ExtraData)
    ensures !e.loading
    ensures e.images == d.images && e.detailedTitle == d.detailedTitle && e.fullDescription == d.fullDescription
  {
    ExtraData(d.images, d.detailedTitle, d.fullDescription, false)
  }

  /** Before any detail: no images, the town or "Propiedad" as title. */
  function InitialExtra(p: Value): (e: ExtraData)
    ensures e.loading && e.images == [] && e.fullDescription == Str("")
    ensures Truthy(e.detailedTitle)
    ensures e.detailedTitle == if Truthy(Get(p, "poblacion")) then Get(p, "poblacion") else Str("Propiedad")
  {
    ExtraData([], Or(Get(p, "poblacion"), Str("Propiedad")), Str(""), true)
  }

  /** `${cod_ofer}_${langId}`. */
  function CacheKey(codOfer: Value, langId: string): (key: string)
    ensures key == ToJsString(codOfer) + "_" + langId
  {
    ToJsString(codOfer) + "_" + langId
  }

  /** Two numeric offers share a cache entry only if they are the same offer
      in the same language. */
  lemma CacheKeyInjective(a: int, b: int, la: string, lb: string)
    requires la in {"1", "2"} && lb in {"1", "2"}
    requires CacheKey(Num(a), la) == CacheKey(Num(b), lb)
    ensures a == b && la == lb
  {
    var sa, sb := IntToString(a), IntToString(b);
    var k := sa + "_" + la;
    assert |la| == 1 && |lb| == 1;
    assert k == sb + "_" + lb;
    assert |sa| == |sb|;
    assert sa == k[..|k| - 2];
    assert sb == k[..|k| - 2];
    assert la == k[|k| - 1..] && lb == k[|k| - 1..];
    NumberOfString(a);
    NumberOfString(b);
  }

  /** A photo URL: a string that contains "http". */
  predicate IsPhotoUrl(u: string) {
    Contains(u, "http")
  }

  /** URLs as the string values they were read from. */
  function AsValues(urls: seq<string>): (vs: seq<Value>)
    ensures |vs| == |urls| && forall i :: 0 <= i < |urls| ==> vs[i] == Str(urls[i])
  {
    seq(|urls|, i requires 0 <= i < |urls| => Str(urls[i]))
  }

  /** The photo URLs among the values of the photo object: the strings
      that contain "http". */
  function Gallery(values: seq<Value>): (urls: seq<string>)
    ensures |urls| <= |values|
    ensures forall u :: u in urls <==> Str(u) in values && IsPhotoUrl(u)
  {
    if |values| == 0 then []
    else
      var rest := Gallery(values[1..]);
      assert forall v :: v in values <==> v == values[0] || v in values[1..];
      if values[0].Str? && IsPhotoUrl(values[0].s) then [values[0].s] + rest else rest
  }

  /** Each photo URL appears as often as among the values. */
  lemma {:induction false} GalleryCount(values: seq<Value>)
    ensures forall u :: multiset(Gallery(values))[u] == if IsPhotoUrl(u) then multiset(values)[Str(u)] else 0
  {
    if |values| > 0 {
      GalleryCount(values[1..]);
      assert values == [values[0]] + values[1..];
      GalleryCountStep(values[0], values[1..], Gallery(values[1..]));
    }
  }

  /** The counts of the gallery carry over when one value is put in front. */
  lemma GalleryCountStep(v: Value, values: seq<Value>, urls: seq<string>)
    requires forall u :: multiset(urls)[u] == if IsPhotoUrl(u) then multiset(values)[Str(u)] else 0
    ensures var urls' := if v.Str? && IsPhotoUrl(v.s) then [v.s] + urls else urls;
      forall u :: multiset(urls')[u] == if IsPhotoUrl(u) then multiset([v] + values)[Str(u)] else 0
  {
  }

  /** The photo URLs keep the order of the values. */
  lemma {:induction false} GalleryOrder(values: seq<Value>)
    ensures Catalog.IsSubsequence(AsValues(Gallery(values)), values)
  {
    if |values| > 0 {
      GalleryOrder(values[1..]);
      var rest := Gallery(values[1..]);
      if values[0].Str? && IsPhotoUrl(values[0].s) {
        assert AsValues(Gallery(values))[1..] == AsValues(rest);
      }
    }
  }

  /** The detail built from a fetched result for listing p in language
      langId: the gallery of the offer's photo object, the translated
      description of the offer in that language, and the title chain. */
  function BuildDetails(p: Value, langId: string, result: Value): (d: Details)
    ensures Truthy(d.detailedTitle)
    ensures var fotos := Get(Get(result, "fotos"), ToJsString(Get(p, "cod_ofer")));
      && (Truthy(fotos) ==> d.images == Gallery(ObjectValues(fotos)))
      && (!Truthy(fotos) ==> d.images == [])
    ensures var desc := Get(Get(Get(result, "descripciones"), ToJsString(Get(p, "cod_ofer"))), langId);
      && (Truthy(Get(desc, "descrip")) ==> d.fullDescription == Get(desc, "descrip"))
      && (!Truthy(Get(desc, "descrip")) ==> d.fullDescription == Str(""))
    ensures var desc := Get(Get(Get(result, "descripciones"), ToJsString(Get(p, "cod_ofer"))), langId);
      d.detailedTitle == DetailedTitle(Get(desc, "titulo"), Get(Get(result, "ficha"), "titulo"), Get(p, "poblacion"))
  {
    var key := ToJsString(Get(p, "cod_ofer"));
    var ficha := Or(Get(result, "ficha"), Obj([]));
    var descObj := Or(Get(Get(Get(result, "descripciones"), key), langId), Obj([]));
    var fotosObj := Or(Get(Get(result, "fotos"), key), Obj([]));
    Details(
      Gallery(ObjectValues(fotosObj)),
      DetailedTitle(Get(descObj, "titulo"), Get(ficha, "titulo"), Get(p, "poblacion")),
      Or(Get(descObj, "descrip"), Str("")))
  }

  /** `descObj.titulo || ficha.titulo || poblacion || "Propiedad"`. */
  function DetailedTitle(translated: Value, fichaTitle: Value, town: Value): (title: Value)
    ensures Truthy(title)
    ensures Truthy(translated) ==> title == translated
    ensures !Truthy(translated) && Truthy(fichaTitle) ==> title == fichaTitle
    ensures !Truthy(translated) && !Truthy(fichaTitle) && Truthy(town) ==> title == town
    ensures !Truthy(translated) && !Truthy(fichaTitle) && !Truthy(town) ==> title == Str("Propiedad")
  {
    Or(Or(Or(translated, fichaTitle), town), Str("Propiedad"))
  }

  /** A translated title for the listing's offer and language wins over
      every fallback. */
  lemma TranslatedTitleWins(p: Value, langId: string, result: Value, title: string)
    requires title != ""
    requires Get(Get(Get(result, "descripciones"), ToJsString(Get(p, "cod_ofer"))), langId)
          == Obj([("titulo", Str(title))])
    ensures BuildDetails(p, langId, result).detailedTitle == Str(title)
  {
  }

  // ---------------------------------------------------------------------
  // Price and spec cells

  /** The price of the operation: the rent for a rental, else the sale price. */
  function DisplayPrice(p: Value): (price: Value)
    ensures Inmovilla.IsRentalCode(Get(p, "keyacci")) ==> price == Get(p, "precioalq")
    ensures !Inmovilla.IsRentalCode(Get(p, "keyacci")) ==> price == Get(p, "precioinmo")
  {
    if Inmovilla.IsRentalCode(Get(p, "keyacci")) then Get(p, "precioalq") else Get(p, "precioinmo")
  }

  /** The panel shows the amount when the displayed price reads as positive. */
  predicate PriceShown(p: Value) {
    var n := ToNumber(DisplayPrice(p));
    n.Some? && n.value > 0
  }

  /** The per-month suffix needs both a rental and a shown amount. */
  predicate PerMonthShown(p: Value) {
    Inmovilla.IsRentalCode(Get(p, "keyacci")) && PriceShown(p)
  }

  /** The panel's price is the one the catalog filters on, and the suffix
      appears exactly for a rental code with a rent that reads as positive. */
  lemma PriceAgreesWithCatalog(p: Value)
    ensures ToNumber(DisplayPrice(p)) == Catalog.ListedPrice(p)
    ensures PerMonthShown(p) <==>
      (Inmovilla.IsRentalCode(Get(p, "keyacci"))
       && ToNumber(Get(p, "precioalq")).Some? && ToNumber(Get(p, "precioalq")).value > 0)
  {
  }

  /** `value && value !== "0" ? value : "-"`. */
  function SpecDetailValue(v: Value): (shown: Value)
    ensures shown == v || shown == Str("-")
    ensures shown == v <==> (Truthy(v) && v != Str("0")) || v == Str("-")
    ensures Truthy(shown)
  {
    if Truthy(v) && v != Str("0") then v else Str("-")
  }

  /** Zero, as a number or as the string "0", and a missing value all show
      a dash. */
  lemma SpecDetailZero()
    ensures SpecDetailValue(Num(0)) == Str("-")
    ensures SpecDetailValue(Str("0")) == Str("-")
    ensures SpecDetailValue(Undef) == Str("-")
    ensures SpecDetailValue(Str("00")) == Str("00")
  {
  }

  // ---------------------------------------------------------------------
  // The page-wide cache and the panel

  /** `globalCache`: details by cache key, shared by every panel. */
  class PreviewCache {
    var entries: map<string, Details>

    constructor ()
      ensures entries == map[]
    {
      entries := map[];
    }
  }

  class PreviewPanel {
    const property: Value
    var extra: ExtraData
    var index: int

    constructor (p: Value)
      ensures property == p && extra == InitialExtra(p) && index == 0
    {
      property := p;
      extra := InitialExtra(p);
      index := 0;
    }

    /** The open effect for language `lang`. A cached detail is shown
        without a request; otherwise `response` is the request's outcome
        (`None` when it failed), and a detail built from it is stored. The
        image index goes back to 0 either way. */
    method Open(cache: PreviewCache, lang: string, response: Option<Value>)
      modifies this, cache
      ensures index == 0 && !extra.loading
      ensures var key := CacheKey(Get(property, "cod_ofer"), Inmovilla.LangId(lang));
        && (key in old(cache.entries) ==>
              extra == Loaded(old(cache.entries)[key]) && cache.entries == old(cache.entries))
        && (key !in old(cache.entries) && (response.None? || IsNullish(response.value)) ==>
              extra == old(extra).(loading := false) && cache.entries == old(cache.entries))
        && (key !in old(cache.entries) && response.Some? && !IsNullish(response.value) ==>
              var d := BuildDetails(property, Inmovilla.LangId(lang), response.value);
              extra == Loaded(d) && cache.entries == old(cache.entries)[key := d])
    {
      var langId := Inmovilla.LangId(lang);
      var key := CacheKey(Get(property, "cod_ofer"), langId);
      if key in cache.entries {
        extra := Loaded(cache.entries[key]);
      } else {
        extra := extra.(loading := true);
        if response.None? || IsNullish(response.value) {
          extra := extra.(loading := false);
        } else {
          var d := BuildDetails(property, langId, response.value);
          cache.entries := cache.entries[key := d];
          extra := Loaded(d);
        }
      }
      index := 0;
    }

    /** The carousel buttons appear once loaded with more than one image. */
    predicate ControlsShown()
      reads this
    {
      !extra.loading && |extra.images| > 1
    }

    method NextImage()
      requires ControlsShown() && 0 <= index < |extra.images|
      modifies this
      ensures extra == old(extra) && 0 <= index < |extra.images|
      ensures index == Carousel.Next(old(index), |extra.images|)
    {
      index := (index + 1) % |extra.images|;
    }

    method PreviousImage()
      requires ControlsShown() && 0 <= index < |extra.images|
      modifies this
      ensures extra == old(extra) && 0 <= index < |extra.images|
      ensures index == Carousel.Prev(old(index), |extra.images|)
    {
      index := (index - 1 + |extra.images|) % |extra.images|;
    }
  }
}
