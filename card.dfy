/** A catalog card (`PropertyCard.tsx`) for the record it is handed: hidden
    for an unavailable listing, an image carousel with wrap-around buttons
    shown on hover, the price line, the spec cells and the link to the
    detail page. The card reads the fields of a mapped record, but the
    catalog hands it the listing hook's raw records; both are modelled. */
module PropertyCard {
  import opened JsValue
  import PropertyMapper
  import Carousel

  // ---------------------------------------------------------------------
  // The card over the fields it reads

  /** The fields of its record the card reads. */
  datatype CardInput = CardInput(
    status: Value, images: Value, mainImage: Value, price: Value,
    operation: Value, id: Value, specs: Value)

  /** What the price line shows. */
  datatype PriceText = Amount(euros: int) | OnRequest

  /** What a rendered card shows. */
  datatype CardView = CardView(images: seq<Value>, price: PriceText, perMonth: bool, link: string)

  /** The card renders nothing, throws while rendering, or shows a view. */
  datatype CardOutcome = Hidden | Throws | Shown(view: CardView)

  /** `property.images?.length > 0 ? property.images : [property.mainImage]`. */
  function CardImages(c: CardInput): (images: seq<Value>)
    ensures |images| >= 1
    ensures c.images.Arr? && |c.images.items| > 0 ==> images == c.images.items
    ensures !(c.images.Arr? && |c.images.items| > 0) ==> images == [c.mainImage]
  {
    if c.images.Arr? && |c.images.items| > 0 then c.images.items else [c.mainImage]
  }

  /** The previous/next buttons exist only with more than one image. */
  predicate ShowControls(c: CardInput) {
    |CardImages(c)| > 1
  }

  /** `Number(property.price) > 0`: a positive price is shown as an amount;
      zero, a negative price and NaN as "on request". */
  function PriceLine(c: CardInput): (text: PriceText)
    ensures text.Amount? <==> ToNumber(c.price).Some? && ToNumber(c.price).value > 0
    ensures text.Amount? ==> ToNumber(c.price) == Some(text.euros)
  {
    var n := ToNumber(c.price);
    if n.Some? && n.value > 0 then Amount(n.value) else OnRequest
  }

  /** The "per month" suffix follows the operation alone, whatever the price
      line shows. */
  predicate PerMonth(c: CardInput) {
    c.operation == Str("rent")
  }

  /** `/properties/${property.id}`. */
  function DetailsLink(c: CardInput): (path: string)
    ensures |path| >= |"/properties/"| && path[..|"/properties/"|] == "/properties/"
    ensures path[|"/properties/"|..] == ToJsString(c.id)
  {
    "/properties/" + ToJsString(c.id)
  }

  /** Two cards link to the same page only when their ids print alike. */
  lemma DetailsLinkInjective(c: CardInput, d: CardInput)
    requires DetailsLink(c) == DetailsLink(d)
    ensures ToJsString(c.id) == ToJsString(d.id)
  {
    var n := |"/properties/"|;
    assert ToJsString(c.id) == DetailsLink(c)[n..];
    assert ToJsString(d.id) == DetailsLink(d)[n..];
  }

  /** The card once its record's fields are read: an unavailable listing
      renders nothing; the spec cells read `property.specs.beds`, which
      throws when `specs` is missing. */
  function RenderFields(c: CardInput): (out: CardOutcome)
    ensures out == Hidden <==> c.status == Str("unavailable")
    ensures out == Throws <==> c.status != Str("unavailable") && IsNullish(c.specs)
    ensures out.Shown? ==> out.view == CardView(CardImages(c), PriceLine(c), PerMonth(c), DetailsLink(c))
  {
    if c.status == Str("unavailable") then Hidden
    else if IsNullish(c.specs) then Throws
    else Shown(CardView(CardImages(c), PriceLine(c), PerMonth(c), DetailsLink(c)))
  }

  // ---------------------------------------------------------------------
  // The card for a record passed as is

  /** The fields of a record passed as is. */
  function FieldsOf(p: Value): CardInput {
    CardInput(
      Get(p, "status"), Get(p, "images"), Get(p, "mainImage"), Get(p, "price"),
      Get(p, "operation"), Get(p, "id"), Get(p, "specs"))
  }

  /** The card for record p: reading `status` of a nullish record throws. */
  function Render(p: Value): (out: CardOutcome)
    ensures out == Hidden <==> Get(p, "status") == Str("unavailable")
    ensures out == Throws <==> IsNullish(p) || (Get(p, "status") != Str("unavailable") && IsNullish(Get(p, "specs")))
    ensures out.Shown? ==> !IsNullish(p) && out.view.link == "/properties/" + ToJsString(Get(p, "id"))
  {
    if IsNullish(p) then Throws else RenderFields(FieldsOf(p))
  }

  /** A listing record as the hook delivers it has none of the mapped
      fields: it is never hidden, and the card throws on its spec cells. */
  lemma RawRecordThrows(raw: Value)
    requires Get(raw, "status") == Undef && Get(raw, "specs") == Undef
    ensures Render(raw) == Throws
  {
  }

  /** Before it throws, the card computes for such a record one `undefined`
      image, "on request", no per-month suffix and the link
      "/properties/undefined". */
  lemma RawRecordFields(raw: Value)
    requires Get(raw, "images") == Undef && Get(raw, "mainImage") == Undef
    requires Get(raw, "price") == Undef && Get(raw, "operation") == Undef && Get(raw, "id") == Undef
    ensures CardImages(FieldsOf(raw)) == [Undef] && !ShowControls(FieldsOf(raw))
    ensures PriceLine(FieldsOf(raw)) == OnRequest && !PerMonth(FieldsOf(raw))
    ensures DetailsLink(FieldsOf(raw)) == "/properties/undefined"
  {
  }

  // ---------------------------------------------------------------------
  // The card for a mapped record

  /** The fields of a mapped record. */
  function MappedFields(p: PropertyMapper.Property): (c: CardInput)
    ensures c.id == Str(p.id)
    ensures c.status == Str("unavailable") <==> p.status == PropertyMapper.Unavailable
    ensures c.images == Arr(p.images) && c.mainImage == p.mainImage
    ensures c.price == Num(p.price)
    ensures c.operation == Str("rent") <==> p.operation == PropertyMapper.Rent
    ensures !IsNullish(c.specs)
  {
    CardInput(
      Str(if p.status == PropertyMapper.Unavailable then "unavailable" else "available"),
      Arr(p.images),
      p.mainImage,
      Num(p.price),
      Str(if p.operation == PropertyMapper.Rent then "rent" else "sale"),
      Str(p.id),
      Obj([("size", p.specs.size), ("beds", p.specs.beds), ("baths", p.specs.baths)]))
  }

  /** The card for a listing record mapped first. It never throws, it is
      hidden exactly for an unavailable listing, and otherwise shows the
      record's photos (or its empty main image), its positive price, the
      per-month suffix for every operation code but 1, and its page. */
  function MappedCard(raw: Value, descripciones: Value, lang: int): (out: CardOutcome)
    requires !IsNullish(raw)
    ensures out != Throws
    ensures out == Hidden <==> Get(raw, "estadoficha") == Num(0) || Get(raw, "nodispo") == Num(1)
    ensures out.Shown? ==>
      var p := PropertyMapper.MapInmovillaToProperty(raw, descripciones, lang);
      && out.view.images == (if |p.images| > 0 then p.images else [Str("")])
      && (out.view.price.Amount? <==> p.price > 0)
      && (out.view.price.Amount? ==> out.view.price.euros == p.price)
      && (out.view.perMonth <==> Get(raw, "keyacci") != Num(1))
      && out.view.link == "/properties/" + p.id
  {
    var p := PropertyMapper.MapInmovillaToProperty(raw, descripciones, lang);
    MappedFieldsRender(p);
    RenderFields(MappedFields(p))
  }

  /** The card for a mapped record, in terms of the record. */
  lemma MappedFieldsRender(p: PropertyMapper.Property)
    ensures var out := RenderFields(MappedFields(p));
      && out != Throws
      && (out == Hidden <==> p.status == PropertyMapper.Unavailable)
      && (out.Shown? ==>
            && out.view.images == (if |p.images| > 0 then p.images else [p.mainImage])
            && (out.view.price.Amount? <==> p.price > 0)
            && (out.view.price.Amount? ==> out.view.price.euros == p.price)
            && (out.view.perMonth <==> p.operation == PropertyMapper.Rent)
            && out.view.link == "/properties/" + p.id)
  {
    assert ToJsString(MappedFields(p).id) == p.id;
  }

  /** A mapped record without photos shows one empty image and no buttons. */
  lemma NoPhotoCard(raw: Value, descripciones: Value, lang: int)
    requires !IsNullish(raw)
    requires |PropertyMapper.MapInmovillaToProperty(raw, descripciones, lang).images| == 0
    ensures var c := MappedFields(PropertyMapper.MapInmovillaToProperty(raw, descripciones, lang));
      CardImages(c) == [Str("")] && !ShowControls(c)
  {
  }

  /** A mapped rental whose rent is unreadable shows "on request" followed by
      the per-month suffix. */
  lemma RentalOnRequest(raw: Value, descripciones: Value, lang: int)
    requires !IsNullish(raw)
    requires Get(raw, "keyacci") == Num(2) && ToNumber(Get(raw, "precioalq")) == None
    ensures var c := MappedFields(PropertyMapper.MapInmovillaToProperty(raw, descripciones, lang));
      PriceLine(c) == OnRequest && PerMonth(c)
  {
    var p := PropertyMapper.MapInmovillaToProperty(raw, descripciones, lang);
    assert p.operation == PropertyMapper.Rent;
    assert PropertyMapper.PriceField(raw, p.operation) == Get(raw, "precioalq");
  }

  /** The card's carousel state. */
  class CardCarousel {
    const images: seq<Value>
    var index: int
    var hovered: bool

    ghost predicate Valid()
      reads this
    {
      |images| >= 1 && 0 <= index < |images|
    }

    constructor (c: CardInput)
      ensures Valid()
      ensures images == CardImages(c) && index == 0 && !hovered
    {
      images := CardImages(c);
      index := 0;
      hovered := false;
    }

    /** The image on display. */
    function Current(): (img: Value)
      requires Valid()
      reads this
      ensures img in images
    {
      images[index]
    }

    /** The buttons can be pressed only while the pointer is over the card
        and there is more than one image. */
    predicate ControlsUsable()
      reads this
    {
      hovered && |images| > 1
    }

    method MouseEnter()
      modifies this
      ensures hovered && index == old(index)
    {
      hovered := true;
    }

    method MouseLeave()
      modifies this
      ensures !hovered && index == old(index)
    {
      hovered := false;
    }

    /** `(prev + 1) % images.length`. */
    method NextImage()
      requires Valid() && ControlsUsable()
      modifies this
      ensures Valid() && hovered
      ensures index == Carousel.Next(old(index), |images|)
      ensures index == if old(index) == |images| - 1 then 0 else old(index) + 1
    {
      index := (index + 1) % |images|;
    }

    /** `(prev - 1 + images.length) % images.length`. */
    method PreviousImage()
      requires Valid() && ControlsUsable()
      modifies this
      ensures Valid() && hovered
      ensures index == Carousel.Prev(old(index), |images|)
      ensures index == if old(index) == 0 then |images| - 1 else old(index) - 1
    {
      index := (index - 1 + |images|) % |images|;
    }
  }
}
