/** The property detail page (`PropertyDetails.tsx`): loading one listing
    record by id through the mapper, the description clean-up, the image
    list with its fallback and thumbnails, and the page state. */
module PropertyDetails {
  import opened JsValue
  import PropertyMapper

  const Placeholder := "This property offers a refined lifestyle opportunity with strong investment value."

  // ---------------------------------------------------------------------
  // Removing markup: `replace(/<[^>]+>/g, " ")`

  /** The index of the first '>' in s, or |s| when there is none. */
  function GtIndex(s: string): (k: nat)
    ensures k <= |s|
    ensures k < |s| ==> s[k] == '>'
    ensures forall i :: 0 <= i < k ==> s[i] != '>'
  {
    if |s| == 0 || s[0] == '>' then 0 else 1 + GtIndex(s[1..])
  }

  /** A tag starts here: '<', at least one character other than '>', then '>'. */
  predicate IsTagStart(s: string) {
    |s| > 0 && s[0] == '<' && 0 < GtIndex(s[1..]) < |s| - 1
  }

  /** Every tag is replaced by one space, scanning left to right. */
  function StripTags(s: string): (r: string)
    ensures |r| <= |s|
    decreases |s|
  {
    if |s| == 0 then ""
    else if IsTagStart(s) then " " + StripTags(s[GtIndex(s[1..]) + 2..])
    else [s[0]] + StripTags(s[1..])
  }

  /** No tag starts anywhere in s. */
  predicate NoTags(s: string) {
    forall i :: 0 <= i < |s| ==> !IsTagStart(s[i..])
  }

  /** StripTags only removes characters or writes spaces, so it never
      introduces a '>'. */
  lemma {:induction false} StripTagsKeepsNoGt(s: string)
    requires forall i :: 0 <= i < |s| ==> s[i] != '>'
    ensures forall i :: 0 <= i < |StripTags(s)| ==> StripTags(s)[i] != '>'
    decreases |s|
  {
    if |s| > 0 {
      assert forall i :: 0 <= i < |s[1..]| ==> s[1..][i] != '>';
      assert GtIndex(s[1..]) == |s| - 1;
      StripTagsKeepsNoGt(s[1..]);
    }
  }

  /** No tag is left after stripping. */
  lemma {:induction false} StripTagsLeavesNoTags(s: string)
    ensures NoTags(StripTags(s))
    decreases |s|
  {
    if |s| > 0 {
      var r := StripTags(s);
      if IsTagStart(s) {
        var t := StripTags(s[GtIndex(s[1..]) + 2..]);
        StripTagsLeavesNoTags(s[GtIndex(s[1..]) + 2..]);
        assert r == " " + t;
        forall i | 0 <= i < |r| ensures !IsTagStart(r[i..]) {
          if i > 0 {
            assert r[i..] == t[i - 1..];
          }
        }
      } else {
        var t := StripTags(s[1..]);
        StripTagsLeavesNoTags(s[1..]);
        assert r == [s[0]] + t;
        forall i | 0 <= i < |r| ensures !IsTagStart(r[i..]) {
          if i > 0 {
            assert r[i..] == t[i - 1..];
          } else if s[0] == '<' {
            var g := GtIndex(s[1..]);
            if |s| == 1 {
              assert |r| == 1;
            } else if g == 0 {
              // s[1] is '>', and it is kept right after the '<'.
              assert !IsTagStart(s[1..]);
              assert t[0] == '>';
              assert GtIndex(r[1..]) == 0;
            } else {
              // There is no '>' after the '<' at all.
              assert g == |s| - 1;
              StripTagsKeepsNoGt(s[1..]);
              assert GtIndex(r[1..]) == |r| - 1 by {
                assert r[1..] == t;
              }
            }
          }
        }
      }
    }
  }

  /** Text without tags passes through unchanged. */
  lemma {:induction false} StripTagsNoTagsIdentity(s: string)
    requires NoTags(s)
    ensures StripTags(s) == s
    decreases |s|
  {
    if |s| > 0 {
      assert !IsTagStart(s[0..]);
      assert s[0..] == s;
      assert NoTags(s[1..]) by {
        forall i | 0 <= i < |s[1..]| ensures !IsTagStart(s[1..][i..]) {
          assert s[1..][i..] == s[i + 1..];
        }
      }
      StripTagsNoTagsIdentity(s[1..]);
    }
  }

  /** Stripping twice is stripping once. */
  lemma StripTagsIdempotent(s: string)
    ensures StripTags(StripTags(s)) == StripTags(s)
  {
    StripTagsLeavesNoTags(s);
    StripTagsNoTagsIdentity(StripTags(s));
  }

  // ---------------------------------------------------------------------
  // Collapsing whitespace: `replace(/\s+/g, " ")`

  /** Every whitespace character is a plain space and none is followed by
      another whitespace character. */
  predicate Collapsed(s: string) {
    forall i :: 0 <= i < |s| && IsJsSpace(s[i]) ==> s[i] == ' ' && (i + 1 < |s| ==> !IsJsSpace(s[i + 1]))
  }

  /** Each run of whitespace becomes one space. */
  function Collapse(s: string): (r: string)
    ensures |r| <= |s|
    ensures |s| > 0 && !IsJsSpace(s[0]) ==> |r| > 0 && r[0] == s[0]
    ensures |s| > 0 && IsJsSpace(s[0]) ==> |r| > 0 && r[0] == ' '
    ensures Collapsed(r)
    decreases |s|
  {
    if |s| == 0 then ""
    else if IsJsSpace(s[0]) then
      var rest := TrimStart(s);
      " " + Collapse(rest)
    else [s[0]] + Collapse(s[1..])
  }

  /** Collapsed text passes through unchanged. */
  lemma {:induction false} CollapseIdentity(s: string)
    requires Collapsed(s)
    ensures Collapse(s) == s
    decreases |s|
  {
    if |s| > 0 {
      assert Collapsed(s[1..]) by {
        forall i | 0 <= i < |s[1..]| && IsJsSpace(s[1..][i])
          ensures s[1..][i] == ' ' && (i + 1 < |s[1..]| ==> !IsJsSpace(s[1..][i + 1]))
        {
          assert s[1..][i] == s[i + 1];
        }
      }
      CollapseIdentity(s[1..]);
      if IsJsSpace(s[0]) {
        assert |s| == 1 || !IsJsSpace(s[1]);
        assert SkipSpaces(s, 1) == 1;
        assert TrimStart(s) == s[1..];
      }
    }
  }

  lemma CollapseIdempotent(s: string)
    ensures Collapse(Collapse(s)) == Collapse(s)
  {
    CollapseIdentity(Collapse(s));
  }

  // ---------------------------------------------------------------------
  // The description shown in the "story" section

  /** `cleanDescription(description)`: the placeholder for a falsy value,
      otherwise markup removed, whitespace collapsed and the ends trimmed.
      A truthy value that is not a string has no `replace` and throws. */
  function CleanDescription(description: Value): (text: string)
    requires !Truthy(description) || description.Str?
    ensures !Truthy(description) ==> text == Placeholder
  {
    if !Truthy(description) then Placeholder
    else Trim(Collapse(StripTags(description.s)))
  }

  /** A slice of collapsed text is collapsed. */
  lemma CollapsedSlice(s: string, i: nat, j: nat)
    requires Collapsed(s) && i <= j <= |s|
    ensures Collapsed(s[i..j])
  {
    forall k | 0 <= k < j - i && IsJsSpace(s[i..j][k])
      ensures s[i..j][k] == ' ' && (k + 1 < j - i ==> !IsJsSpace(s[i..j][k + 1]))
    {
      assert s[i..j][k] == s[i + k];
    }
  }

  /** A cleaned description starts and ends with a non-whitespace character
      (or is empty), every whitespace in it is a single plain space, and it
      is never longer than the original text. */
  lemma CleanDescriptionShape(d: string)
    requires d != ""
    ensures var text := CleanDescription(Str(d));
      && (text == [] || (!IsJsSpace(text[0]) && !IsJsSpace(text[|text| - 1])))
      && Collapsed(text)
      && |text| <= |d|
  {
    var c := Collapse(StripTags(d));
    assert CleanDescription(Str(d)) == Trim(c);
    TrimSpec(c);
    var i: nat, j: nat :| i <= j <= |c| && Trim(c) == c[i..j] && SpaceFramed(c, i, j);
    CollapsedSlice(c, i, j);
  }

  /** A description made only of markup cleans to the empty text, not to
      the placeholder. */
  lemma MarkupOnlyDescription()
    ensures CleanDescription(Str("<br>")) == ""
  {
    assert GtIndex("br>") == 2;
    assert IsTagStart("<br>");
    assert StripTags("<br>") == " " + StripTags("");
    assert Collapse(" ") == " " + Collapse("");
    assert TrimStart(" ") == "";
  }

  // ---------------------------------------------------------------------
  // Images

  /** The images, or the main image alone, or nothing. */
  function DisplayedImages(p: PropertyMapper.Property): (images: seq<Value>)
    ensures |p.images| > 0 ==> images == p.images
    ensures |p.images| == 0 ==> images == (if Truthy(p.mainImage) then [p.mainImage] else [])
  {
    if |p.images| > 0 then p.images
    else if Truthy(p.mainImage) then [p.mainImage]
    else []
  }

  /** For a mapped record the fallback never applies: the page shows the
      mapper's images exactly. */
  lemma DisplayedImagesOfMapped(raw: Value, descripciones: Value)
    requires !IsNullish(raw)
    ensures DisplayedImages(PropertyMapper.MapInmovillaToProperty(raw, descripciones, 1))
         == PropertyMapper.MapInmovillaToProperty(raw, descripciones, 1).images
  {
  }

  /** `images.slice(0, 5)`: the side strip of thumbnails. */
  function Thumbnails(images: seq<Value>): (thumbs: seq<Value>)
    ensures |thumbs| == if |images| < 5 then |images| else 5
    ensures thumbs <= images
  {
    if |images| < 5 then images else images[..5]
  }

  // ---------------------------------------------------------------------
  // Loading

  /** The record fetched for an id: `data?.ficha?.[1] ?? null`, kept only
      when truthy, mapped with language 1. `None` for the response is a
      failed request. */
  function LoadDetails(response: Option<Value>): (p: Option<PropertyMapper.Property>)
    ensures response.None? ==> p.None?
    ensures response.Some? ==>
      (p.Some? <==> Truthy(Get(Get(response.value, "ficha"), "1")))
    ensures p.Some? ==>
      p.value == PropertyMapper.MapInmovillaToProperty(
        Get(Get(response.value, "ficha"), "1"), Get(response.value, "descripciones"), 1)
  {
    match response
    case None => None
    case Some(data) =>
      var raw := Get(Get(data, "ficha"), "1");
      if !Truthy(raw) then None
      else Some(PropertyMapper.MapInmovillaToProperty(raw, Get(data, "descripciones"), 1))
  }

  /** The record at index 1 of a `ficha` array is the one loaded. */
  lemma LoadsSecondFichaEntry(entries: seq<Value>, descripciones: Value)
    requires |entries| > 1 && Truthy(entries[1])
    ensures LoadDetails(Some(Obj([("ficha", Arr(entries)), ("descripciones", descripciones)])))
         == Some(PropertyMapper.MapInmovillaToProperty(entries[1], descripciones, 1))
  {
    var fields := [("ficha", Arr(entries)), ("descripciones", descripciones)];
    var data := Obj(fields);
    assert fields[..1] == [("ficha", Arr(entries))];
    assert |"descripciones"| != |"ficha"|;
    assert Lookup(fields[..1], "ficha") == Arr(entries);
    assert Lookup(fields, "ficha") == Lookup(fields[..1], "ficha");
    assert Get(data, "ficha") == Arr(entries);
    assert Get(data, "descripciones") == descripciones;
    GetArrayIndex(entries, 1);
    assert NatToString(1) == "1";
    assert Get(Arr(entries), "1") == entries[1];
  }

  // ---------------------------------------------------------------------
  // Page state

  class DetailsPage {
    var loading: bool
    var property: Option<PropertyMapper.Property>
    var currentImg: int

    /** A fresh page: loading, nothing yet, first image. */
    constructor ()
      ensures loading && property.None? && currentImg == 0
    {
      loading := true;
      property := None;
      currentImg := 0;
    }

    /** The image in the large view, if the index is inside the list. */
    function ShownImage(): (img: Option<Value>)
      reads this
      ensures img.Some? ==> property.Some? && img.value in DisplayedImages(property.value)
    {
      if property.Some? && 0 <= currentImg < |DisplayedImages(property.value)|
      then Some(DisplayedImages(property.value)[currentImg])
      else None
    }

    /** The load effect for id `id` with the request's outcome. An empty id
        starts nothing. The image index is not reset. */
    method Load(id: string, response: Option<Value>)
      modifies this
      ensures id == "" ==> loading == old(loading) && property == old(property)
      ensures id != "" ==> !loading && property == LoadDetails(response)
      ensures currentImg == old(currentImg)
    {
      if id != "" {
        loading := true;
        property := LoadDetails(response);
        loading := false;
      }
    }

    /** A thumbnail or gallery click on image i. */
    method SelectImage(i: int)
      requires property.Some? && 0 <= i < |DisplayedImages(property.value)|
      modifies this
      ensures currentImg == i && property == old(property) && loading == old(loading)
      ensures ShownImage() == Some(DisplayedImages(property.value)[i])
    {
      currentImg := i;
    }
  }
}
