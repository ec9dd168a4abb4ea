/**
 * The admin edit-product form: how it reads the stored gallery and
 * attributes into form state, the effect that regenerates the slug from the
 * name, and the gallery-list handlers.
 */
module EditProduct {
  import opened Common
  import opened Text
  import Slug
  import Gallery

  /** What `product.gallery_images` may hold when the form opens. */
  datatype RawGallery =
    | Missing                      // undefined or null
    | GalleryText(text: string)    // a string, possibly JSON
    | GalleryArray(items: seq<string>)
    | OtherValue(truthy: bool)     // a number, boolean or object

  /** The outcome of `JSON.parse`, which is not modelled beyond this. */
  datatype Parsed = ParsedArray(items: seq<string>) | ParsedOther | ParseError

  /** `images.split(',').map(img => img.trim()).filter(Boolean)`. */
  function CommaList(text: string): (r: seq<string>)
    ensures forall i :: 0 <= i < |r| ==> r[i] != "" && ',' !in r[i] && Trim(r[i]) == r[i]
  {
    DropEmpty(TrimAll(Split(text, ',')))
  }

  function TrimAll(xs: seq<string>): (r: seq<string>)
    ensures |r| == |xs|
    ensures forall i :: 0 <= i < |xs| ==> r[i] == Trim(xs[i]) && Trim(r[i]) == r[i]
    ensures forall i :: 0 <= i < |xs| && ',' !in xs[i] ==> ',' !in r[i]
  {
    var r := seq(|xs|, i requires 0 <= i < |xs| => Trim(xs[i]));
    forall i | 0 <= i < |xs| ensures Trim(r[i]) == r[i] && (',' !in xs[i] ==> ',' !in r[i]) {
      TrimTwice(xs[i]);
      TrimInside(xs[i]);
    }
    r
  }

  lemma TrimInside(s: string)
    ensures forall c :: c in Trim(s) ==> c in s
  {
    var t := TrimStart(s);
    assert forall c :: c in t ==> c in s;
  }

  lemma TrimTwice(s: string)
    ensures Trim(Trim(s)) == Trim(s)
  {
  }

  function DropEmpty(xs: seq<string>): (r: seq<string>)
    ensures forall i :: 0 <= i < |r| ==> r[i] != "" && r[i] in xs
  {
    if xs == [] then [] else (if xs[0] == "" then [] else [xs[0]]) + DropEmpty(xs[1..])
  }

  lemma {:induction false} DropEmptyFixed(xs: seq<string>)
    requires forall i :: 0 <= i < |xs| ==> xs[i] != ""
    ensures DropEmpty(xs) == xs
  {
    if xs != [] { DropEmptyFixed(xs[1..]); }
  }

  /** parseGalleryImages: falsy input, a non-array JSON value and any other
      non-string non-array value give one empty input; arrays are used as
      they are; a string that is not JSON is read as a comma-separated list
      of trimmed, non-empty entries. */
  function ParseGalleryImages(images: RawGallery, parse: string -> Parsed): (r: seq<string>)
    ensures images == Missing || images == GalleryText("") ==> r == [""]
    ensures images.GalleryArray? ==> r == images.items
    ensures images.OtherValue? ==> r == [""]
    ensures images.GalleryText? && images.text != "" ==>
      match parse(images.text)
      case ParsedArray(xs) => r == xs
      case ParsedOther => r == [""]
      case ParseError => r == CommaList(images.text)
  {
    match images
    case Missing => [""]
    case OtherValue(_) => [""]
    case GalleryArray(xs) => xs
    case GalleryText(text) =>
      if text == "" then [""]
      else match parse(text)
        case ParsedArray(xs) => xs
        case ParsedOther => [""]
        case ParseError => CommaList(text)
  }

  /** A gallery saved as comma-separated text (entries trimmed, non-empty,
      comma-free) that is not valid JSON is read back as the same list. */
  lemma {:induction false} CommaListRoundTrip(xs: seq<string>)
    requires |xs| >= 1
    requires forall i :: 0 <= i < |xs| ==> xs[i] != "" && ',' !in xs[i] && Trim(xs[i]) == xs[i]
    ensures CommaList(Join(xs, ",")) == xs
  {
    SplitJoin(xs, ',');
    assert TrimAll(xs) == xs;
    DropEmptyFixed(xs);
  }

  /** An attribute as it reaches the form: rows from the service carry
      `attribute_name`/`attribute_value`, form-shaped entries `name`/`value`. */
  datatype RawAttribute = RawAttribute(
    attributeName: Option<string>,
    name: Option<string>,
    attributeValue: Option<string>,
    value: Option<string>,
    sortOrder: Option<int>)

  datatype RawAttributes = NotAnArray | AttributeArray(items: seq<RawAttribute>)

  datatype FormAttribute = FormAttribute(name: string, value: string, sortOrder: int)

  /** `a || b || ''` on optional strings. */
  function FirstNonEmpty(a: Option<string>, b: Option<string>): (r: string)
    ensures r == "" <==> (a.None? || a.value == "") && (b.None? || b.value == "")
    ensures r != "" ==> Some(r) == a || Some(r) == b
  {
    if a.Some? && a.value != "" then a.value
    else if b.Some? && b.value != "" then b.value
    else ""
  }

  function ParseAttribute(a: RawAttribute): FormAttribute
  {
    FormAttribute(
      FirstNonEmpty(a.attributeName, a.name),
      FirstNonEmpty(a.attributeValue, a.value),
      if a.sortOrder.Some? then a.sortOrder.value else 0)
  }

  /** parseAttributes: a non-array gives no attributes; an array gives one
      form attribute per entry, in order. */
  function ParseAttributes(attrs: RawAttributes): (r: seq<FormAttribute>)
    ensures attrs.NotAnArray? ==> r == []
    ensures attrs.AttributeArray? ==> |r| == |attrs.items|
    ensures attrs.AttributeArray? ==> forall i :: 0 <= i < |r| ==>
      && r[i].name == FirstNonEmpty(attrs.items[i].attributeName, attrs.items[i].name)
      && r[i].value == FirstNonEmpty(attrs.items[i].attributeValue, attrs.items[i].value)
      && (attrs.items[i].sortOrder.None? ==> r[i].sortOrder == 0)
  {
    match attrs
    case NotAnArray => []
    case AttributeArray(items) => seq(|items|, i requires 0 <= i < |items| => ParseAttribute(items[i]))
  }

  /** A stored attribute row as the product service returns it. */
  function StoredRow(f: FormAttribute): RawAttribute
  {
    RawAttribute(Some(f.name), None, Some(f.value), None, Some(f.sortOrder))
  }

  /** Attributes with non-empty names and values survive a trip through
      storage and back into the form unchanged. */
  lemma ParseStoredAttributes(xs: seq<FormAttribute>)
    requires forall i :: 0 <= i < |xs| ==> xs[i].name != "" && xs[i].value != ""
    ensures ParseAttributes(AttributeArray(seq(|xs|, i requires 0 <= i < |xs| => StoredRow(xs[i])))) == xs
  {
  }

  /** The edit form's state: the name and slug fields, the gallery inputs
      (`galleryImages`) and the form's own `gallery_images` value. */
  class EditProductForm {
    var name: string
    var slug: string
    var galleryImages: seq<string>
    var galleryValue: seq<string>
    var attributes: seq<FormAttribute>

    /** Opening the form loads the product; the slug effect then runs once
        for the loaded name, as SyncSlug does. */
    constructor (productName: string, productSlug: string, gallery: RawGallery, attrs: RawAttributes, parse: string -> Parsed)
      ensures name == productName
      ensures slug == if productName != "" then Slug.EditSlug(productName) else productSlug
      ensures galleryImages == ParseGalleryImages(gallery, parse) && galleryValue == galleryImages
      ensures attributes == ParseAttributes(attrs)
    {
      var images := ParseGalleryImages(gallery, parse);
      name := productName;
      slug := if productName != "" then Slug.EditSlug(productName) else productSlug;
      galleryImages := images;
      galleryValue := images;
      attributes := ParseAttributes(attrs);
    }

    /** The effect on `name`: a non-empty name overwrites the slug. */
    method SyncSlug()
      modifies this`slug
      ensures slug == if name != "" then Slug.EditSlug(name) else old(slug)
    {
      if name != "" {
        slug := Slug.EditSlug(name);
      }
    }

    /** Typing in the name field, followed by the slug effect. */
    method ChangeName(value: string)
      modifies this`name, this`slug
      ensures name == value
      ensures slug == if value != "" then Slug.EditSlug(value) else old(slug)
    {
      name := value;
      SyncSlug();
    }

    method AddGalleryImage()
      modifies this`galleryImages
      ensures galleryImages == old(galleryImages) + [""]
    {
      galleryImages := galleryImages + [""];
    }

    /** Removing an input does not refresh the form's `gallery_images` value. */
    method RemoveGalleryImage(index: int)
      modifies this`galleryImages
      ensures galleryImages == Gallery.RemoveAt(old(galleryImages), index)
    {
      galleryImages := Gallery.RemoveAt(galleryImages, index);
    }

    method UpdateGalleryImage(index: int, value: string)
      requires 0 <= index < |galleryImages|
      modifies this`galleryImages, this`galleryValue
      ensures |galleryImages| == |old(galleryImages)| && galleryImages[index] == value
      ensures forall j :: 0 <= j < |galleryImages| && j != index ==> galleryImages[j] == old(galleryImages)[j]
      ensures galleryValue == Gallery.NonBlank(galleryImages)
    {
      var newImages := galleryImages;
      newImages := newImages[index := value];
      galleryImages := newImages;
      galleryValue := Gallery.NonBlank(newImages);
    }

    /** The gallery sent on submit: the non-blank inputs, in order. */
    function SubmittedGallery(): (r: seq<string>)
      reads this
      ensures forall i :: 0 <= i < |r| ==> !Gallery.Blank(r[i])
      ensures forall x :: x in r <==> x in galleryImages && !Gallery.Blank(x)
    {
      Gallery.NonBlankMembers(galleryImages);
      Gallery.NonBlank(galleryImages)
    }
  }
}
