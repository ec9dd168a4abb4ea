/**
 * The admin create-product form: the name handler that fills an empty slug,
 * and the gallery-list handlers, which keep the form's `gallery_images`
 * value equal to the non-blank inputs.
 */
module CreateProduct {
  import Slug
  import Gallery

  class CreateProductForm {
    var name: string
    var slug: string
    var galleryImages: seq<string>
    var galleryValue: seq<string>

    /** A fresh form: empty name and slug, one empty gallery input. */
    constructor ()
      ensures name == "" && slug == ""
      ensures galleryImages == [""] && galleryValue == []
    {
      name, slug := "", "";
      galleryImages, galleryValue := [""], [];
    }

    /** handleNameChange: the name is always set; the slug is generated only
        while the slug field is empty, so a slug once present is kept. */
    method HandleNameChange(value: string)
      modifies this`name, this`slug
      ensures name == value
      ensures slug == if old(slug) == "" then Slug.CreateSlug(value) else old(slug)
    {
      name := value;
      if slug == "" {
        slug := Slug.CreateSlug(value);
      }
    }

    /** Adds an empty gallery input. */
    method AddGalleryImage()
      modifies this`galleryImages
      ensures galleryImages == old(galleryImages) + [""]
    {
      galleryImages := galleryImages + [""];
    }

    method RemoveGalleryImage(index: int)
      modifies this`galleryImages, this`galleryValue
      ensures galleryImages == Gallery.RemoveAt(old(galleryImages), index)
      ensures galleryValue == Gallery.NonBlank(galleryImages)
    {
      var newImages := Gallery.RemoveAt(galleryImages, index);
      galleryImages := newImages;
      galleryValue := Gallery.NonBlank(newImages);
    }

    method UpdateGalleryImage(index: int, value: string)
      requires 0 <= index < |galleryImages|
      modifies this`galleryImages, this`galleryValue
      ensures galleryImages == old(galleryImages)[index := value]
      ensures galleryValue == Gallery.NonBlank(galleryImages)
    {
      var newImages := galleryImages;
      newImages := newImages[index := value];
      galleryImages := newImages;
      galleryValue := Gallery.NonBlank(newImages);
    }

    /** The gallery sent on submit: the non-blank inputs, in order. */
    function SubmittedGallery(): (r: seq<string>)
      reads this
      ensures forall i :: 0 <= i < |r| ==> !Gallery.Blank(r[i])
      ensures forall x :: x in r <==> x in galleryImages && !Gallery.Blank(x)
    {
      Gallery.NonBlankMembers(galleryImages);
      Gallery.NonBlank(galleryImages)
    }
  }

  /** Once the slug is non-empty, further name changes never touch it. */
  method NameChangesKeepSlug(form: CreateProductForm, first: string, second: string)
    requires form.slug == "" && Slug.CreateSlug(first) != ""
    modifies form
    ensures form.name == second && form.slug == Slug.CreateSlug(first)
  {
    form.HandleNameChange(first);
    form.HandleNameChange(second);
  }
}
