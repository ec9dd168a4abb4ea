/**
 * The gallery-image list both admin product forms keep as component state:
 * one text input per entry, blank entries allowed while editing, and blank
 * entries filtered out (`img.trim() !== ''`) whenever the list is handed to
 * the form or submitted.
 */
module Gallery {
  import opened Text

  /** `img.trim() === ''`, stated as "only whitespace" (the two agree by
      Text.TrimEmptyIffBlank). */
  predicate Blank(img: string)
  {
    forall i :: 0 <= i < |img| ==> IsSpace(img[i])
  }

  lemma BlankIsEmptyTrim(img: string)
    ensures Blank(img) <==> Trim(img) == ""
  {
    TrimEmptyIffBlank(img);
  }

  /** `images.filter(img => img.trim() !== '')`. */
  function NonBlank(images: seq<string>): (r: seq<string>)
    ensures |r| <= |images|
    ensures forall i :: 0 <= i < |r| ==> !Blank(r[i])
  {
    if images == [] then []
    else
      (if Blank(images[0]) then [] else [images[0]]) + NonBlank(images[1..])
  }

  /** The kept entries are exactly the non-blank ones. */
  lemma {:induction false} NonBlankMembers(images: seq<string>)
    ensures forall x :: x in NonBlank(images) <==> x in images && !Blank(x)
  {
    if images != [] {
      NonBlankMembers(images[1..]);
      assert images == [images[0]] + images[1..];
    }
  }

  /** Filtering distributes over concatenation, so the kept entries stay in their order. */
  lemma {:induction false} NonBlankAppend(a: seq<string>, b: seq<string>)
    ensures NonBlank(a + b) == NonBlank(a) + NonBlank(b)
  {
    if a == [] {
      assert a + b == b;
    } else {
      assert (a + b)[1..] == a[1..] + b;
      NonBlankAppend(a[1..], b);
    }
  }

  lemma {:induction false} NonBlankIdempotent(images: seq<string>)
    ensures NonBlank(NonBlank(images)) == NonBlank(images)
  {
    if images != [] {
      var head := if Blank(images[0]) then [] else [images[0]];
      NonBlankAppend(head, NonBlank(images[1..]));
      NonBlankIdempotent(images[1..]);
      assert NonBlank(head) == head by {
        if head != [] { assert head[1..] == []; }
      }
    }
  }

  /** `images.filter((_, i) => i !== index)`: an index outside the list removes nothing. */
  function RemoveAt(images: seq<string>, index: int): (r: seq<string>)
    ensures 0 <= index < |images| ==> |r| == |images| - 1
    ensures 0 <= index < |images| ==> forall j :: 0 <= j < index ==> r[j] == images[j]
    ensures 0 <= index < |images| ==> forall j :: index <= j < |r| ==> r[j] == images[j + 1]
    ensures !(0 <= index < |images|) ==> r == images
  {
    if 0 <= index < |images| then images[..index] + images[index + 1..] else images
  }

  /** Adding an empty input leaves the submitted gallery as it was. */
  lemma AddKeepsSubmitted(images: seq<string>)
    ensures NonBlank(images + [""]) == NonBlank(images)
  {
    NonBlankAppend(images, [""]);
    assert Blank("");
    assert NonBlank([""]) == [] by { assert [""][1..] == []; }
  }

  /** Blanking an entry submits the same gallery as removing it. */
  lemma BlankingIsRemoving(images: seq<string>, index: int)
    requires 0 <= index < |images|
    ensures NonBlank(images[index := ""]) == NonBlank(RemoveAt(images, index))
  {
    var u := images[index := ""];
    assert u == images[..index] + [""] + images[index + 1..];
    NonBlankAppend(images[..index] + [""], images[index + 1..]);
    NonBlankAppend(images[..index], [""]);
    AddKeepsSubmitted(images[..index]);
    NonBlankAppend(images[..index], images[index + 1..]);
  }
}
