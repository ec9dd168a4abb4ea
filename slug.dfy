/**
 * The two slug generators of the admin forms. They differ:
 *  - the edit form lowercases, turns every run of characters outside
 *    `[a-z0-9]` into one `-`, and strips `-` from both ends;
 *  - the create form lowercases, deletes characters outside `[a-z0-9\s-]`,
 *    turns every whitespace run into `-`, squeezes `-` runs, and finally
 *    calls `trim('-')`, which ignores its argument and only trims
 *    whitespace, so hyphens at the ends survive.
 * Characters are ASCII; `\s` is its ASCII members.
 */
module Slug {
  import opened Text

  /** The character classes whose runs a global `replace(/[...]+/g, '-')` collapses. */
  datatype Run = NonAlnum | Space | Hyphen

  predicate InRun(c: char, k: Run)
  {
    match k
    case NonAlnum => !IsLowerAlnum(c)
    case Space => IsSpace(c)
    case Hyphen => c == '-'
  }

  predicate SlugChar(c: char) { IsLowerAlnum(c) || c == '-' }

  predicate NoDoubleHyphen(s: string)
  {
    forall i :: 0 <= i < |s| - 1 ==> !(s[i] == '-' && s[i + 1] == '-')
  }

  /** The length of the leading run of class `k`. */
  function RunLength(s: string, k: Run): (n: nat)
    ensures n <= |s|
    ensures forall i :: 0 <= i < n ==> InRun(s[i], k)
    ensures n < |s| ==> !InRun(s[n], k)
  {
    if s != [] && InRun(s[0], k) then
      var n := 1 + RunLength(s[1..], k);
      assert forall i :: 1 <= i < n ==> s[i] == s[1..][i - 1];
      n
    else 0
  }

  /** Drops the leading run of class `k`. */
  function DropRun(s: string, k: Run): (r: string)
    ensures |r| <= |s| && r == s[|s| - |r|..]
    ensures r == [] || !InRun(r[0], k)
    ensures s != [] && InRun(s[0], k) ==> |r| < |s|
    ensures forall i :: 0 <= i < |s| - |r| ==> InRun(s[i], k)
  {
    s[RunLength(s, k)..]
  }

  /** `s.replace(/[k]+/g, '-')`: every maximal run of class `k` becomes one `-`. */
  function Collapse(s: string, k: Run): string
    decreases |s|
  {
    if s == [] then []
    else if InRun(s[0], k) then "-" + Collapse(DropRun(s, k), k)
    else [s[0]] + Collapse(s[1..], k)
  }

  lemma {:induction false} CollapseShorter(s: string, k: Run)
    ensures |Collapse(s, k)| <= |s|
    decreases |s|
  {
    if s == [] {
    } else if InRun(s[0], k) {
      CollapseShorter(DropRun(s, k), k);
    } else {
      CollapseShorter(s[1..], k);
    }
  }

  /** Every output character is a `-` or a character of the input outside class `k`. */
  lemma {:induction false} CollapseChars(s: string, k: Run)
    ensures forall i :: 0 <= i < |Collapse(s, k)| ==>
      Collapse(s, k)[i] == '-' || (!InRun(Collapse(s, k)[i], k) && Collapse(s, k)[i] in s)
    decreases |s|
  {
    if s == [] {
    } else if InRun(s[0], k) {
      var t := DropRun(s, k);
      CollapseChars(t, k);
      assert forall c :: c in t ==> c in s;
    } else {
      CollapseChars(s[1..], k);
    }
  }

  /** When `-` belongs to the class, the output starts with `-` exactly when the input starts inside the class. */
  lemma {:induction false} CollapseHead(s: string, k: Run)
    requires InRun('-', k)
    ensures Collapse(s, k) != [] <==> s != []
    ensures s != [] ==> (Collapse(s, k)[0] == '-' <==> InRun(s[0], k))
  {
  }

  lemma {:induction false} CollapseNoDouble(s: string, k: Run)
    requires InRun('-', k)
    ensures NoDoubleHyphen(Collapse(s, k))
    decreases |s|
  {
    if s == [] {
    } else if InRun(s[0], k) {
      var t := DropRun(s, k);
      CollapseNoDouble(t, k);
      CollapseHead(t, k);
    } else {
      CollapseNoDouble(s[1..], k);
    }
  }

  /** A string whose class-`k` characters are lone hyphens is left as it is. */
  lemma {:induction false} CollapseFixed(s: string, k: Run)
    requires forall i :: 0 <= i < |s| && InRun(s[i], k) ==> s[i] == '-' && (i + 1 < |s| ==> !InRun(s[i + 1], k))
    ensures Collapse(s, k) == s
    decreases |s|
  {
    if s == [] {
    } else if InRun(s[0], k) {
      assert s[1..] == [] || (s[1..][0] == s[1] && !InRun(s[1], k));
      assert RunLength(s[1..], k) == 0;
      assert RunLength(s, k) == 1;
      assert DropRun(s, k) == s[1..];
      CollapseFixed(s[1..], k);
    } else {
      CollapseFixed(s[1..], k);
    }
  }

  function DropHyphens(s: string): (r: string)
  {
    if s == [] then [] else (if s[0] == '-' then [] else [s[0]]) + DropHyphens(s[1..])
  }

  function AlnumOnly(s: string): (r: string)
  {
    if s == [] then [] else (if IsLowerAlnum(s[0]) then [s[0]] else []) + AlnumOnly(s[1..])
  }

  lemma {:induction false} AlnumOnlyDropsRun(s: string)
    ensures AlnumOnly(DropRun(s, NonAlnum)) == AlnumOnly(s)
    decreases |s|
  {
    if s != [] && !IsLowerAlnum(s[0]) {
      AlnumOnlyDropsRun(s[1..]);
    }
  }

  lemma {:induction false} CollapseKeepsAlnum(s: string)
    ensures DropHyphens(Collapse(s, NonAlnum)) == AlnumOnly(s)
    decreases |s|
  {
    if s == [] {
    } else if InRun(s[0], NonAlnum) {
      var t := DropRun(s, NonAlnum);
      CollapseKeepsAlnum(t);
      AlnumOnlyDropsRun(s);
      assert Collapse(s, NonAlnum) == "-" + Collapse(t, NonAlnum);
      assert DropHyphens("-" + Collapse(t, NonAlnum)) == DropHyphens(Collapse(t, NonAlnum)) by {
        assert ("-" + Collapse(t, NonAlnum))[1..] == Collapse(t, NonAlnum);
      }
    } else {
      CollapseKeepsAlnum(s[1..]);
      assert ([s[0]] + Collapse(s[1..], NonAlnum))[1..] == Collapse(s[1..], NonAlnum);
    }
  }

  // ---------------------------------------------------------------
  // Edit form: `.replace(/[^a-z0-9]+/g, '-').replace(/^-+|-+$/g, '')`
  // ---------------------------------------------------------------

  /** The number of hyphens `^-+` matches. */
  function LeadingHyphens(s: string): (n: nat)
    ensures n <= |s|
    ensures forall i :: 0 <= i < n ==> s[i] == '-'
    ensures n < |s| ==> s[n] != '-'
  {
    if s != [] && s[0] == '-' then
      var n := 1 + LeadingHyphens(s[1..]);
      assert forall i :: 1 <= i < n ==> s[i] == s[1..][i - 1];
      n
    else 0
  }

  /** The number of hyphens `-+$` matches. */
  function TrailingHyphens(s: string): (n: nat)
    ensures n <= |s|
    ensures forall i :: |s| - n <= i < |s| ==> s[i] == '-'
    ensures n < |s| ==> s[|s| - 1 - n] != '-'
  {
    if s != [] && s[|s| - 1] == '-' then
      var t := s[..|s| - 1];
      var n := 1 + TrailingHyphens(t);
      assert forall i :: |s| - n <= i < |s| - 1 ==> s[i] == t[i];
      n
    else 0
  }

  function StripLeadingHyphens(s: string): (r: string)
    ensures |r| <= |s| && r == s[|s| - |r|..]
    ensures r == [] || r[0] != '-'
    ensures forall i :: 0 <= i < |s| - |r| ==> s[i] == '-'
  {
    s[LeadingHyphens(s)..]
  }

  function StripTrailingHyphens(s: string): (r: string)
    ensures |r| <= |s| && r == s[..|r|]
    ensures r == [] || r[|r| - 1] != '-'
    ensures forall i :: |r| <= i < |s| ==> s[i] == '-'
  {
    s[..|s| - TrailingHyphens(s)]
  }

  /** generateSlug of the edit form: never starts or ends with a hyphen. */
  function EditSlug(name: string): (r: string)
    ensures r == [] || (r[0] != '-' && r[|r| - 1] != '-')
  {
    StripTrailingHyphens(StripLeadingHyphens(Collapse(Lower(name), NonAlnum)))
  }

  lemma DropHyphensAppend(a: string, b: string)
    ensures DropHyphens(a + b) == DropHyphens(a) + DropHyphens(b)
  {
    if a == [] {
      assert a + b == b;
    } else {
      assert (a + b)[1..] == a[1..] + b;
      DropHyphensAppend(a[1..], b);
    }
  }

  lemma {:induction false} LeadingHyphensKeep(s: string)
    ensures DropHyphens(s[LeadingHyphens(s)..]) == DropHyphens(s)
  {
    if s != [] && s[0] == '-' {
      LeadingHyphensKeep(s[1..]);
      assert s[1..][LeadingHyphens(s[1..])..] == s[LeadingHyphens(s)..];
    }
  }

  lemma {:induction false} TrailingHyphensKeep(s: string)
    ensures DropHyphens(s[..|s| - TrailingHyphens(s)]) == DropHyphens(s)
  {
    if s != [] && s[|s| - 1] == '-' {
      var t := s[..|s| - 1];
      TrailingHyphensKeep(t);
      assert t[..|t| - TrailingHyphens(t)] == s[..|s| - TrailingHyphens(s)];
      assert s == t + ['-'];
      DropHyphensAppend(t, ['-']);
      assert DropHyphens(['-']) == [] by { assert ['-'][1..] == []; }
    } else {
      assert s[..|s| - TrailingHyphens(s)] == s;
    }
  }

  lemma StripKeepsNonHyphens(s: string)
    ensures DropHyphens(StripTrailingHyphens(StripLeadingHyphens(s))) == DropHyphens(s)
  {
    LeadingHyphensKeep(s);
    TrailingHyphensKeep(StripLeadingHyphens(s));
  }

  /** The edit-form slug is built from `a`–`z`, `0`–`9` and `-` only, has no
      hyphen at either end and no two hyphens in a row. */
  lemma EditSlugShape(name: string)
    ensures forall i :: 0 <= i < |EditSlug(name)| ==> SlugChar(EditSlug(name)[i])
    ensures EditSlug(name) == [] || (EditSlug(name)[0] != '-' && EditSlug(name)[|EditSlug(name)| - 1] != '-')
    ensures NoDoubleHyphen(EditSlug(name))
  {
    var c := Collapse(Lower(name), NonAlnum);
    CollapseChars(Lower(name), NonAlnum);
    CollapseNoDouble(Lower(name), NonAlnum);
    assert forall i :: 0 <= i < |c| ==> SlugChar(c[i]);
    var a := StripLeadingHyphens(c);
    SliceShape(c, LeadingHyphens(c), |c|);
    var b := StripTrailingHyphens(a);
    SliceShape(a, 0, |a| - TrailingHyphens(a));
  }

  /** A slice of slug characters without double hyphens has the same shape. */
  lemma SliceShape(c: string, lo: int, hi: int)
    requires 0 <= lo <= hi <= |c|
    requires forall i :: 0 <= i < |c| ==> SlugChar(c[i])
    requires NoDoubleHyphen(c)
    ensures forall i :: 0 <= i < hi - lo ==> SlugChar(c[lo..hi][i])
    ensures NoDoubleHyphen(c[lo..hi])
  {
    assert forall i :: 0 <= i < hi - lo ==> c[lo..hi][i] == c[lo + i];
  }

  /** Removing the hyphens from the edit-form slug leaves exactly the
      letters and digits of the lowercased name, in order. */
  lemma EditSlugLettersAndDigits(name: string)
    ensures DropHyphens(EditSlug(name)) == AlnumOnly(Lower(name))
  {
    StripKeepsNonHyphens(Collapse(Lower(name), NonAlnum));
    CollapseKeepsAlnum(Lower(name));
  }

  /** Generating the edit-form slug of a slug changes nothing. */
  lemma EditSlugIdempotent(name: string)
    ensures EditSlug(EditSlug(name)) == EditSlug(name)
  {
    var s := EditSlug(name);
    EditSlugShape(name);
    LowerFixed(s);
    CollapseFixed(s, NonAlnum);
  }

  // ---------------------------------------------------------------
  // Create form: `.replace(/[^a-z0-9\s-]/g, '').replace(/\s+/g, '-')
  //              .replace(/-+/g, '-').trim('-')`
  // ---------------------------------------------------------------

  predicate Kept(c: char) { IsLowerAlnum(c) || IsSpace(c) || c == '-' }

  /** `replace(/[^a-z0-9\s-]/g, '')`. */
  function DeletePunctuation(s: string): (r: string)
    ensures |r| <= |s|
    ensures forall i :: 0 <= i < |r| ==> Kept(r[i])
  {
    if s == [] then [] else (if Kept(s[0]) then [s[0]] else []) + DeletePunctuation(s[1..])
  }

  lemma {:induction false} DeletePunctuationFixed(s: string)
    requires forall i :: 0 <= i < |s| ==> Kept(s[i])
    ensures DeletePunctuation(s) == s
  {
    if s != [] { DeletePunctuationFixed(s[1..]); }
  }

  /** generateSlug of the create form: never starts or ends with whitespace. */
  function CreateSlug(name: string): (r: string)
    ensures r == [] || (!IsSpace(r[0]) && !IsSpace(r[|r| - 1]))
  {
    var c := Collapse(Collapse(DeletePunctuation(Lower(name)), Space), Hyphen);
    TrimEdges(c);
    Trim(c)
  }

  /** The stage before the final `trim`, which is shown to change nothing. */
  function CreateSlugCore(name: string): string
  {
    Collapse(Collapse(DeletePunctuation(Lower(name)), Space), Hyphen)
  }

  lemma CreateSlugCoreShape(name: string)
    ensures forall i :: 0 <= i < |CreateSlugCore(name)| ==> SlugChar(CreateSlugCore(name)[i])
    ensures NoDoubleHyphen(CreateSlugCore(name))
    ensures |CreateSlugCore(name)| <= |name|
  {
    var d := DeletePunctuation(Lower(name));
    var sp := Collapse(d, Space);
    CollapseChars(d, Space);
    CollapseShorter(d, Space);
    assert forall i :: 0 <= i < |sp| ==> SlugChar(sp[i]);
    CollapseChars(sp, Hyphen);
    CollapseShorter(sp, Hyphen);
    CollapseNoDouble(sp, Hyphen);
  }

  /** The create-form slug is built from `a`–`z`, `0`–`9` and `-` only, has no
      two hyphens in a row, and is never longer than the name. */
  lemma CreateSlugShape(name: string)
    ensures forall i :: 0 <= i < |CreateSlug(name)| ==> SlugChar(CreateSlug(name)[i])
    ensures NoDoubleHyphen(CreateSlug(name))
    ensures |CreateSlug(name)| <= |name|
  {
    CreateSlugCoreShape(name);
    TrimFixed(CreateSlugCore(name));
  }

  /** Generating the create-form slug of a slug changes nothing. */
  lemma CreateSlugIdempotent(name: string)
    ensures CreateSlug(CreateSlug(name)) == CreateSlug(name)
  {
    var s := CreateSlug(name);
    CreateSlugShape(name);
    assert forall i :: 0 <= i < |s| ==> !IsUpper(s[i]) && Kept(s[i]) && !IsSpace(s[i]);
    LowerFixed(s);
    assert Lower(s) == s;
    DeletePunctuationFixed(s);
    assert DeletePunctuation(s) == s;
    CollapseFixed(s, Space);
    assert Collapse(s, Space) == s;
    CollapseFixed(s, Hyphen);
    assert Collapse(s, Hyphen) == s;
    TrimFixed(s);
    assert Trim(s) == s;
  }

  /** The final `trim('-')` keeps edge hyphens: a name with a leading space
      gives a create-form slug starting with `-`. */
  lemma CreateSlugKeepsEdgeHyphen()
    ensures CreateSlug(" TV") == "-tv"
  {
    LowerSpaceTV();
    assert DeletePunctuation("v") == "v" by { assert DeletePunctuation("v"[1..]) == []; }
    assert DeletePunctuation("tv") == "tv" by { assert "tv"[1..] == "v"; }
    assert DeletePunctuation(" tv") == " tv" by { assert " tv"[1..] == "tv"; }
    assert Collapse("tv", Space) == "tv" by {
      assert Collapse("v", Space) == "v" by { assert "v"[1..] == []; }
      assert "tv"[1..] == "v";
    }
    assert RunLength(" tv", Space) == 1 by { assert " tv"[1..] == "tv"; assert RunLength("tv", Space) == 0; }
    assert DropRun(" tv", Space) == "tv";
    assert Collapse(" tv", Space) == "-" + Collapse("tv", Space);
    assert "-" + "tv" == "-tv";
    assert Collapse("tv", Hyphen) == "tv" by {
      assert Collapse("v", Hyphen) == "v" by { assert "v"[1..] == []; }
      assert "tv"[1..] == "v";
    }
    assert RunLength("-tv", Hyphen) == 1 by { assert "-tv"[1..] == "tv"; assert RunLength("tv", Hyphen) == 0; }
    assert DropRun("-tv", Hyphen) == "tv";
    assert Collapse("-tv", Hyphen) == "-" + Collapse("tv", Hyphen);
    TrimFixed("-tv");
  }

  /** The edit form strips the same edge hyphen. */
  lemma EditSlugStripsEdgeHyphen()
    ensures EditSlug(" TV") == "tv"
  {
    LowerSpaceTV();
    assert Collapse("tv", NonAlnum) == "tv" by {
      assert Collapse("v", NonAlnum) == "v" by { assert "v"[1..] == []; }
      assert "tv"[1..] == "v";
    }
    assert RunLength(" tv", NonAlnum) == 1 by { assert " tv"[1..] == "tv"; assert RunLength("tv", NonAlnum) == 0; }
    assert DropRun(" tv", NonAlnum) == "tv";
    assert Collapse(" tv", NonAlnum) == "-" + Collapse("tv", NonAlnum);
    assert "-" + "tv" == "-tv";
    assert LeadingHyphens("-tv") == 1 by { assert "-tv"[1..] == "tv"; assert LeadingHyphens("tv") == 0; }
    assert TrailingHyphens("tv") == 0;
    assert StripLeadingHyphens("-tv") == "tv";
  }

  lemma LowerSpaceTV()
    ensures Lower(" TV") == " tv"
  {
    var low := Lower(" TV");
    assert LowerChar('T') == 't' && LowerChar('V') == 'v' && LowerChar(' ') == ' ';
    assert |low| == 3 && low[0] == ' ' && low[1] == 't' && low[2] == 'v';
  }

  /** The create form deletes punctuation: "a.b" gives "ab". */
  lemma PunctuationDeleted()
    ensures CreateSlug("a.b") == "ab"
  {
    LowerDotB();
    assert DeletePunctuation("b") == "b" by { assert DeletePunctuation("b"[1..]) == []; }
    assert DeletePunctuation(".b") == "b" by { assert ".b"[1..] == "b"; }
    assert DeletePunctuation("a.b") == "ab" by { assert "a.b"[1..] == ".b"; }
    assert Collapse("ab", Space) == "ab" by {
      assert Collapse("b", Space) == "b" by { assert "b"[1..] == []; }
      assert "ab"[1..] == "b";
    }
    assert Collapse("ab", Hyphen) == "ab" by {
      assert Collapse("b", Hyphen) == "b" by { assert "b"[1..] == []; }
      assert "ab"[1..] == "b";
    }
    TrimFixed("ab");
  }

  /** The edit form turns the same punctuation into a separator: "a.b" gives "a-b". */
  lemma PunctuationHyphenated()
    ensures EditSlug("a.b") == "a-b"
  {
    LowerDotB();
    assert Collapse("b", NonAlnum) == "b" by { assert "b"[1..] == []; }
    assert RunLength(".b", NonAlnum) == 1 by { assert ".b"[1..] == "b"; assert RunLength("b", NonAlnum) == 0; }
    assert DropRun(".b", NonAlnum) == "b";
    assert Collapse(".b", NonAlnum) == "-b";
    assert Collapse("a.b", NonAlnum) == "a-b" by { assert "a.b"[1..] == ".b"; }
    assert LeadingHyphens("a-b") == 0 && TrailingHyphens("a-b") == 0;
    assert StripLeadingHyphens("a-b") == "a-b";
    assert StripTrailingHyphens("a-b") == "a-b";
  }

  lemma LowerDotB()
    ensures Lower("a.b") == "a.b"
  {
    var low := Lower("a.b");
    assert |low| == 3 && low[0] == 'a' && low[1] == '.' && low[2] == 'b';
  }
}
