/**
 * Plate reading: joining the fragments the text recogniser reports for one
 * vehicle crop, and turning the joined text into the canonical plate string
 * that every later comparison (blacklist lookup, persistence) uses.
 */
module Plate {

  /** The characters Python's `str.isspace` accepts, i.e. those a bare `strip()` removes. */
  predicate IsWhitespace(c: char) {
    || c == ' '
    || ('\t' <= c <= '\r')
    || ('\U{1c}' <= c <= '\U{1f}')
    || c == '\U{85}' || c == '\U{a0}' || c == '\U{1680}'
    || ('\U{2000}' <= c <= '\U{200a}')
    || c == '\U{2028}' || c == '\U{2029}' || c == '\U{202f}' || c == '\U{205f}' || c == '\U{3000}'
  }

  /** No whitespace at either end: what `strip()` leaves behind. */
  predicate Trimmed(s: string) {
    s == [] || (!IsWhitespace(s[0]) && !IsWhitespace(s[|s| - 1]))
  }

  /** The only whitespace `s` holds, if any, is the plain space. */
  predicate SpacesOnly(s: string) {
    forall i :: 0 <= i < |s| && IsWhitespace(s[i]) ==> s[i] == ' '
  }

  /** `lstrip()`: drops the longest all-whitespace prefix. */
  function TrimStart(s: string): string {
    if |s| > 0 && IsWhitespace(s[0]) then TrimStart(s[1..]) else s
  }

  /** `rstrip()`: drops the longest all-whitespace suffix. */
  function TrimEnd(s: string): string {
    if |s| > 0 && IsWhitespace(s[|s| - 1]) then TrimEnd(s[..|s| - 1]) else s
  }

  /** `strip()`: both of the above. */
  function Strip(s: string): string {
    TrimEnd(TrimStart(s))
  }

  /** `replace(" ", "")`: deletes every plain space, keeping the other characters in order. */
  function RemoveSpaces(s: string): string {
    if s == [] then [] else (if s[0] == ' ' then [] else [s[0]]) + RemoveSpaces(s[1..])
  }

  /** The canonical plate: `strip()` followed by `replace(" ", "")`. */
  function Canonical(s: string): string {
    RemoveSpaces(Strip(s))
  }

  /** Python's `' '.join(fragments)` on a non-empty list of fragments. */
  function Join(fragments: seq<string>): string
    requires |fragments| > 0
  {
    if |fragments| == 1 then fragments[0] else fragments[0] + " " + Join(fragments[1..])
  }

  /** Sum of the fragment lengths. */
  function TotalLength(fragments: seq<string>): nat {
    if fragments == [] then 0 else |fragments[0]| + TotalLength(fragments[1..])
  }

  /**
   * `perform_ocr`: the recognised fragments joined with single spaces in
   * the order reported, or the empty string when nothing was recognised.
   */
  function PerformOcr(fragments: seq<string>): string {
    if fragments == [] then [] else Join(fragments)
  }

  /** The plate text a detection contributes: OCR output made canonical. */
  function ReadPlate(fragments: seq<string>): string {
    Canonical(PerformOcr(fragments))
  }

  /** The fragments with their spaces deleted, concatenated in order. */
  function Squash(fragments: seq<string>): string {
    if fragments == [] then [] else RemoveSpaces(fragments[0]) + Squash(fragments[1..])
  }

  // ---------------------------------------------------------------------
  // Lemmas
  // ---------------------------------------------------------------------

  /** `lstrip()` returns a suffix, and what it dropped is all whitespace. */
  lemma {:induction false} TrimStartSpec(s: string)
    ensures |TrimStart(s)| <= |s| && TrimStart(s) == s[|s| - |TrimStart(s)|..]
    ensures forall i :: 0 <= i < |s| - |TrimStart(s)| ==> IsWhitespace(s[i])
    ensures TrimStart(s) == [] || !IsWhitespace(TrimStart(s)[0])
  {
    if |s| > 0 && IsWhitespace(s[0]) {
      TrimStartSpec(s[1..]);
    }
  }

  /** `rstrip()` returns a prefix, and what it dropped is all whitespace. */
  lemma {:induction false} TrimEndSpec(s: string)
    ensures |TrimEnd(s)| <= |s| && TrimEnd(s) == s[..|TrimEnd(s)|]
    ensures forall i :: |TrimEnd(s)| <= i < |s| ==> IsWhitespace(s[i])
    ensures TrimEnd(s) == [] || !IsWhitespace(TrimEnd(s)[|TrimEnd(s)| - 1])
  {
    if |s| > 0 && IsWhitespace(s[|s| - 1]) {
      TrimEndSpec(s[..|s| - 1]);
    }
  }

  /** Deleting spaces leaves no space behind and never lengthens the text. */
  lemma {:induction false} RemoveSpacesSpec(s: string)
    ensures ' ' !in RemoveSpaces(s)
    ensures |RemoveSpaces(s)| <= |s|
  {
    if s != [] {
      RemoveSpacesSpec(s[1..]);
    }
  }

  /** The canonical plate never holds a space. */
  lemma ReadPlateSpaceFree(fragments: seq<string>)
    ensures ' ' !in ReadPlate(fragments)
  {
    RemoveSpacesSpec(Strip(PerformOcr(fragments)));
  }

  /** The joined text is as long as the fragments plus one separator between each pair. */
  lemma {:induction false} JoinLength(fragments: seq<string>)
    requires |fragments| > 0
    ensures |Join(fragments)| == TotalLength(fragments) + |fragments| - 1
  {
    if |fragments| > 1 {
      JoinLength(fragments[1..]);
    }
  }

  /**
   * `perform_ocr` gives the empty string exactly when nothing was recognised
   * or the single recognised fragment is empty; otherwise its length is the
   * fragments' total plus one separator between each pair.
   */
  lemma PerformOcrSpec(fragments: seq<string>)
    ensures PerformOcr(fragments) == [] <==> fragments == [] || (|fragments| == 1 && fragments[0] == [])
    ensures |fragments| > 0 ==> |PerformOcr(fragments)| == TotalLength(fragments) + |fragments| - 1
  {
    if |fragments| > 0 {
      JoinLength(fragments);
      if |fragments| > 1 {
        JoinLength(fragments[1..]);
      }
    }
  }

  /** Deleting spaces distributes over concatenation. */
  lemma {:induction false} RemoveSpacesAppend(a: string, b: string)
    ensures RemoveSpaces(a + b) == RemoveSpaces(a) + RemoveSpaces(b)
  {
    if a == [] {
      assert a + b == b;
    } else {
      assert (a + b)[1..] == a[1..] + b;
      RemoveSpacesAppend(a[1..], b);
    }
  }

  /** Deleting spaces from text that has none changes nothing. */
  lemma {:induction false} RemoveSpacesOfSpaceFree(s: string)
    requires ' ' !in s
    ensures RemoveSpaces(s) == s
  {
    if s != [] {
      assert ' ' !in s[1..];
      RemoveSpacesOfSpaceFree(s[1..]);
    }
  }

  /** Deleting spaces from an all-space string leaves nothing. */
  lemma {:induction false} RemoveSpacesOfBlank(s: string)
    requires forall i :: 0 <= i < |s| ==> s[i] == ' '
    ensures RemoveSpaces(s) == []
  {
    if s != [] {
      RemoveSpacesOfBlank(s[1..]);
    }
  }

  /** A string that neither starts nor ends with a space keeps its first and last characters. */
  lemma RemoveSpacesKeepsEnds(t: string)
    requires t != [] && t[0] != ' ' && t[|t| - 1] != ' '
    ensures RemoveSpaces(t) != []
    ensures RemoveSpaces(t)[0] == t[0]
    ensures RemoveSpaces(t)[|RemoveSpaces(t)| - 1] == t[|t| - 1]
  {
    var n := |t|;
    assert t == t[..n - 1] + [t[n - 1]];
    RemoveSpacesAppend(t[..n - 1], [t[n - 1]]);
    assert RemoveSpaces([t[n - 1]]) == [t[n - 1]];
  }

  /** `strip()` leaves no whitespace at either end, and leaves nothing exactly when all of `s` is whitespace. */
  lemma StripTrimmed(s: string)
    ensures Trimmed(Strip(s))
    ensures Strip(s) == [] <==> forall i :: 0 <= i < |s| ==> IsWhitespace(s[i])
  {
    var t := TrimStart(s);
    var r := TrimEnd(t);
    TrimStartSpec(s);
    TrimEndSpec(t);
    assert r != [] ==> r[0] == t[0];
    assert r == [] ==> t == [];
  }

  /** The canonical plate has no whitespace at either end. */
  lemma CanonicalTrimmed(s: string)
    ensures Trimmed(Canonical(s))
  {
    var t := Strip(s);
    StripTrimmed(s);
    if t != [] {
      RemoveSpacesKeepsEnds(t);
    }
  }

  /** Canonicalising an already canonical plate is a no-op. */
  lemma CanonicalIdempotent(s: string)
    ensures Canonical(Canonical(s)) == Canonical(s)
  {
    var c := Canonical(s);
    CanonicalTrimmed(s);
    RemoveSpacesSpec(Strip(s));
    assert TrimStart(c) == c;
    assert TrimEnd(c) == c;
    RemoveSpacesOfSpaceFree(c);
  }

  /** A string that is already canonical is its own canonical form. */
  lemma CanonicalFixesCanonical(s: string)
    requires ' ' !in s && Trimmed(s)
    ensures Canonical(s) == s
  {
    assert TrimStart(s) == s;
    assert TrimEnd(s) == s;
    RemoveSpacesOfSpaceFree(s);
  }

  /** `strip()` keeps the slice `s[a..b]` and only whitespace lies outside it. */
  lemma StripSlice(s: string) returns (a: nat, b: nat)
    ensures a <= b <= |s| && Strip(s) == s[a..b]
    ensures forall i :: 0 <= i < a ==> IsWhitespace(s[i])
    ensures forall i :: b <= i < |s| ==> IsWhitespace(s[i])
  {
    var t := TrimStart(s);
    var r := TrimEnd(t);
    TrimStartSpec(s);
    TrimEndSpec(t);
    a := |s| - |t|;
    b := a + |r|;
    forall i | b <= i < |s| ensures IsWhitespace(s[i]) {
      assert s[i] == t[i - a];
    }
  }

  /** When the only whitespace is spaces, stripping first makes no difference to the canonical form. */
  lemma CanonicalOfSpacesOnly(s: string)
    requires SpacesOnly(s)
    ensures Canonical(s) == RemoveSpaces(s)
  {
    var a, b := StripSlice(s);
    var pre, r, post := s[..a], s[a..b], s[b..];
    assert s == pre + r + post;
    forall i | 0 <= i < |pre| ensures pre[i] == ' ' {
      assert IsWhitespace(s[i]);
    }
    forall i | 0 <= i < |post| ensures post[i] == ' ' {
      assert IsWhitespace(s[b + i]);
    }
    RemoveSpacesOfBlank(pre);
    RemoveSpacesOfBlank(post);
    RemoveSpacesAppend(pre, r);
    RemoveSpacesAppend(pre + r, post);
  }

  /** Joining with spaces and then deleting the spaces concatenates the space-free fragments. */
  lemma {:induction false} RemoveSpacesOfJoin(fragments: seq<string>)
    requires |fragments| > 0
    ensures RemoveSpaces(Join(fragments)) == Squash(fragments)
  {
    if |fragments| == 1 {
      assert Squash(fragments[1..]) == [];
    } else {
      RemoveSpacesOfJoin(fragments[1..]);
      RemoveSpacesAppend(fragments[0] + " ", Join(fragments[1..]));
      RemoveSpacesAppend(fragments[0], " ");
    }
  }

  /** Joining fragments whose only whitespace is the space introduces no other whitespace. */
  lemma {:induction false} JoinSpacesOnly(fragments: seq<string>)
    requires |fragments| > 0
    requires forall k :: 0 <= k < |fragments| ==> SpacesOnly(fragments[k])
    ensures SpacesOnly(Join(fragments))
  {
    if |fragments| > 1 {
      JoinSpacesOnly(fragments[1..]);
      var rest := Join(fragments[1..]);
      var f := fragments[0];
      assert SpacesOnly(f);
      forall i | 0 <= i < |f + " " + rest| && IsWhitespace((f + " " + rest)[i])
        ensures (f + " " + rest)[i] == ' '
      {
        if i > |f| { assert (f + " " + rest)[i] == rest[i - |f| - 1]; }
      }
    }
  }

  /**
   * When the recogniser reports fragments whose only whitespace is spaces,
   * the plate is those fragments concatenated in the reported order with
   * their spaces deleted; no fragments give the empty plate.
   */
  lemma ReadPlateIsSquash(fragments: seq<string>)
    requires forall k :: 0 <= k < |fragments| ==> SpacesOnly(fragments[k])
    ensures ReadPlate(fragments) == Squash(fragments)
  {
    if fragments != [] {
      JoinSpacesOnly(fragments);
      CanonicalOfSpacesOnly(Join(fragments));
      RemoveSpacesOfJoin(fragments);
    }
  }
}
