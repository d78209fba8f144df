/**
 * internal/utils/normaliser.go: string normalisation helpers and two small
 * collection helpers. Trimming follows Go's strings.Trim/TrimSpace, with
 * the white-space set of unicode.IsSpace.
 */
module Normaliser {

  /** The characters unicode.IsSpace reports as white space. */
  const SpaceChars: set<char> := {
    '\t', '\n', '\U{000B}', '\U{000C}', '\r', ' ', '\U{0085}', '\U{00A0}',
    '\U{1680}', '\U{2000}', '\U{2001}', '\U{2002}', '\U{2003}', '\U{2004}',
    '\U{2005}', '\U{2006}', '\U{2007}', '\U{2008}', '\U{2009}', '\U{200A}',
    '\U{2028}', '\U{2029}', '\U{202F}', '\U{205F}', '\U{3000}'
  }

  /** Drops every leading character that is in `cut`. */
  function TrimLeft(s: string, cut: set<char>): (r: string)
    ensures |r| <= |s| && r == s[|s| - |r|..]
    ensures r == [] || r[0] !in cut
    decreases |s|
  {
    if |s| > 0 && s[0] in cut then TrimLeft(s[1..], cut) else s
  }

  /** Only characters of `cut` are dropped on the left. */
  lemma {:induction false} TrimLeftDropsCut(s: string, cut: set<char>)
    ensures forall i :: 0 <= i < |s| - |TrimLeft(s, cut)| ==> s[i] in cut
    decreases |s|
  {
    if |s| > 0 && s[0] in cut {
      TrimLeftDropsCut(s[1..], cut);
      forall i | 1 <= i < |s| - |TrimLeft(s, cut)| ensures s[i] in cut {
        assert s[i] == s[1..][i - 1];
      }
    }
  }

  /** Drops every trailing character that is in `cut`. */
  function TrimRight(s: string, cut: set<char>): (r: string)
    ensures |r| <= |s| && r == s[..|r|]
    ensures r == [] || r[|r| - 1] !in cut
    decreases |s|
  {
    if |s| > 0 && s[|s| - 1] in cut then TrimRight(s[..|s| - 1], cut) else s
  }

  /** Only characters of `cut` are dropped on the right. */
  lemma {:induction false} TrimRightDropsCut(s: string, cut: set<char>)
    ensures forall i :: |TrimRight(s, cut)| <= i < |s| ==> s[i] in cut
    decreases |s|
  {
    if |s| > 0 && s[|s| - 1] in cut {
      TrimRightDropsCut(s[..|s| - 1], cut);
      forall i | |TrimRight(s, cut)| <= i < |s| - 1 ensures s[i] in cut {
        assert s[i] == s[..|s| - 1][i];
      }
    }
  }

  /** `r` neither starts nor ends with a character of `cut`. */
  predicate Trimmed(r: string, cut: set<char>) {
    r == [] || (r[0] !in cut && r[|r| - 1] !in cut)
  }

  /** strings.Trim: the longest middle slice of `s` that neither starts nor
    * ends with a character of `cut`. */
  function Trim(s: string, cut: set<char>): (r: string)
    ensures Trimmed(r, cut)
  {
    TrimRight(TrimLeft(s, cut), cut)
  }

  /** What Trim drops is made only of `cut`: the result is the slice
    * s[i..j] with only `cut` before i and after j. */
  lemma TrimIsSlice(s: string, cut: set<char>)
    ensures exists i, j ::
      (0 <= i <= j <= |s| && Trim(s, cut) == s[i..j]
       && (forall k :: 0 <= k < i ==> s[k] in cut)
       && (forall k :: j <= k < |s| ==> s[k] in cut))
  {
    var i, j := TrimBounds(s, cut);
  }

  /** The bounds of the slice Trim keeps. */
  lemma TrimBounds(s: string, cut: set<char>) returns (i: int, j: int)
    ensures 0 <= i <= j <= |s| && Trim(s, cut) == s[i..j]
    ensures forall k :: 0 <= k < i ==> s[k] in cut
    ensures forall k :: j <= k < |s| ==> s[k] in cut
  {
    i, j := TrimSlice(s, cut);
    TrimLeftDropsCut(s, cut);
    TrimRightDropsCutOf(s, cut, i, j);
  }

  lemma TrimSlice(s: string, cut: set<char>) returns (i: int, j: int)
    ensures i == |s| - |TrimLeft(s, cut)| && 0 <= i <= j <= |s|
    ensures j == i + |Trim(s, cut)| && Trim(s, cut) == s[i..j]
  {
    var left := TrimLeft(s, cut);
    var r := TrimRight(left, cut);
    i := |s| - |left|;
    j := i + |r|;
    SliceOfSuffix(s, left, r, i);
  }

  lemma TrimRightDropsCutOf(s: string, cut: set<char>, i: int, j: int)
    requires i == |s| - |TrimLeft(s, cut)| && 0 <= i <= j <= |s| && j == i + |Trim(s, cut)|
    ensures forall k :: j <= k < |s| ==> s[k] in cut
  {
    var left := TrimLeft(s, cut);
    TrimRightDropsCut(left, cut);
    SuffixInCut(s, left, i, j - i, cut);
  }

  /** A prefix of the suffix s[i..] is a slice of s. */
  lemma SliceOfSuffix(s: string, left: string, r: string, i: int)
    requires 0 <= i <= |s| && left == s[i..] && |r| <= |left| && r == left[..|r|]
    ensures r == s[i..i + |r|]
  {
  }

  /** Characters of `cut` from position n of the suffix s[i..] on are
    * characters of `cut` from position i + n of s on. */
  lemma SuffixInCut(s: string, left: string, i: int, n: int, cut: set<char>)
    requires 0 <= i <= |s| && left == s[i..] && 0 <= n <= |left|
    requires forall m :: n <= m < |left| ==> left[m] in cut
    ensures forall k :: i + n <= k < |s| ==> s[k] in cut
  {
    forall k | i + n <= k < |s| ensures s[k] in cut {
      assert s[k] == left[k - i];
    }
  }

  lemma TrimIdempotent(s: string, cut: set<char>)
    ensures Trim(Trim(s, cut), cut) == Trim(s, cut)
  {
    var r := Trim(s, cut);
    if r != [] {
      assert TrimLeft(r, cut) == r;
      assert TrimRight(r, cut) == r;
    }
  }

  /** strings.TrimSpace. */
  function TrimSpace(s: string): (r: string)
    ensures Trimmed(r, SpaceChars)
  {
    Trim(s, SpaceChars)
  }

  function UpperChar(c: char): char {
    if 'a' <= c <= 'z' then (c as int - 32) as char else c
  }

  function LowerChar(c: char): char {
    if 'A' <= c <= 'Z' then (c as int + 32) as char else c
  }

  /** strings.ToUpper, restricted to the ASCII letters. */
  function ToUpper(s: string): (r: string)
    ensures |r| == |s|
    ensures forall i :: 0 <= i < |s| ==> r[i] == UpperChar(s[i])
  {
    seq(|s|, i requires 0 <= i < |s| => UpperChar(s[i]))
  }

  /** strings.ToLower, restricted to the ASCII letters. */
  function ToLower(s: string): (r: string)
    ensures |r| == |s|
    ensures forall i :: 0 <= i < |s| ==> r[i] == LowerChar(s[i])
  {
    seq(|s|, i requires 0 <= i < |s| => LowerChar(s[i]))
  }

  /** Upper-cases, then trims white space: no lower-case ASCII letter and no
    * surrounding white space remains. */
  function NormaliseStringUpper(target: string): (r: string)
    ensures forall i :: 0 <= i < |r| ==> !('a' <= r[i] <= 'z')
    ensures Trimmed(r, SpaceChars)
  {
    var up := ToUpper(target);
    assert forall i :: 0 <= i < |up| ==> !('a' <= up[i] <= 'z');
    TrimSpace(up)
  }

  /** A string already upper case and trimmed is left as it is. */
  lemma NormaliseStringUpperKeepsNormal(s: string)
    requires forall i :: 0 <= i < |s| ==> !('a' <= s[i] <= 'z')
    requires Trimmed(s, SpaceChars)
    ensures NormaliseStringUpper(s) == s
  {
    assert ToUpper(s) == s;
    assert TrimLeft(s, SpaceChars) == s;
    assert TrimRight(s, SpaceChars) == s;
  }

  /** The result is the upper-cased input with only white space cut from
    * its two ends; with ToUpper's contract, character k of the result is
    * UpperChar(target[i + k]). */
  lemma NormaliseStringUpperIsSlice(target: string)
    ensures exists i, j ::
      (0 <= i <= j <= |target| && NormaliseStringUpper(target) == ToUpper(target)[i..j]
       && (forall k :: 0 <= k < i ==> target[k] in SpaceChars)
       && (forall k :: j <= k < |target| ==> target[k] in SpaceChars))
  {
    UpperKeepsSpace();
    MappedTrimIsSlice(target, ToUpper(target), UpperChar, SpaceChars);
  }

  /** Upper-casing makes no white space. */
  lemma UpperKeepsSpace()
    ensures forall c :: UpperChar(c) in SpaceChars ==> c in SpaceChars
  {
  }

  /** Lower-casing makes no white space. */
  lemma LowerKeepsSpace()
    ensures forall c :: LowerChar(c) in SpaceChars ==> c in SpaceChars
  {
  }

  /** Trimming `cut` from a character-wise image of `target`, under a map
    * that sends no character outside `cut` into it, keeps a slice of the
    * image and cuts only characters of `cut` from `target` itself. */
  lemma MappedTrimIsSlice(target: string, mapped: string, f: char -> char, cut: set<char>)
    requires |mapped| == |target| && forall k :: 0 <= k < |target| ==> mapped[k] == f(target[k])
    requires forall c :: f(c) in cut ==> c in cut
    ensures exists i, j ::
      (0 <= i <= j <= |target| && Trim(mapped, cut) == mapped[i..j]
       && (forall k :: 0 <= k < i ==> target[k] in cut)
       && (forall k :: j <= k < |target| ==> target[k] in cut))
  {
    var i, j := TrimBounds(mapped, cut);
    assert forall k :: 0 <= k < i ==> f(target[k]) in cut;
    assert forall k :: j <= k < |target| ==> f(target[k]) in cut;
  }

  /** Lower-cases, then trims white space. */
  function NormaliseStringLower(target: string): (r: string)
    ensures forall i :: 0 <= i < |r| ==> !('A' <= r[i] <= 'Z')
    ensures Trimmed(r, SpaceChars)
  {
    var low := ToLower(target);
    assert forall i :: 0 <= i < |low| ==> !('A' <= low[i] <= 'Z');
    TrimSpace(low)
  }

  /** The result is the lower-cased input with only white space cut from
    * its two ends; with ToLower's contract, character k of the result is
    * LowerChar(target[i + k]). */
  lemma NormaliseStringLowerIsSlice(target: string)
    ensures exists i, j ::
      (0 <= i <= j <= |target| && NormaliseStringLower(target) == ToLower(target)[i..j]
       && (forall k :: 0 <= k < i ==> target[k] in SpaceChars)
       && (forall k :: j <= k < |target| ==> target[k] in SpaceChars))
  {
    LowerKeepsSpace();
    MappedTrimIsSlice(target, ToLower(target), LowerChar, SpaceChars);
  }

  /** A string already lower case and trimmed is left as it is. */
  lemma NormaliseStringLowerKeepsNormal(s: string)
    requires forall i :: 0 <= i < |s| ==> !('A' <= s[i] <= 'Z')
    requires Trimmed(s, SpaceChars)
    ensures NormaliseStringLower(s) == s
  {
    assert ToLower(s) == s;
    assert TrimLeft(s, SpaceChars) == s;
    assert TrimRight(s, SpaceChars) == s;
  }

  /** Despite its name, only trims surrounding white space: inner spaces
    * stay. */
  function NormaliseNoSpaces(target: string): (r: string)
    ensures Trimmed(r, SpaceChars)
  {
    TrimSpace(target)
  }

  /** The result is a slice of the input with only white space around it. */
  lemma NormaliseNoSpacesIsSlice(target: string)
    ensures exists i, j ::
      (0 <= i <= j <= |target| && NormaliseNoSpaces(target) == target[i..j]
       && (forall k :: 0 <= k < i ==> target[k] in SpaceChars)
       && (forall k :: j <= k < |target| ==> target[k] in SpaceChars))
  {
    TrimIsSlice(target, SpaceChars);
  }

  /** A value without surrounding white space is kept whole, inner white
    * space included ("a b" stays "a b"). */
  lemma NormaliseNoSpacesKeepsInnerSpaces(target: string)
    requires Trimmed(target, SpaceChars)
    ensures NormaliseNoSpaces(target) == target
  {
    assert TrimLeft(target, SpaceChars) == target;
  }

  /** strings.Trim(target, "\""): every leading and trailing double quote
    * goes, inner ones stay. */
  function RemoveDoubleQuotes(target: string): (r: string)
    ensures r == [] || (r[0] != '"' && r[|r| - 1] != '"')
  {
    Trim(target, {'"'})
  }

  /** Only surrounding quotes are removed. */
  lemma RemoveDoubleQuotesIsSlice(target: string)
    ensures exists i, j ::
      (0 <= i <= j <= |target| && RemoveDoubleQuotes(target) == target[i..j]
       && (forall k :: 0 <= k < i ==> target[k] == '"')
       && (forall k :: j <= k < |target| ==> target[k] == '"'))
  {
    TrimIsSlice(target, {'"'});
  }

  lemma RemoveDoubleQuotesIdempotent(s: string)
    ensures RemoveDoubleQuotes(RemoveDoubleQuotes(s)) == RemoveDoubleQuotes(s)
  {
    TrimIdempotent(s, {'"'});
  }

  /** A value made only of quotes becomes empty. */
  lemma QuotesOnlyBecomeEmpty(s: string)
    requires forall k :: 0 <= k < |s| ==> s[k] == '"'
    ensures RemoveDoubleQuotes(s) == []
  {
  }

  /** A value that neither starts nor ends with a quote is kept as is. */
  lemma RemoveDoubleQuotesKeepsUnquoted(s: string)
    requires s == [] || (s[0] != '"' && s[|s| - 1] != '"')
    ensures RemoveDoubleQuotes(s) == s
  {
  }

  /** Linear search of `key` in `optionalKeys`, stopping at the first match. */
  method IsKeyInMapOptional(key: string, optionalKeys: seq<string>) returns (found: bool)
    ensures found <==> key in optionalKeys
  {
    var i := 0;
    while i < |optionalKeys|
      invariant 0 <= i <= |optionalKeys|
      invariant key !in optionalKeys[..i]
    {
      if optionalKeys[i] == key {
        return true;
      }
      assert optionalKeys[..i + 1] == optionalKeys[..i] + [optionalKeys[i]];
      i := i + 1;
    }
    assert optionalKeys[..i] == optionalKeys;
    return false;
  }

  /** A nil map and an empty map are the same value here. */
  function MapIsNulOrEmpty(target: map<string, string>): (empty: bool)
    ensures empty <==> target == map[]
  {
    |target| == 0
  }

  /** The concatenation, in order, of a list of lists. */
  function Concat(slices: seq<seq<string>>): seq<string> {
    if |slices| == 0 then [] else Concat(slices[..|slices| - 1]) + slices[|slices| - 1]
  }

  function TotalLength(slices: seq<seq<string>>): nat {
    if |slices| == 0 then 0 else TotalLength(slices[..|slices| - 1]) + |slices[|slices| - 1]|
  }

  lemma {:induction false} ConcatLength(slices: seq<seq<string>>)
    ensures |Concat(slices)| == TotalLength(slices)
    decreases |slices|
  {
    if |slices| > 0 {
      ConcatLength(slices[..|slices| - 1]);
    }
  }

  /** Every element of every input list occurs in the merged list. */
  lemma {:induction false} ConcatContains(slices: seq<seq<string>>, i: int, x: string)
    requires 0 <= i < |slices| && x in slices[i]
    ensures x in Concat(slices)
    decreases |slices|
  {
    var last := |slices| - 1;
    if i < last {
      ConcatContains(slices[..last], i, x);
    }
  }

  /** Appends each list to the result, in order. */
  method MergeSlices(slices: seq<seq<string>>) returns (merged: seq<string>)
    ensures merged == Concat(slices)
    ensures |merged| == TotalLength(slices)
  {
    merged := [];
    var i := 0;
    while i < |slices|
      invariant 0 <= i <= |slices|
      invariant merged == Concat(slices[..i])
    {
      assert slices[..i + 1][..i] == slices[..i];
      merged := merged + slices[i];
      i := i + 1;
    }
    assert slices[..i] == slices;
    ConcatLength(slices);
  }
}
