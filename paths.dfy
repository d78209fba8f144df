/**
 * The lexical path operations of Go's path/filepath on a Unix host, which
 * every core file relies on: IsAbs, Clean, Join, Dir and Abs.
 */
module Paths {

  predicate IsAbs(p: string) {
    |p| > 0 && p[0] == '/'
  }

  /** strings.Split(p, "/"): always at least one (possibly empty) element. */
  function Segments(p: string): (segs: seq<string>)
    ensures |segs| >= 1
    ensures forall i :: 0 <= i < |segs| ==> segs[i] == "" || segs[i][0] != '/'
    decreases |p|
  {
    var i := SlashAt(p);
    if i == |p| then [p] else [p[..i]] + Segments(p[i + 1..])
  }

  /** Position of the first '/', or |p| when there is none. */
  function SlashAt(p: string): (i: nat)
    ensures i <= |p|
    ensures i < |p| ==> p[i] == '/'
    ensures i > 0 ==> p[0] != '/'
  {
    if |p| == 0 || p[0] == '/' then 0 else SlashAt(p[1..]) + 1
  }

  /** Joins non-empty names with '/'. */
  function JoinNames(names: seq<string>): string {
    if |names| == 0 then ""
    else if |names| == 1 then names[0]
    else names[0] + "/" + JoinNames(names[1..])
  }

  /** One step of the lexical clean: "" and "." vanish, ".." removes the
    * previous name (or stays, in a relative path that has none; or vanishes
    * at the root). */
  function CleanStep(out: seq<string>, seg: string, rooted: bool): seq<string> {
    if seg == "" || seg == "." then out
    else if seg == ".." then
      if |out| > 0 && out[|out| - 1] != ".." then out[..|out| - 1]
      else if rooted then out
      else out + [".."]
    else out + [seg]
  }

  function CleanNames(segs: seq<string>, rooted: bool): (names: seq<string>)
    requires forall i :: 0 <= i < |segs| ==> segs[i] == "" || segs[i][0] != '/'
    ensures forall i :: 0 <= i < |names| ==> names[i] != "" && names[i][0] != '/'
    decreases |segs|
  {
    if |segs| == 0 then []
    else CleanStep(CleanNames(segs[..|segs| - 1], rooted), segs[|segs| - 1], rooted)
  }

  /** The first name of a joined list is the start of the result. */
  lemma JoinNamesStart(names: seq<string>)
    ensures |names| > 0 && names[0] != "" ==>
      |JoinNames(names)| > 0 && JoinNames(names)[0] == names[0][0]
  {
  }

  /** filepath.Clean on Unix. */
  function Clean(p: string): (c: string)
    ensures c != ""
    ensures IsAbs(c) <==> IsAbs(p)
  {
    var names := CleanNames(Segments(p), IsAbs(p));
    var body := JoinNames(names);
    JoinNamesStart(names);
    if IsAbs(p) then "/" + body
    else if body == "" then "."
    else body
  }

  /** filepath.Join: skips leading empty elements, joins the rest with '/'
    * and cleans the result; all-empty input gives "". */
  function Join(elems: seq<string>): (j: string)
    ensures j == "" <==> (forall i :: 0 <= i < |elems| ==> elems[i] == "")
    ensures |elems| > 0 && IsAbs(elems[0]) ==> IsAbs(j)
  {
    if |elems| == 0 then ""
    else if elems[0] == "" then Join(elems[1..])
    else
      var raw := JoinNames(elems);
      JoinNamesStart(elems);
      Clean(raw)
  }

  /** Position just after the last '/', or 0 when there is none. */
  function AfterLastSlash(p: string): (i: nat)
    ensures i <= |p|
    ensures i > 0 ==> p[i - 1] == '/'
    ensures IsAbs(p) ==> i > 0
  {
    if |p| == 0 then 0
    else if p[|p| - 1] == '/' then |p|
    else AfterLastSlash(p[..|p| - 1])
  }

  /** filepath.Dir: everything up to the last separator, cleaned. */
  function Dir(p: string): (d: string)
    ensures d != ""
    ensures IsAbs(p) ==> IsAbs(d)
  {
    var i := AfterLastSlash(p);
    assert IsAbs(p) ==> IsAbs(p[..i]);
    Clean(p[..i])
  }

  /** filepath.Abs with `cwd` as the process's working directory. */
  function Abs(cwd: string, p: string): (a: string)
    ensures IsAbs(p) ==> IsAbs(a)
    ensures IsAbs(cwd) ==> IsAbs(a)
  {
    if IsAbs(p) then Clean(p) else Join([cwd, p])
  }

  lemma CleanExamples()
    ensures Clean("") == "."
    ensures Clean("/") == "/"
  {
    assert Segments("") == [""];
    assert Segments("/") == ["", ""] by {
      assert SlashAt("/") == 0;
      assert "/"[1..] == "";
    }
    assert CleanNames(["", ""], true) == [];
  }
}
