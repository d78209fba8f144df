/** internal/utils/collections.go: membership test that reports absence as an error. */
module Collections {
  import opened Errors

  /** Passes exactly when `toFind` occurs in `data`; otherwise the error names it. */
  function FindInSlice(toFind: string, data: seq<string>): (r: Outcome)
    ensures r.Pass? <==> toFind in data
    ensures r.Fail? ==> r.error == Plain("could not find " + toFind + " in slice")
  {
    if |data| == 0 then Fail(Plain("could not find " + toFind + " in slice"))
    else if data[0] == toFind then Pass
    else
      var rest := FindInSlice(toFind, data[1..]);
      assert data == [data[0]] + data[1..];
      rest
  }

  /** Only membership matters: order and repetition of `data` do not. */
  lemma FindInSliceIgnoresOrder(toFind: string, a: seq<string>, b: seq<string>)
    requires forall x :: x in a <==> x in b
    ensures FindInSlice(toFind, a) == FindInSlice(toFind, b)
  {
  }
}
