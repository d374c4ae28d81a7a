/** The three-valued boolean argument of the test helpers
    (internal/testhelpers/types.go): a test case that accepts false, true,
    or either, expanded to the booleans a test runs with. */
module TestHelpers {
  /** BoolArg is a Go int; its named values are the iota constants. */
  const False: int := 0
  const True: int := 1
  const Any: int := 2

  /** BoolArg.ToBoolList: the booleans the value admits, each once, false
      before true. Other values panic, so they are excluded here. */
  function ToBoolList(b: int): (r: seq<bool>)
    requires False <= b <= Any
    ensures |r| > 0 && (|r| == 2 ==> r[0] != r[1])
    ensures forall v :: v in r <==> (b == Any || v == (b == True))
    ensures |r| == 2 <==> b == Any
    ensures |r| == 2 ==> r == [false, true]
  {
    if b == False then [false]
    else if b == True then [true]
    else [false, true]
  }
}
