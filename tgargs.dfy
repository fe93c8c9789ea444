/** Decoding of pg_trigger.tgargs (_slon_decode_tgargs): the catalog stores
    the trigger arguments as one byte string in which every argument is
    followed by a NUL byte. */
module TriggerArgs {

  newtype byte = x: int | 0 <= x < 256

  const NUL: byte := 0

  predicate NoNul(s: seq<byte>) { forall i :: 0 <= i < |s| ==> s[i] != NUL }

  /** What a scan of a prefix has found: the arguments already terminated
      and the bytes of the argument still being read. */
  datatype SplitState = SplitState(args: seq<seq<byte>>, pending: seq<byte>)

  function Split(b: seq<byte>): SplitState
  {
    if |b| == 0 then SplitState([], [])
    else
      var st := Split(b[..|b| - 1]);
      if b[|b| - 1] == NUL then SplitState(st.args + [st.pending], [])
      else SplitState(st.args, st.pending + [b[|b| - 1]])
  }

  /** The decoded argument array: every NUL-terminated run of bytes; bytes
      after the last NUL are not returned. */
  function DecodeTgArgs(b: seq<byte>): seq<seq<byte>>
  {
    Split(b).args
  }

  /** How the catalog lays out a list of trigger arguments. */
  function EncodeTgArgs(args: seq<seq<byte>>): seq<byte>
  {
    if |args| == 0 then [] else EncodeTgArgs(args[..|args| - 1]) + args[|args| - 1] + [NUL]
  }

  function CountNul(b: seq<byte>): nat
  {
    if |b| == 0 then 0 else CountNul(b[..|b| - 1]) + (if b[|b| - 1] == NUL then 1 else 0)
  }

  /** Appending bytes without a NUL only extends the pending argument. */
  lemma {:induction false} SplitAppendNoNul(x: seq<byte>, y: seq<byte>)
    requires NoNul(y)
    ensures Split(x + y) == SplitState(Split(x).args, Split(x).pending + y)
  {
    if |y| == 0 {
      assert x + y == x;
    } else {
      var y' := y[..|y| - 1];
      assert (x + y)[..|x + y| - 1] == x + y';
      SplitAppendNoNul(x, y');
      assert Split(x).pending + y' + [y[|y| - 1]] == Split(x).pending + y;
    }
  }

  /** Decoding the catalog layout gives back the arguments, whatever
      unterminated bytes follow the last one. */
  lemma {:induction false} DecodeEncode(args: seq<seq<byte>>, tail: seq<byte>)
    requires forall i :: 0 <= i < |args| ==> NoNul(args[i])
    requires NoNul(tail)
    ensures Split(EncodeTgArgs(args) + tail) == SplitState(args, tail)
    ensures DecodeTgArgs(EncodeTgArgs(args) + tail) == args
  {
    if |args| == 0 {
      SplitAppendNoNul([], tail);
      assert EncodeTgArgs(args) + tail == [] + tail;
    } else {
      var init := args[..|args| - 1];
      var last := args[|args| - 1];
      var e := EncodeTgArgs(init);
      DecodeEncode(init, []);
      assert e + [] == e;
      assert Split(e) == SplitState(init, []);
      SplitAppendNoNul(e, last);
      assert [] + last == last;
      assert Split(e + last) == SplitState(init, last);
      assert init + [last] == args;
      assert (e + last + [NUL])[..|e + last + [NUL]| - 1] == e + last;
      assert Split(e + last + [NUL]) == SplitState(args, []);
      SplitAppendNoNul(e + last + [NUL], tail);
      assert init + [last] == args;
    }
  }

  /** One argument comes out for every NUL byte. */
  lemma {:induction false} DecodeCount(b: seq<byte>)
    ensures |DecodeTgArgs(b)| == CountNul(b)
  {
    if |b| > 0 {
      DecodeCount(b[..|b| - 1]);
    }
  }

  /** What the scan learns from byte idx, with the current argument
      starting at arg. */
  lemma ScanStep(b: seq<byte>, arg: nat, idx: nat, done: seq<seq<byte>>)
    requires arg <= idx < |b|
    requires Split(b[..idx]) == SplitState(done, b[arg..idx])
    ensures b[idx] == NUL ==> Split(b[..idx + 1]) == SplitState(done + [b[arg..idx]], b[idx + 1..idx + 1])
    ensures b[idx] != NUL ==> Split(b[..idx + 1]) == SplitState(done, b[arg..idx + 1])
  {
    assert b[..idx + 1][..idx] == b[..idx];
    assert b[arg..idx + 1] == b[arg..idx] + [b[idx]];
  }

  /** The scan of _slon_decode_tgargs: idx walks the bytes, elemSize counts
      the bytes since the start of the current argument, and each NUL closes
      that argument and appends it to the output array. */
  method DecodeTgArgsScan(inArgs: seq<byte>) returns (outArray: seq<seq<byte>>)
    ensures outArray == DecodeTgArgs(inArgs)
  {
    outArray := [];
    var arg := 0;
    var elemSize := 0;
    var idx := 0;
    while idx < |inArgs|
      invariant 0 <= arg <= idx <= |inArgs|
      invariant elemSize == idx - arg
      invariant Split(inArgs[..idx]) == SplitState(outArray, inArgs[arg..idx])
    {
      ScanStep(inArgs, arg, idx, outArray);
      if inArgs[idx] == NUL {
        outArray := outArray + [inArgs[arg..arg + elemSize]];
        elemSize := 0;
        arg := idx + 1;
      } else {
        elemSize := elemSize + 1;
      }
      idx := idx + 1;
    }
    assert inArgs[..idx] == inArgs;
  }
}
