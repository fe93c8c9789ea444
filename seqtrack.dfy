/** The sequence tracker (_Slony_I_seqtrack): a backend-lifetime table from
    sequence id to the last value reported for it. A call reports a value
    when the sequence is new or its value changed, and NULL otherwise, so
    the caller logs only sequences that moved. The AVL tree is a map here,
    ordered by the comparison of ids; its comparison function is modelled
    separately below. */
module SeqTrack {
  import opened Common

  /** The result of one call and the table after it. */
  datatype Observed = Observed(reported: Option<int>, seen: map<int, int>)

  /** One call with sequence id seqid and its current value seqval. */
  function Observe(seen: map<int, int>, seqid: int, seqval: int): Observed
  {
    if seqid !in seen then Observed(Some(seqval), seen[seqid := seqval])
    else if seen[seqid] == seqval then Observed(None, seen)
    else Observed(Some(seqval), seen[seqid := seqval])
  }

  /** The tracker, holding the table across calls. */
  class Tracker {
    var seen: map<int, int>

    constructor ()
      ensures seen == map[]
    {
      seen := map[];
    }

    method Track(seqid: int, seqval: int) returns (reported: Option<int>)
      modifies this
      ensures Observed(reported, seen) == Observe(old(seen), seqid, seqval)
    {
      if seqid !in seen {
        seen := seen[seqid := seqval];
        return Some(seqval);
      }
      if seen[seqid] == seqval {
        return None;
      }
      seen := seen[seqid := seqval];
      reported := Some(seqval);
    }
  }

  /** The first call for an id stores and reports the value. */
  lemma FirstCallReports(seen: map<int, int>, seqid: int, seqval: int)
    requires seqid !in seen
    ensures Observe(seen, seqid, seqval).reported == Some(seqval)
    ensures Observe(seen, seqid, seqval).seen == seen[seqid := seqval]
  {
  }

  /** An unchanged value is not reported and changes nothing; a changed
      one is stored and reported. */
  lemma LaterCallReportsChange(seen: map<int, int>, seqid: int, seqval: int)
    requires seqid in seen
    ensures Observe(seen, seqid, seqval).reported.None? <==> seen[seqid] == seqval
    ensures Observe(seen, seqid, seqval).reported.Some? ==> Observe(seen, seqid, seqval).reported.value == seqval
    ensures Observe(seen, seqid, seqval).seen == seen[seqid := seqval]
  {
  }

  /** Other ids are never affected. */
  lemma OthersUnaffected(seen: map<int, int>, seqid: int, seqval: int, other: int)
    requires other != seqid
    ensures other in Observe(seen, seqid, seqval).seen <==> other in seen
    ensures other in seen ==> Observe(seen, seqid, seqval).seen[other] == seen[other]
  {
  }

  /** The table after a series of calls, each an (id, value) pair. */
  function ObserveAll(seen: map<int, int>, calls: seq<(int, int)>): map<int, int>
  {
    if |calls| == 0 then seen
    else Observe(ObserveAll(seen, calls[..|calls| - 1]), calls[|calls| - 1].0, calls[|calls| - 1].1).seen
  }

  /** The index of the last call for seqid, if any. */
  function LastCall(calls: seq<(int, int)>, seqid: int): (r: Option<nat>)
    ensures r.Some? ==> r.value < |calls| && calls[r.value].0 == seqid
    ensures r.Some? ==> forall j :: r.value < j < |calls| ==> calls[j].0 != seqid
    ensures r.None? ==> forall j :: 0 <= j < |calls| ==> calls[j].0 != seqid
  {
    if |calls| == 0 then None
    else if calls[|calls| - 1].0 == seqid then Some(|calls| - 1)
    else LastCall(calls[..|calls| - 1], seqid)
  }

  /** After a series of calls from an empty table, the table holds exactly
      the ids called, each with the value of its last call. */
  lemma {:induction false} ObserveAllHoldsLastValues(calls: seq<(int, int)>, seqid: int)
    ensures seqid in ObserveAll(map[], calls) <==> LastCall(calls, seqid).Some?
    ensures LastCall(calls, seqid).Some? ==>
      ObserveAll(map[], calls)[seqid] == calls[LastCall(calls, seqid).value].1
  {
    if |calls| > 0 {
      var init := calls[..|calls| - 1];
      ObserveAllHoldsLastValues(init, seqid);
      if calls[|calls| - 1].0 != seqid && LastCall(init, seqid).Some? {
        assert calls[LastCall(init, seqid).value] == init[LastCall(init, seqid).value];
      }
    }
  }

  /** A call goes unreported exactly when the most recent earlier call for
      its id carried the same value. */
  lemma CallReportedIffMoved(calls: seq<(int, int)>, seqid: int, seqval: int)
    ensures var before := ObserveAll(map[], calls);
      Observe(before, seqid, seqval).reported.None? <==>
        LastCall(calls, seqid).Some? && calls[LastCall(calls, seqid).value].1 == seqval
  {
    ObserveAllHoldsLastValues(calls, seqid);
  }

  // ---------------------------------------------------------------------
  // The comparison function of the AVL tree (seqtrack_cmp).
  // ---------------------------------------------------------------------

  /** seqtrack_cmp as written: the difference of the two ids. */
  function CmpAsWritten(a: int, b: int): int
    requires IsInt32(a) && IsInt32(b)
  {
    Wrap32(a - b)
  }

  /** With ids of opposite signs far apart, the difference wraps: both
      orders of the pair compare as less, so the tree's order is broken. */
  lemma CmpAsWrittenNotAntisymmetric()
    ensures CmpAsWritten(Int32Max, -1) < 0 && CmpAsWritten(-1, Int32Max) < 0
  {
    assert Wrap32(Int32Max + 1) == Int32Min;
    assert Wrap32(-1 - Int32Max) == Int32Min;
  }

  /** The comparison the tree needs: the sign of a - b. */
  function Cmp(a: int, b: int): int
    requires IsInt32(a) && IsInt32(b)
  {
    if a < b then -1 else if a > b then 1 else 0
  }

  /** The corrected comparison orders ids as the integers are ordered, and
      agrees with the difference wherever that does not wrap. */
  lemma CmpOrdersIds(a: int, b: int)
    requires IsInt32(a) && IsInt32(b)
    ensures Cmp(a, b) < 0 <==> a < b
    ensures Cmp(a, b) == 0 <==> a == b
    ensures Cmp(a, b) == -Cmp(b, a)
    ensures IsInt32(a - b) ==> (Cmp(a, b) < 0 <==> CmpAsWritten(a, b) < 0) && (Cmp(a, b) == 0 <==> CmpAsWritten(a, b) == 0)
  {
    if IsInt32(a - b) {
      assert Wrap32(a - b) == a - b;
    }
  }
}
