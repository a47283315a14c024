/** Delivery guarantees of the consumer loop, over all runs with restarts. */
module Offsets {
  import opened Machine
  import opened Frames

  /** The messages of the partition that the handler is finished with, this time round. */
  function Past(part: Partition): int {
    if part.holding then part.fetched - 1 else part.fetched
  }

  ghost predicate Undelivered(w: World) {
    forall p :: 0 <= p < |w.log| ==>
      w.log[p].fetched == w.log[p].committed == 0 && !w.log[p].holding && w.log[p].first == []
  }

  /** The offsets of partition `p` for which a handler has returned during the run. */
  ghost function Returned(w0: World, tr: seq<Step>, p: nat): set<int>
    requires Legal(w0, tr)
  {
    if tr == [] then {} else
      var w, st := After(w0, tr[..|tr| - 1]), tr[|tr| - 1];
      Returned(w0, tr[..|tr| - 1], p) + if st.Handle? && st.p == p then {w.log[p].fetched - 1} else {}
  }

  predicate InOrder(part: Partition) {
    part.committed <= Past(part) <= |part.first| <= |part.msgs| && part.fetched <= |part.msgs|
  }

  lemma StepInOrder(w: World, st: Step, p: nat)
    requires Enabled(w, st) && p < |w.log| && InOrder(w.log[p])
    ensures p < |Apply(w, st).log| && InOrder(Apply(w, st).log[p])
    ensures Apply(w, st).log[p].committed >= w.log[p].committed
    ensures |Apply(w, st).log[p].first| ==
            |w.log[p].first| + if st == Handle(p, true) || st == Handle(p, false) then
              (if w.log[p].fetched - 1 == |w.log[p].first| then 1 else 0) else 0
  {
    LogAfter(w, st, p);
  }

  ghost predicate AllInOrder(w: World) {
    forall p :: 0 <= p < |w.log| ==> InOrder(w.log[p])
  }

  lemma {:induction false} AlwaysInOrder(w0: World, tr: seq<Step>)
    requires Legal(w0, tr) && AllInOrder(w0)
    ensures AllInOrder(After(w0, tr))
  {
    if tr != [] {
      var w, st := After(w0, tr[..|tr| - 1]), tr[|tr| - 1];
      AlwaysInOrder(w0, tr[..|tr| - 1]);
      SameLogLength(w, st);
      forall p | 0 <= p < |w.log| ensures InOrder(Apply(w, st).log[p]) { StepInOrder(w, st, p); }
    }
  }

  /** `returned` is the set of offsets whose first outcome is known. */
  ghost predicate Accounted(part: Partition, returned: set<int>) {
    InOrder(part) && forall i :: i in returned <==> 0 <= i < |part.first|
  }

  lemma AccountedStep(w: World, st: Step, p: nat, returned: set<int>)
    requires Enabled(w, st) && p < |w.log| && Accounted(w.log[p], returned)
    ensures p < |Apply(w, st).log|
    ensures Accounted(Apply(w, st).log[p], returned + if st.Handle? && st.p == p then {w.log[p].fetched - 1} else {})
  {
    StepInOrder(w, st, p);
  }

  /** Committed <= fetched <= end of the log; the handler has returned for every committed
      offset and for every offset the loop has gone past; the offsets handed to the handler
      are 0, 1, 2, ... with none passed over, however often the partition is restarted. */
  lemma {:induction false} OffsetSafety(w0: World, tr: seq<Step>, p: nat)
    requires Legal(w0, tr) && Undelivered(w0) && p < |w0.log|
    ensures var w := After(w0, tr);
            p < |w.log| && w.log[p].committed <= w.log[p].fetched <= |w.log[p].msgs| && InOrder(w.log[p])
    ensures var part := After(w0, tr).log[p];
            forall i :: 0 <= i < part.committed || 0 <= i < Past(part) ==> i in Returned(w0, tr, p)
    ensures forall i :: i in Returned(w0, tr, p) <==> 0 <= i < |After(w0, tr).log[p].first|
  {
    if tr != [] {
      var init, st := tr[..|tr| - 1], tr[|tr| - 1];
      OffsetSafety(w0, init, p);
      AccountedStep(After(w0, init), st, p, Returned(w0, init, p));
    }
  }

  /** A commit never moves backwards. */
  lemma {:induction false} CommitsOnlyAdvance(w0: World, tr: seq<Step>, st: Step, p: nat)
    requires Legal(w0, tr + [st]) && Undelivered(w0) && p < |w0.log|
    ensures (tr + [st])[..|tr|] == tr && p < |After(w0, tr).log| && p < |After(w0, tr + [st]).log|
    ensures After(w0, tr).log[p].committed <= After(w0, tr + [st]).log[p].committed
  {
    assert (tr + [st])[..|tr|] == tr;
    OffsetSafety(w0, tr, p);
    StepInOrder(After(w0, tr), st, p);
  }
}
