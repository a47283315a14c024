/** The messages of one user that the consumer has still to handle. */
module Pending {
  import opened Model
  import opened Machine
  import opened Offsets

  predicate IsOf(m: Message, u: string) {
    m.Beat? && m.s.user == u
  }

  /** The offset of the last message of `u`, or -1. */
  function LastOf(msgs: seq<Message>, u: string): (i: int)
    ensures -1 <= i < |msgs|
    ensures i >= 0 ==> IsOf(msgs[i], u)
    ensures forall j :: i < j < |msgs| ==> !IsOf(msgs[j], u)
  {
    if msgs == [] then -1
    else if IsOf(msgs[|msgs| - 1], u) then |msgs| - 1
    else LastOf(msgs[..|msgs| - 1], u)
  }

  function Last(w: World, p: int, u: string): int
    requires 0 <= p < |w.log|
  {
    LastOf(w.log[p].msgs, u)
  }

  /** The row that the last message of `u` in partition `p` asks for. */
  function FinalRow(w: World, p: int, u: string): Session
    requires 0 <= p < |w.log| && Last(w, p, u) >= 0
  {
    Stored(w.log[p].msgs[Last(w, p, u)].s)
  }

  predicate Behind(w: World, p: int, u: string) {
    0 <= p < |w.log| && Last(w, p, u) >= 0 && Past(w.log[p]) <= Last(w, p, u)
  }

  lemma MessagesFixed(w: World, st: Step, u: string)
    requires Enabled(w, st) && OfConsumer(st)
    ensures |Apply(w, st).log| == |w.log|
    ensures forall p :: 0 <= p < |w.log| ==>
              Apply(w, st).log[p].msgs == w.log[p].msgs && Last(Apply(w, st), p, u) == Last(w, p, u)
    ensures forall p :: 0 <= p < |w.log| && p != st.p ==> Apply(w, st).log[p] == w.log[p]
  {
  }
}
