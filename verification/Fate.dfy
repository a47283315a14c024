/** Which row is certain to come out of the log, with any number of partitions. */
module Fate {
  import opened Model
  import opened Machine
  import opened Frames
  import opened Requests
  import opened Offsets
  import opened Replay
  import opened Confluence
  import opened Transparency

  /** The last messages still to be handled that can give `u` a row, one from each partition that
      has any, all ask for `s`. */
  ghost predicate AllAskFor(f: seq<Stretch>, u: string, s: Session) {
    forall p :: 0 <= p < |f| && Goal(f[p], u) >= 0 ==> GoalRow(f[p], u) == s
  }

  ghost predicate SomeToCome(f: seq<Stretch>, u: string) {
    exists p :: 0 <= p < |f| && Goal(f[p], u) >= 0
  }

  /** Whatever else goes on, the log as it is drains to the row `s` of `u`. */
  ghost predicate BoundToBe(w: World, u: string, s: Session) {
    forall tr | DrainsTo(w, tr, Stretches(w, w), u) :: Row(After(w, tr), u) == Some(s)
  }

  lemma BoundByGoals(w: World, u: string, s: Session, tr: seq<Step>)
    requires Sound(w) && AllInOrder(w) && DrainsTo(w, tr, Stretches(w, w), u) && AllAskFor(Stretches(w, w), u, s)
    requires SomeToCome(Stretches(w, w), u) || Row(w, u) == Some(s)
    ensures Row(After(w, tr), u) == Some(s)
  {
    DrainedRowIsAGoal(w, tr, Stretches(w, w), u);
  }

  /** In any well-formed state the row is bound to be `s` if and only if the last messages to come
      all ask for it, and there is one or the row holds it already. */
  lemma BoundToBeIff(w: World, u: string, s: Session)
    requires Sound(w) && AllInOrder(w)
    ensures BoundToBe(w, u, s) <==>
            AllAskFor(Stretches(w, w), u, s) && (SomeToCome(Stretches(w, w), u) || Row(w, u) == Some(s))
  {
    var f := Stretches(w, w);
    if AllAskFor(f, u, s) && (SomeToCome(f, u) || Row(w, u) == Some(s)) {
      forall tr | DrainsTo(w, tr, f, u) ensures Row(After(w, tr), u) == Some(s) { BoundByGoals(w, u, s, tr); }
    } else if p :| 0 <= p < |f| && Goal(f[p], u) >= 0 && GoalRow(f[p], u) != s {
      assert f[p] == ToRead(w, p);
      var tr := AnyFinalCanWin(w, p, u);
    } else {
      var tr := SomeDrain(w, u);
      DrainedRowIsAGoal(w, tr, f, u);
    }
  }

  /** The fate of the last accepted write of `u` in any reachable state, with any number of
      partitions, requests that overlap, restarts and failures on the way there. */
  lemma LastWriteIsBoundIff(w0: World, partitions: nat, now: int, tr: seq<Step>, w: World, u: string)
    requires w0 == Init(partitions, now) && Legal(w0, tr) && w == After(w0, tr)
    ensures LastAccepted(w0, tr, u).Some? ==>
              var f, s := Stretches(w, w), Stored(LastAccepted(w0, tr, u).value);
              (BoundToBe(w, u, s) <==> AllAskFor(f, u, s) && (SomeToCome(f, u) || Row(w, u) == Some(s)))
  {
    AlwaysSound(w0, tr);
    AlwaysInOrder(w0, tr);
    if LastAccepted(w0, tr, u).Some? { BoundToBeIff(w, u, Stored(LastAccepted(w0, tr, u).value)); }
  }
}
