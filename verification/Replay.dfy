/**
  Consuming the log into the table: restarts, redelivery, skipped messages and the order in which
  the partitions are read, while requests publish, read and cache as they like. Only direct
  writes to the table are left to LastWrite and Degraded.
 */
module Replay {
  import opened Model
  import opened Machine
  import opened Frames
  import opened Requests
  import opened Offsets
  import opened Conservation
  import opened Pending

  // ---------- What a stretch of the log asks for ----------

  /** The log of a partition at the end of a run, with the first offset that was still to be
      handled before it. */
  datatype Stretch = Stretch(msgs: seq<Message>, from: nat)

  /** The message can give `u` a row. */
  predicate RowFor(m: Message, u: string) {
    IsOf(m, u) && Fits(m.s)
  }

  /** The last offset from `from` on that can give `u` a row, or -1. */
  function LastFrom(msgs: seq<Message>, from: nat, u: string): (i: int)
    ensures -1 <= i < |msgs|
    ensures i >= 0 ==> from <= i && RowFor(msgs[i], u)
    ensures forall j :: from <= j < |msgs| && i < j ==> !RowFor(msgs[j], u)
  {
    if |msgs| <= from then -1
    else if RowFor(msgs[|msgs| - 1], u) then |msgs| - 1
    else LastFrom(msgs[..|msgs| - 1], from, u)
  }

  function Goal(f: Stretch, u: string): int {
    LastFrom(f.msgs, f.from, u)
  }

  function GoalRow(f: Stretch, u: string): Session
    requires Goal(f, u) >= 0
  {
    Stored(f.msgs[Goal(f, u)].s)
  }

  /** The offset that the handler gets next, or has. */
  function Next(part: Partition): nat {
    if part.holding && part.fetched > 0 then part.fetched - 1 else part.fetched
  }

  /** Every partition is read again, or for the first time, from the committed offset. */
  ghost predicate Resumed(w: World) {
    AllInOrder(w) && forall p :: 0 <= p < |w.log| ==> w.log[p].fetched == w.log[p].committed && !w.log[p].holding
  }

  lemma UndeliveredIsResumed(w: World)
    requires Undelivered(w)
    ensures Resumed(w)
  {
  }

  function Stretches(w0: World, w: World): seq<Stretch>
    requires |w.log| == |w0.log|
  {
    seq(|w0.log|, p requires 0 <= p < |w0.log| => Stretch(w.log[p].msgs, Next(w0.log[p])))
  }

  /** The log is on its way to `f`, and what comes before `f` has been handled. */
  ghost predicate Within(w: World, f: seq<Stretch>) {
    && |w.log| == |f|
    && forall p :: 0 <= p < |f| ==> w.log[p].msgs <= f[p].msgs && f[p].from <= Past(w.log[p])
  }

  predicate ToCome(w: World, f: seq<Stretch>, p: int, u: string) {
    0 <= p < |f| && p < |w.log| && Goal(f[p], u) >= 0 && Past(w.log[p]) <= Goal(f[p], u)
  }

  predicate Beyond(w: World, f: seq<Stretch>, p: int, u: string) {
    0 <= p < |f| && p < |w.log| && 0 <= Goal(f[p], u) < Past(w.log[p])
  }

  /** Either the last message that can give `u` a row is still to come in some partition, or the
      row is one that such a last message asked for, or there is none and the row is the old one. */
  ghost predicate Settled(w: World, f: seq<Stretch>, u: string, before: Option<Session>) {
    || (exists q :: ToCome(w, f, q, u))
    || (exists p :: Beyond(w, f, p, u) && Row(w, u) == Some(GoalRow(f[p], u)))
    || (Row(w, u) == before && forall p :: 0 <= p < |f| ==> Goal(f[p], u) < 0)
  }

  /** No request writes the row of `u`, and a delivery of a last message of `u` is upserted. */
  predicate Undisturbed(w: World, st: Step, f: seq<Stretch>, u: string) {
    && Enabled(w, st) && !(st.Upsert? && w.calls[st.id].op.user == u)
    && (st.Handle? && st.p < |f| && w.log[st.p].fetched - 1 == Goal(f[st.p], u) ==> st.ok)
  }

  /** No restart brings back what comes before `f`. */
  predicate RestartsWithin(w: World, st: Step, f: seq<Stretch>) {
    Enabled(w, st) && (st.Restart? && st.p < |f| ==> f[st.p].from <= w.log[st.p].committed)
  }

  // ---------- One step ----------

  lemma WithinBefore(w: World, st: Step, f: seq<Stretch>)
    requires Enabled(w, st) && |w.log| == |f| && forall p :: 0 <= p < |f| ==> Apply(w, st).log[p].msgs <= f[p].msgs
    ensures forall p :: 0 <= p < |f| ==> w.log[p].msgs <= f[p].msgs
  {
    forall p: nat | p < |f| ensures w.log[p].msgs <= f[p].msgs { LogAfter(w, st, p); }
  }

  /** The row of `u` changes only when a message that can give `u` a row is handled. */
  lemma RowStays(w: World, st: Step, u: string)
    requires Enabled(w, st) && Sound(w) && !(st.Upsert? && w.calls[st.id].op.user == u)
    requires st.Handle? ==> !RowFor(Held(w.log[st.p]), u)
    ensures Row(Apply(w, st), u) == Row(w, u)
  {
    TableAfter(w, st);
  }

  lemma RowIsGiven(w: World, st: Step, u: string)
    requires Enabled(w, st) && st.Handle? && st.ok && RowFor(Held(w.log[st.p]), u)
    ensures Row(Apply(w, st), u) == Some(Stored(Held(w.log[st.p]).s))
  {
    TableAfter(w, st);
  }

  /** How far a partition has been read, before and after. */
  lemma PastAfter(w: World, st: Step, p: nat)
    requires Enabled(w, st) && p < |w.log| && InOrder(w.log[p])
    ensures p < |Apply(w, st).log|
    ensures st.Handle? && st.p == p ==>
              Past(Apply(w, st).log[p]) == w.log[p].fetched && Past(w.log[p]) == w.log[p].fetched - 1
    ensures st.Restart? && st.p == p ==> Past(Apply(w, st).log[p]) == w.log[p].committed <= Past(w.log[p])
    ensures !(st.Handle? && st.p == p) && !(st.Restart? && st.p == p) ==> Past(Apply(w, st).log[p]) == Past(w.log[p])
  {
    LogAfter(w, st, p);
  }

  /** A handled message that gives `u` a row is the last one, or the last one is still to come. */
  lemma GivenRowSettles(w: World, st: Step, f: seq<Stretch>, u: string)
    requires Undisturbed(w, st, f, u) && AllInOrder(w) && Within(w, f) && st.Handle? && RowFor(Held(w.log[st.p]), u)
    ensures var w' := Apply(w, st);
            || ToCome(w', f, st.p, u)
            || (Beyond(w', f, st.p, u) && Row(w', u) == Some(GoalRow(f[st.p], u)))
  {
    var p, j := st.p, w.log[st.p].fetched - 1;
    assert InOrder(w.log[p]);
    PastAfter(w, st, p);
    assert f[p].msgs[j] == w.log[p].msgs[j] && f[p].from <= j;
    assert j <= Goal(f[p], u);
    if st.ok { RowIsGiven(w, st, u); }
  }

  /** All other steps leave a partition's last message to come, or go back to it. */
  lemma StaysSettled(w: World, st: Step, f: seq<Stretch>, u: string, p: nat)
    requires Enabled(w, st) && AllInOrder(w) && Within(w, f) && p < |f|
    requires st.Handle? ==> !RowFor(Held(w.log[st.p]), u)
    ensures ToCome(w, f, p, u) ==> ToCome(Apply(w, st), f, p, u)
    ensures Beyond(w, f, p, u) ==> ToCome(Apply(w, st), f, p, u) || Beyond(Apply(w, st), f, p, u)
  {
    assert InOrder(w.log[p]);
    PastAfter(w, st, p);
    if st.Handle? && st.p == p { assert f[p].msgs[w.log[p].fetched - 1] == Held(w.log[p]); }
  }

  lemma SettledStep(w: World, st: Step, f: seq<Stretch>, u: string, before: Option<Session>)
    requires Undisturbed(w, st, f, u) && Sound(w) && AllInOrder(w) && Within(w, f) && Settled(w, f, u, before)
    ensures Settled(Apply(w, st), f, u, before)
  {
    var w' := Apply(w, st);
    if st.Handle? && RowFor(Held(w.log[st.p]), u) {
      GivenRowSettles(w, st, f, u);
    } else {
      RowStays(w, st, u);
      if q :| ToCome(w, f, q, u) { StaysSettled(w, st, f, u, q); }
      else if p :| Beyond(w, f, p, u) && Row(w, u) == Some(GoalRow(f[p], u)) { StaysSettled(w, st, f, u, p); }
    }
  }

  // ---------- Runs ----------

  /** The log only grows, and no partition is read from before `f`. */
  lemma {:induction false} AlwaysWithin(w0: World, tr: seq<Step>, f: seq<Stretch>)
    requires Legal(w0, tr) && AllInOrder(w0) && Always(w0, tr, (w, st) => RestartsWithin(w, st, f)) && |w0.log| == |f|
    requires forall p :: 0 <= p < |f| ==> f[p].from == Next(w0.log[p])
    requires |After(w0, tr).log| == |f| && forall p :: 0 <= p < |f| ==> After(w0, tr).log[p].msgs <= f[p].msgs
    ensures Within(After(w0, tr), f)
    ensures tr != [] ==> Within(After(w0, tr[..|tr| - 1]), f)
  {
    if tr == [] {
      forall p | 0 <= p < |f| ensures f[p].from <= Past(w0.log[p]) { assert InOrder(w0.log[p]); }
    } else {
      var init, st := tr[..|tr| - 1], tr[|tr| - 1];
      SameLogLength(After(w0, init), st);
      WithinBefore(After(w0, init), st, f);
      AlwaysWithin(w0, init, f);
      AlwaysInOrder(w0, init);
      forall p | 0 <= p < |f| ensures f[p].from <= Past(After(w0, tr).log[p]) {
        assert InOrder(After(w0, init).log[p]);
        PastAfter(After(w0, init), st, p);
      }
    }
  }

  /** From committed offsets on no restart can do otherwise. */
  lemma {:induction false} ResumedRestartsWithin(w0: World, tr: seq<Step>, f: seq<Stretch>)
    requires Legal(w0, tr) && Resumed(w0) && |w0.log| == |f| && forall p :: 0 <= p < |f| ==>
              f[p].from == Next(w0.log[p])
    ensures Always(w0, tr, (w, st) => RestartsWithin(w, st, f))
    ensures |After(w0, tr).log| == |f| && forall p :: 0 <= p < |f| ==> f[p].from <= After(w0, tr).log[p].committed
  {
    if tr != [] {
      var init, st := tr[..|tr| - 1], tr[|tr| - 1];
      ResumedRestartsWithin(w0, init, f);
      AlwaysInOrder(w0, init);
      SameLogLength(After(w0, init), st);
      forall p | 0 <= p < |f| ensures f[p].from <= After(w0, tr).log[p].committed {
        StepInOrder(After(w0, init), st, p);
      }
    }
  }

  lemma SettledAtFirst(w: World, f: seq<Stretch>, u: string)
    requires AllInOrder(w) && Within(w, f) && forall p :: 0 <= p < |f| ==> f[p].from == Next(w.log[p])
    ensures Settled(w, f, u, Row(w, u))
  {
    if p :| 0 <= p < |f| && Goal(f[p], u) >= 0 {
      assert InOrder(w.log[p]);
      assert ToCome(w, f, p, u);
    }
  }

  /** At every point of a run without direct writes of `u` in which the deliveries of the last
      messages that can give `u` a row are upserted, and nothing handled before is brought back. */
  lemma {:induction false} AlwaysSettled(w0: World, tr: seq<Step>, f: seq<Stretch>, u: string)
    requires Legal(w0, tr) && Sound(w0) && AllInOrder(w0) && |w0.log| == |f|
    requires forall p :: 0 <= p < |f| ==> f[p].from == Next(w0.log[p])
    requires Always(w0, tr, (w, st) => Undisturbed(w, st, f, u)) && Always(w0, tr, (w, st) => RestartsWithin(w, st, f))
    requires Within(After(w0, tr), f)
    ensures Settled(After(w0, tr), f, u, Row(w0, u))
  {
    AlwaysWithin(w0, tr, f);
    if tr == [] {
      SettledAtFirst(w0, f, u);
    } else {
      var init, st := tr[..|tr| - 1], tr[|tr| - 1];
      AlwaysSettled(w0, init, f, u);
      AlwaysSound(w0, init);
      AlwaysInOrder(w0, init);
      SettledStep(After(w0, init), st, f, u, Row(w0, u));
    }
  }

  /** Once everything has been handled the row is that of some last message, or the old one. */
  ghost predicate RowIsAGoal(row: Option<Session>, f: seq<Stretch>, u: string, before: Option<Session>) {
    || (exists p :: 0 <= p < |f| && Goal(f[p], u) >= 0 && row == Some(GoalRow(f[p], u)))
    || (row == before && forall p :: 0 <= p < |f| ==> Goal(f[p], u) < 0)
  }

  lemma DrainedIsAGoal(w: World, f: seq<Stretch>, u: string, before: Option<Session>)
    requires Settled(w, f, u, before) && Drained(w)
    requires |w.log| == |f| && forall p :: 0 <= p < |f| ==> f[p].msgs == w.log[p].msgs
    ensures RowIsAGoal(Row(w, u), f, u, before)
  {
    assert forall q :: !ToCome(w, f, q, u);
  }

  lemma DrainedRowIsAGoal(w0: World, tr: seq<Step>, f: seq<Stretch>, u: string)
    requires Legal(w0, tr) && Sound(w0) && AllInOrder(w0) && Drained(After(w0, tr))
    requires |After(w0, tr).log| == |w0.log| && f == Stretches(w0, After(w0, tr))
    requires Always(w0, tr, (w, st) => Undisturbed(w, st, f, u)) && Always(w0, tr, (w, st) => RestartsWithin(w, st, f))
    ensures RowIsAGoal(Row(After(w0, tr), u), f, u, Row(w0, u))
  {
    AlwaysWithin(w0, tr, f);
    AlwaysSettled(w0, tr, f, u);
    DrainedIsAGoal(After(w0, tr), f, u, Row(w0, u));
  }

  // ---------- One partition: at least once is exactly once ----------

  /** Applying messages once, in order; a position that does not fit is refused. */
  function ApplyOnce(table: map<string, Session>, msgs: seq<Message>): map<string, Session> {
    if msgs == [] then table else
      var t, m := ApplyOnce(table, msgs[..|msgs| - 1]), msgs[|msgs| - 1];
      if m.Beat? && Fits(m.s) then t[m.s.user := Stored(m.s)] else t
  }

  function Lookup(t: map<string, Session>, u: string): Option<Session> {
    if u in t then Some(t[u]) else None
  }

  /** One pass from `from` on leaves the row of the last message that can give one. */
  lemma {:induction false} ApplyOnceRow(table: map<string, Session>, msgs: seq<Message>, from: nat, u: string)
    requires from <= |msgs|
    ensures Lookup(ApplyOnce(table, msgs[from..]), u) ==
            if LastFrom(msgs, from, u) >= 0 then Some(Stored(msgs[LastFrom(msgs, from, u)].s)) else Lookup(table, u)
  {
    if from < |msgs| {
      var init := msgs[..|msgs| - 1];
      assert msgs[from..][..|msgs[from..]| - 1] == init[from..];
      ApplyOnceRow(table, init, from, u);
    }
  }

  ghost predicate Finished(w0: World, tr: seq<Step>) {
    && Legal(w0, tr) && Sound(w0) && Resumed(w0) && |w0.log| == 1
    && |After(w0, tr).log| == 1 && Drained(After(w0, tr))
  }

  /** The part of the final log that had not been committed at first. */
  function Suffix(w0: World, w: World): seq<Message>
    requires |w0.log| == 1 && |w.log| == 1
  {
    if w0.log[0].committed <= |w.log[0].msgs| then w.log[0].msgs[w0.log[0].committed..] else []
  }

  /** A row that the last message asked for, if there was one, is what one pass leaves. */
  lemma GoalIsReplay(w0: World, w: World, u: string)
    requires |w0.log| == 1 && |w.log| == 1 && Next(w0.log[0]) == w0.log[0].committed <= |w.log[0].msgs|
    requires RowIsAGoal(Row(w, u), Stretches(w0, w), u, Row(w0, u))
    ensures Row(w, u) == Lookup(ApplyOnce(w0.table, Suffix(w0, w)), u)
  {
    assert Stretches(w0, w)[0] == Stretch(w.log[0].msgs, w0.log[0].committed);
    ApplyOnceRow(w0.table, w.log[0].msgs, w0.log[0].committed, u);
  }

  /** For one user: any restarts, failed commits and redeliveries, undecodable messages, failed
      upserts and arrivals drain to the row of applying the log once in order, if no request
      writes the row directly and the last message that can give one is upserted when delivered. */
  lemma DrainedRowIsReplay(w0: World, tr: seq<Step>, w: World, u: string)
    requires Finished(w0, tr) && w == After(w0, tr)
    requires Always(w0, tr, (v, st) => Undisturbed(v, st, Stretches(w0, w), u))
    ensures Row(w, u) == Lookup(ApplyOnce(w0.table, Suffix(w0, w)), u)
  {
    ResumedRestartsWithin(w0, tr, Stretches(w0, w));
    DrainedRowIsAGoal(w0, tr, Stretches(w0, w), u);
    CommittedInLog(w0, tr);
    GoalIsReplay(w0, w, u);
  }

  lemma CommittedInLog(w0: World, tr: seq<Step>)
    requires Finished(w0, tr)
    ensures Next(w0.log[0]) == w0.log[0].committed <= |After(w0, tr).log[0].msgs|
  {
    ResumedRestartsWithin(w0, tr, Stretches(w0, w0));
    AlwaysInOrder(w0, tr);
    assert InOrder(After(w0, tr).log[0]);
  }

  lemma SameRowsSameTable(t: map<string, Session>, t': map<string, Session>)
    requires forall u :: Lookup(t, u) == Lookup(t', u)
    ensures t == t'
  {
    assert forall u :: (u in t <==> Lookup(t, u).Some?) && (u in t' <==> Lookup(t', u).Some?);
    assert forall u :: u in t' ==> Lookup(t, u) == Some(t'[u]);
  }

  /** And the whole table, if that holds of every user. */
  lemma DrainedTableIsReplay(w0: World, tr: seq<Step>, w: World)
    requires Finished(w0, tr) && w == After(w0, tr)
    requires Always(w0, tr, (v, st) => forall u :: Undisturbed(v, st, Stretches(w0, w), u))
    ensures w.table == ApplyOnce(w0.table, Suffix(w0, w))
  {
    var f := Stretches(w0, w);
    forall u ensures Lookup(w.table, u) == Lookup(ApplyOnce(w0.table, Suffix(w0, w)), u) {
      AlwaysWeaken(w0, tr, (v, st) => forall u :: Undisturbed(v, st, f, u), (v, st) => Undisturbed(v, st, f, u));
      DrainedRowIsReplay(w0, tr, w, u);
    }
    SameRowsSameTable(w.table, ApplyOnce(w0.table, Suffix(w0, w)));
  }

  /** No request writes the table, and the consumer's upserts work as far as the column allows. */
  predicate OnlyConsumed(w: World, st: Step) {
    Enabled(w, st) && !st.Upsert? && (st.Handle? ==> st.ok)
  }

  lemma AtLeastOnceIsExactlyOnce(w0: World, tr: seq<Step>, w: World)
    requires Legal(w0, tr) && Sound(w0) && Resumed(w0) && |w0.log| == 1 && Always(w0, tr, OnlyConsumed)
    requires w == After(w0, tr)
    ensures |w.log| == 1 && (Drained(w) ==> w.table == ApplyOnce(w0.table, Suffix(w0, w)))
  {
    SamePartitions(w0, tr);
    var f := Stretches(w0, w);
    AlwaysWeaken(w0, tr, OnlyConsumed, (v, st) => forall u :: Undisturbed(v, st, f, u));
    if Drained(w) { DrainedTableIsReplay(w0, tr, w); }
  }
}
