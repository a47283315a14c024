/** Which write of a user the table ends up with once the log is drained. */
module LastWrite {
  import opened Model
  import opened Machine
  import opened Frames
  import opened Requests
  import opened Offsets
  import opened Pending
  import opened Regression

  /** An accepted write. `overtaken`: it went straight to the table while an older heartbeat of
      the user was still pending in the log; `overrun`: a heartbeat has been written over it since. */
  datatype Write = Write(s: Session, published: bool, overtaken: bool, overrun: bool)

  function NextWrite(w: World, st: Step, u: string, last: Option<Write>): Option<Write>
    requires Enabled(w, st) && |w.log| == 1
  {
    if st.Upsert? && w.calls[st.id].op.user == u && Upserted(w, st).Some? then
      Some(Write(w.calls[st.id].obj.value, false, Behind(w, 0, u), false))
    else if st.Publish? && w.calls[st.id].op.user == u && Arrives(w, st, 0) != [] then
      Some(Write(w.calls[st.id].obj.value, true, false, false))
    else if st.Handle? && IsOf(Held(w.log[st.p]), u) && Upserted(w, st).Some? && last.Some? &&
            !last.value.published then
      Some(last.value.(overrun := true))
    else last
  }

  /** The last accepted write of `u` in the run. */
  ghost function Latest(w0: World, tr: seq<Step>, u: string): Option<Write>
    requires Legal(w0, tr) && |w0.log| == 1
  {
    if tr == [] then None else
      SamePartitions(w0, tr[..|tr| - 1]);
      NextWrite(After(w0, tr[..|tr| - 1]), tr[|tr| - 1], u, Latest(w0, tr[..|tr| - 1], u))
  }

  /** The row that draining the log, with working upserts, leaves for `u`. */
  function DrainRow(w: World, u: string): Option<Session>
    requires |w.log| == 1
  {
    if Behind(w, 0, u) then Some(FinalRow(w, 0, u)) else Row(w, u)
  }

  lemma DrainRowIsReached(w: World, u: string)
    requires |w.log| == 1 && Past(w.log[0]) == |w.log[0].msgs|
    ensures DrainRow(w, u) == Row(w, u)
  {
  }

  /** Every published heartbeat of `u` is at least a microsecond older than `t`. */
  ghost predicate MessagesOlder(w: World, u: string, t: int) {
    forall p, i :: 0 <= p < |w.log| && 0 <= i < |w.log[p].msgs| && IsOf(w.log[p].msgs[i], u) ==>
      Micro(w.log[p].msgs[i].s.stamp) < Micro(t)
  }

  /** A restart of the partition does not bring back the last message of `u`, or that is still to
      come anyway. */
  predicate RestartIsHarmless(w: World, p: nat, u: string)
    requires p < |w.log|
  {
    Behind(w, p, u) || Last(w, p, u) < w.log[p].committed
  }

  /** One request at a time, harmless restarts, and upserts that work if they are the user's own or
      those of the last message of `u`. */
  ghost predicate Working(w: World, st: Step, u: string) {
    && Enabled(w, st) && NoOverlap(w, st, u) && (st.Restart? ==> RestartIsHarmless(w, st.p, u))
    && (st.Upsert? && w.calls[st.id].op.user == u ==> st.ok && Fits(w.calls[st.id].obj.value))
    && (st.Handle? && Last(w, st.p, u) == w.log[st.p].fetched - 1 ==> st.ok && Fits(Held(w.log[st.p]).s))
  }

  /** Besides, the clock moves on by a microsecond between the stamps of the user. */
  ghost predicate Dependable(w: World, st: Step, u: string) {
    Working(w, st, u) && (StampsFor(w, st, u) ==> MessagesOlder(w, u, w.now))
  }

  lemma LastOfAppended(msgs: seq<Message>, m: Message, u: string)
    ensures LastOf(msgs + [m], u) == if IsOf(m, u) then |msgs| else LastOf(msgs, u)
  {
    assert (msgs + [m])[..|msgs|] == msgs;
  }

  /** Only a write of `u` changes what the drained row will be. */
  lemma DrainRowStep(w: World, st: Step, u: string)
    requires Working(w, st, u) && Sound(w) && |w.log| == 1 && InOrder(w.log[0])
    ensures |Apply(w, st).log| == 1 && InOrder(Apply(w, st).log[0])
    ensures DrainRow(Apply(w, st), u) ==
            if st.Publish? && w.calls[st.id].op.user == u && Arrives(w, st, 0) != []
            then Some(Stored(w.calls[st.id].obj.value))
            else if st.Upsert? && w.calls[st.id].op.user == u && !Behind(w, 0, u)
            then Some(Stored(w.calls[st.id].obj.value))
            else DrainRow(w, u)
  {
    SameLogLength(w, st);
    StepInOrder(w, st, 0);
    if OfConsumer(st) {
      ConsumerDrainRow(w, st, u);
    } else if Arrives(w, st, 0) != [] {
      ArrivalDrainRow(w, st, u);
    } else {
      LogAfter(w, st, 0);
      TableAfter(w, st);
      assert w.log[0].msgs + [] == w.log[0].msgs;
    }
  }

  /** The message goes to the end of the log, the table and the reader stay. */
  lemma ArrivalAppends(w: World, st: Step, u: string)
    requires Enabled(w, st) && Sound(w) && |w.log| == 1 && Arrives(w, st, 0) != []
    ensures |Apply(w, st).log| == 1 && Past(Apply(w, st).log[0]) == Past(w.log[0]) && Row(Apply(w, st), u) == Row(w, u)
    ensures Apply(w, st).log[0].msgs == w.log[0].msgs + Arrives(w, st, 0) && |Arrives(w, st, 0)| == 1
    ensures Last(Apply(w, st), 0, u) ==
            if st.Publish? && w.calls[st.id].op.user == u then |w.log[0].msgs| else Last(w, 0, u)
  {
    SameLogLength(w, st);
    LogAfter(w, st, 0);
    LastOfAppended(w.log[0].msgs, Arrives(w, st, 0)[0], u);
    assert Apply(w, st).table == w.table;
  }

  lemma ArrivalDrainRow(w: World, st: Step, u: string)
    requires Enabled(w, st) && Sound(w) && |w.log| == 1 && InOrder(w.log[0]) && Arrives(w, st, 0) != []
    ensures |Apply(w, st).log| == 1
    ensures DrainRow(Apply(w, st), u) ==
            if st.Publish? && w.calls[st.id].op.user == u then Some(Stored(w.calls[st.id].obj.value))
            else DrainRow(w, u)
  {
    ArrivalAppends(w, st, u);
    assert Behind(Apply(w, st), 0, u) == if st.Publish? && w.calls[st.id].op.user == u then true else Behind(w, 0, u);
  }

  lemma ConsumerDrainRow(w: World, st: Step, u: string)
    requires Working(w, st, u) && OfConsumer(st) && |w.log| == 1 && InOrder(w.log[0])
    ensures |Apply(w, st).log| == 1 && DrainRow(Apply(w, st), u) == DrainRow(w, u)
  {
    MessagesFixed(w, st, u);
    TableAfter(w, st);
  }

  // ---------- The invariant ----------

  ghost predicate Tracked(w: World, u: string, last: Option<Write>) {
    && Sound(w) && OneActive(w, u) && |w.log| == 1 && InOrder(w.log[0])
    && (forall id :: Active(w, id, u) && Stamped(w.calls[id]) ==> MessagesOlder(w, u, w.calls[id].obj.value.stamp))
    && (last.Some? ==>
          (DrainRow(w, u) == Some(Stored(last.value.s)) <==> last.value.published || !last.value.overtaken))
    && (last.None? ==> DrainRow(w, u) == None)
  }

  lemma OlderKept(w: World, st: Step, u: string, t: int)
    requires Enabled(w, st) && MessagesOlder(w, u, t) && Sound(w)
    requires st.Publish? && w.calls[st.id].op.user == u ==> st.where.None?
    ensures MessagesOlder(Apply(w, st), u, t)
  {
    SameLogLength(w, st);
    forall p: nat | p < |w.log|
      ensures Apply(w, st).log[p].msgs == w.log[p].msgs + Arrives(w, st, p)
    {
      LogAfter(w, st, p);
    }
  }

  lemma OlderStep(w: World, st: Step, u: string, id: nat)
    requires Dependable(w, st, u) && Sound(w) && OneActive(w, u)
    requires forall j :: Active(w, j, u) && Stamped(w.calls[j]) ==> MessagesOlder(w, u, w.calls[j].obj.value.stamp)
    requires Active(Apply(w, st), id, u) && Stamped(Apply(w, st).calls[id])
    ensures MessagesOlder(Apply(w, st), u, Apply(w, st).calls[id].obj.value.stamp)
  {
    StampedBefore(w, st, id, u);
    if StampsFor(w, st, u) && By(st, id) {
      OlderKept(w, st, u, w.now);
    } else {
      assert st.Publish? && w.calls[st.id].op.user == u ==> Active(w, st.id, u) && st.id == id;
      OlderKept(w, st, u, w.calls[id].obj.value.stamp);
    }
  }

  lemma TrackedStep(w: World, st: Step, u: string, last: Option<Write>)
    requires Dependable(w, st, u) && Tracked(w, u, last)
    ensures Tracked(Apply(w, st), u, NextWrite(w, st, u, last))
  {
    SoundKept(w, st);
    OneActiveKept(w, st, u);
    DrainRowStep(w, st, u);
    forall id | Active(Apply(w, st), id, u) && Stamped(Apply(w, st).calls[id])
      ensures MessagesOlder(Apply(w, st), u, Apply(w, st).calls[id].obj.value.stamp)
    {
      OlderStep(w, st, u, id);
    }
    if st.Upsert? && w.calls[st.id].op.user == u {
      assert Active(w, st.id, u) && Stamped(w.calls[st.id]);
      assert Behind(w, 0, u) ==> IsOf(w.log[0].msgs[Last(w, 0, u)], u);
    }
  }

  lemma {:induction false} AlwaysTracked(now: int, tr: seq<Step>, u: string)
    requires Legal(Init(1, now), tr) && Always(Init(1, now), tr, (w, st) => Dependable(w, st, u))
    ensures Tracked(After(Init(1, now), tr), u, Latest(Init(1, now), tr, u))
    decreases |tr|
  {
    if tr != [] {
      var w0, init := Init(1, now), tr[..|tr| - 1];
      AlwaysTracked(now, init, u);
      TrackedStep(After(w0, init), tr[|tr| - 1], u, Latest(w0, init, u));
    }
  }

  /** `last`, if any, survives if and only if it was published, or no older heartbeat was
      pending when it was written directly. */
  predicate SurvivesIff(row: Option<Session>, last: Option<Write>) {
    last.Some? ==> (row == Some(Stored(last.value.s)) <==> last.value.published || !last.value.overtaken)
  }

  /** In every run draining the log leaves the last accepted write of `u` in the table in
      exactly these cases; once the log is drained that is the row itself. */
  lemma LastWriteSurvivesIff(w0: World, now: int, tr: seq<Step>, w: World, u: string)
    requires w0 == Init(1, now) && Legal(w0, tr) && Always(w0, tr, (w, st) => Dependable(w, st, u)) &&
             w == After(w0, tr)
    ensures |w.log| == 1 && SurvivesIff(DrainRow(w, u), Latest(w0, tr, u))
    ensures Past(w.log[0]) == |w.log[0].msgs| ==> SurvivesIff(Row(w, u), Latest(w0, tr, u))
  {
    AlwaysTracked(now, tr, u);
  }
}
