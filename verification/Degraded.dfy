/** When PostgreSQL alone, without the cache, shows the last accepted write. */
module Degraded {
  import opened Model
  import opened Machine
  import opened Frames
  import opened Requests
  import opened Offsets
  import opened Pending
  import opened Regression
  import opened LastWrite

  ghost predicate RowOlder(w: World, u: string, t: int) {
    Row(w, u).Some? ==> Row(w, u).value.stamp < Micro(t)
  }

  /** The clock moves on by a microsecond also since the stamp in the row. */
  ghost predicate Steady(w: World, st: Step, u: string) {
    Dependable(w, st, u) && (StampsFor(w, st, u) ==> RowOlder(w, u, w.now))
  }

  /** Program points of a request with its own stamp that has not written anything durable. */
  predicate Unwritten(c: Call) {
    Stamped(c) && !c.pc.StartCache? && !c.pc.ModCache?
  }

  /** The messages of `u`, but for the last one if `last` was published, are older than `last`. */
  ghost predicate OthersOlder(w: World, u: string, last: Write)
    requires |w.log| == 1
  {
    && (last.published ==> Last(w, 0, u) >= 0 && w.log[0].msgs[Last(w, 0, u)].s == last.s)
    && forall i :: 0 <= i < |w.log[0].msgs| && IsOf(w.log[0].msgs[i], u) && !(last.published && i == Last(w, 0, u)) ==>
         Micro(w.log[0].msgs[i].s.stamp) < Micro(last.s.stamp)
  }

  predicate Current(w: World, u: string, last: Write)
    requires |w.log| == 1
  {
    if last.published then !Behind(w, 0, u) else !last.overrun
  }

  /** Nothing of `u` in the log or the row is as new as what its request is still to write. */
  ghost predicate Ahead(w: World, u: string) {
    forall id :: Active(w, id, u) && Unwritten(w.calls[id]) ==>
      MessagesOlder(w, u, w.calls[id].obj.value.stamp) && RowOlder(w, u, w.calls[id].obj.value.stamp)
  }

  /** The row is the last accepted write if that write is current, and older if not. */
  ghost predicate Shows(w: World, u: string, last: Option<Write>) {
    && |w.log| == 1
    && (last.None? ==> Row(w, u) == None && Last(w, 0, u) < 0)
    && (last.Some? ==>
          && OthersOlder(w, u, last.value)
          && if Current(w, u, last.value) then Row(w, u) == Some(Stored(last.value.s))
             else RowOlder(w, u, last.value.s.stamp))
  }

  ghost predicate Shown(w: World, u: string, last: Option<Write>) {
    Sound(w) && OneActive(w, u) && Ahead(w, u) && Shows(w, u, last) && InOrder(w.log[0])
  }

  // ---------- One step ----------

  /** A step that is no write of `u` only handles messages of `u`, if it changes the row at all. */
  lemma RowAfter(w: World, st: Step, u: string)
    requires Enabled(w, st) && Sound(w) && !(st.Upsert? && w.calls[st.id].op.user == u)
    ensures Row(Apply(w, st), u) == Row(w, u) ||
            (st.Handle? && IsOf(Held(w.log[st.p]), u) && Row(Apply(w, st), u) == Some(Stored(Held(w.log[st.p]).s)))
  {
    TableAfter(w, st);
  }

  lemma RowOlderKept(w: World, st: Step, u: string, t: int)
    requires Enabled(w, st) && Sound(w) && !(st.Upsert? && w.calls[st.id].op.user == u)
    requires MessagesOlder(w, u, t) && RowOlder(w, u, t)
    ensures RowOlder(Apply(w, st), u, t)
  {
    RowAfter(w, st, u);
  }

  lemma AheadStep(w: World, st: Step, u: string, id: nat)
    requires Steady(w, st, u) && Sound(w) && OneActive(w, u) && Ahead(w, u)
    requires Active(Apply(w, st), id, u) && Unwritten(Apply(w, st).calls[id])
    ensures MessagesOlder(Apply(w, st), u, Apply(w, st).calls[id].obj.value.stamp)
    ensures RowOlder(Apply(w, st), u, Apply(w, st).calls[id].obj.value.stamp)
  {
    StampedBefore(w, st, id, u);
    NotWritten(w, st, u, id);
    var t := Apply(w, st).calls[id].obj.value.stamp;
    OlderKept(w, st, u, t);
    RowOlderKept(w, st, u, t);
  }

  lemma NotWritten(w: World, st: Step, u: string, id: nat)
    requires Enabled(w, st) && OneActive(w, u)
    requires Active(Apply(w, st), id, u) && Unwritten(Apply(w, st).calls[id])
    ensures !(st.Upsert? && w.calls[st.id].op.user == u)
    ensures st.Publish? && w.calls[st.id].op.user == u ==> st.where.None?
    ensures (StampsFor(w, st, u) && By(st, id)) || (Active(w, id, u) && Unwritten(w.calls[id]))
  {
    ActiveBefore(w, st, id, u);
    if !By(st, id) { CallsAfter(w, st, id); }
    if st.Upsert? || st.Publish? {
      assert w.calls[st.id].op.user == u ==> Active(w, st.id, u);
    }
  }

  lemma SameMessages(w: World, st: Step, u: string)
    requires Enabled(w, st) && Sound(w) && |w.log| == 1
    requires !(st.Publish? && w.calls[st.id].op.user == u && Arrives(w, st, 0) != [])
    ensures |Apply(w, st).log| == 1 && Last(Apply(w, st), 0, u) == Last(w, 0, u)
    ensures forall i :: 0 <= i < |w.log[0].msgs| ==>
              i < |Apply(w, st).log[0].msgs| && Apply(w, st).log[0].msgs[i] == w.log[0].msgs[i]
    ensures forall i :: |w.log[0].msgs| <= i < |Apply(w, st).log[0].msgs| ==> !IsOf(Apply(w, st).log[0].msgs[i], u)
  {
    SameLogLength(w, st);
    LogAfter(w, st, 0);
    if Arrives(w, st, 0) != [] {
      LastOfAppended(w.log[0].msgs, Arrives(w, st, 0)[0], u);
    } else {
      assert w.log[0].msgs + [] == w.log[0].msgs;
    }
  }

  lemma StillBehind(w: World, st: Step, u: string)
    requires Working(w, st, u) && OfConsumer(st) && !(st.Handle? && IsOf(Held(w.log[st.p]), u))
    requires |w.log| == 1 && InOrder(w.log[0])
    ensures |Apply(w, st).log| == 1 && Apply(w, st).log[0].msgs == w.log[0].msgs
    ensures Behind(Apply(w, st), 0, u) == Behind(w, 0, u) && Last(Apply(w, st), 0, u) == Last(w, 0, u)
  {
    MessagesFixed(w, st, u);
  }

  /** A consumer step that is no delivery of `u` changes nothing that matters here. */
  lemma QuietShows(w: World, st: Step, u: string, last: Option<Write>)
    requires Steady(w, st, u) && Shown(w, u, last) && OfConsumer(st) && !(st.Handle? && IsOf(Held(w.log[st.p]), u))
    ensures Shows(Apply(w, st), u, NextWrite(w, st, u, last))
  {
    StillBehind(w, st, u);
    RowAfter(w, st, u);
  }

  lemma HandleShows(w: World, st: Step, u: string, last: Option<Write>)
    requires Steady(w, st, u) && Shown(w, u, last) && st.Handle? && IsOf(Held(w.log[st.p]), u)
    ensures Shows(Apply(w, st), u, NextWrite(w, st, u, last))
  {
    MessagesFixed(w, st, u);
    TableAfter(w, st);
    assert Upserted(w, st).Some? ==> Row(Apply(w, st), u) == Some(Stored(Held(w.log[0]).s));
  }

  lemma OtherShows(w: World, st: Step, u: string, last: Option<Write>)
    requires Steady(w, st, u) && Shown(w, u, last) && !OfConsumer(st)
    requires !(st.Upsert? && w.calls[st.id].op.user == u)
    requires !(st.Publish? && w.calls[st.id].op.user == u && Arrives(w, st, 0) != [])
    ensures Shows(Apply(w, st), u, NextWrite(w, st, u, last))
  {
    SameMessages(w, st, u);
    RowAfter(w, st, u);
    LogAfter(w, st, 0);
  }

  lemma UpsertShows(w: World, st: Step, u: string, last: Option<Write>)
    requires Steady(w, st, u) && Shown(w, u, last) && st.Upsert? && w.calls[st.id].op.user == u
    ensures Shows(Apply(w, st), u, NextWrite(w, st, u, last))
  {
    assert Active(w, st.id, u) && Unwritten(w.calls[st.id]);
    TableAfter(w, st);
    assert Apply(w, st).log == w.log;
  }

  lemma PublishShows(w: World, st: Step, u: string, last: Option<Write>)
    requires Steady(w, st, u) && Shown(w, u, last) && st.Publish? && w.calls[st.id].op.user == u
    requires Arrives(w, st, 0) != []
    ensures Shows(Apply(w, st), u, NextWrite(w, st, u, last))
  {
    assert Active(w, st.id, u) && Unwritten(w.calls[st.id]);
    ArrivalAppends(w, st, u);
  }

  lemma ShownStep(w: World, st: Step, u: string, last: Option<Write>)
    requires Steady(w, st, u) && Shown(w, u, last)
    ensures Shown(Apply(w, st), u, NextWrite(w, st, u, last))
  {
    SoundKept(w, st);
    OneActiveKept(w, st, u);
    StepInOrder(w, st, 0);
    forall id | Active(Apply(w, st), id, u) && Unwritten(Apply(w, st).calls[id])
      ensures MessagesOlder(Apply(w, st), u, Apply(w, st).calls[id].obj.value.stamp)
      ensures RowOlder(Apply(w, st), u, Apply(w, st).calls[id].obj.value.stamp)
    {
      AheadStep(w, st, u, id);
    }
    if st.Handle? && IsOf(Held(w.log[st.p]), u) { HandleShows(w, st, u, last); }
    else if OfConsumer(st) { QuietShows(w, st, u, last); }
    else if st.Upsert? && w.calls[st.id].op.user == u { UpsertShows(w, st, u, last); }
    else if st.Publish? && w.calls[st.id].op.user == u && Arrives(w, st, 0) != [] { PublishShows(w, st, u, last); }
    else { OtherShows(w, st, u, last); }
  }

  lemma {:induction false} AlwaysShown(now: int, tr: seq<Step>, u: string)
    requires Legal(Init(1, now), tr) && Always(Init(1, now), tr, (w, st) => Steady(w, st, u))
    ensures Shown(After(Init(1, now), tr), u, Latest(Init(1, now), tr, u))
    decreases |tr|
  {
    if tr != [] {
      var w0, init := Init(1, now), tr[..|tr| - 1];
      AlwaysShown(now, init, u);
      ShownStep(After(w0, init), tr[|tr| - 1], u, Latest(w0, init, u));
    }
  }

  predicate CurrentIff(w: World, u: string, last: Write) {
    |w.log| == 1 && (Row(w, u) == Some(Stored(last.s)) <==> Current(w, u, last))
  }

  /** The row of `u` is the last accepted write if and only if that write was published and has
      been consumed, or was direct and no older heartbeat of `u` has been consumed since. So a
      reader who falls back to PostgreSQL sees the newest state exactly then. */
  lemma RowIsCurrentIff(w0: World, now: int, tr: seq<Step>, u: string, last: Write)
    requires w0 == Init(1, now) && Legal(w0, tr) && Always(w0, tr, (w, st) => Steady(w, st, u))
    requires Latest(w0, tr, u) == Some(last)
    ensures CurrentIff(After(w0, tr), u, last)
  {
    AlwaysShown(now, tr, u);
  }
}
