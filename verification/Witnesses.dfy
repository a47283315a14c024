/** Concrete runs that end where the documentation says none can, most of them with one request of
    the user at a time. */
module Witnesses {
  import opened Model
  import opened Machine
  import opened Frames
  import opened Confluence
  import opened Conservation
  import opened Freshness
  import opened Offsets
  import opened Regression
  import opened Replay

  const Beginning := Op.Start("user", "track", 0, "phone")
  const First := Op.Heartbeat("user", "track", 1, "phone")
  const Second := Op.Heartbeat("user", "track", 2, "phone")

  ghost predicate Serial(tr: seq<Step>, w: World) {
    && Legal(Init(1, 0), tr) && After(Init(1, 0), tr) == w
    && Always(Init(1, 0), tr, (w, st) => NoOverlap(w, st, "user"))
  }

  lemma Take(tr: seq<Step>, w: World, st: Step) returns (tr': seq<Step>, w': World)
    requires Serial(tr, w) && Enabled(w, st) && NoOverlap(w, st, "user")
    ensures tr' == tr + [st] && w' == Apply(w, st) && Serial(tr', w')
  {
    Extend(Init(1, 0), tr, st);
    tr', w' := tr + [st], Apply(w, st);
  }

  predicate Ended(w: World, id: nat, op: Op, result: Result) {
    id in w.calls && w.calls[id] == Call(op, Done(result), w.calls[id].obj)
  }

  // ---------- Heartbeats ----------

  lemma FirstPublished() returns (tr: seq<Step>, w: World)
    ensures Serial(tr, w) && w.calls == map[0 := Call(First, Done(Acked(false)), Some(Fresh(First, 0)))]
    ensures w.log == [Partition([Beat(0, Fresh(First, 0))], 0, 0, false, [])] && w.table == map[] && w.now == 0
  {
    tr, w := Take([], Init(1, 0), Begin(0, First));
    tr, w := Take(tr, w, CacheSet(0, true));
    tr, w := Take(tr, w, Publish(0, Some(0)));
    assert w.log[0] == Partition([Beat(0, Fresh(First, 0))], 0, 0, false, []);
  }

  /** The heartbeat was accepted and its offset is committed, but there is no row: an upsert
      that fails in the consumer is not tried again. */
  lemma AcceptedHeartbeatCanBeLost() returns (tr: seq<Step>, w: World)
    ensures Serial(tr, w) && Ended(w, 0, First, Acked(false))
    ensures Drained(w) && (forall p :: 0 <= p < |w.log| ==> w.log[p].committed == |w.log[p].msgs| == 1)
    ensures Row(w, "user") == None
  {
    tr, w := FirstPublished();
    tr, w := Take(tr, w, Fetch(0));
    tr, w := Take(tr, w, Handle(0, false));
    tr, w := Take(tr, w, Commit(0));
  }

  /** A heartbeat whose first delivery failed is not lost while its offset is not committed: after
      a restart it is delivered again and written. */
  lemma DroppedCanStillBeWritten() returns (tr: seq<Step>, w: World)
    ensures Serial(tr, w) && Ended(w, 0, First, Acked(false))
    ensures IsDropped(w, 0) && Row(w, "user") == Some(Fresh(First, 0))
  {
    tr, w := FirstFetchedAgain();
    tr, w := Take(tr, w, Handle(0, true));
    assert Sits(w, 0, 0, 0) && FateIs(w, 0, 0, Dropped);
  }

  lemma FirstFetchedAgain() returns (tr: seq<Step>, w: World)
    ensures Serial(tr, w) && Ended(w, 0, First, Acked(false))
    ensures w.log == [Partition([Beat(0, Fresh(First, 0))], 1, 0, true, [Dropped])] && w.table == map[]
  {
    tr, w := FirstFailed();
    tr, w := Take(tr, w, Restart(0));
    tr, w := Take(tr, w, Fetch(0));
    assert w.log[0] == Partition([Beat(0, Fresh(First, 0))], 1, 0, true, [Dropped]);
  }

  lemma FirstFailed() returns (tr: seq<Step>, w: World)
    ensures Serial(tr, w) && Ended(w, 0, First, Acked(false))
    ensures w.log == [Partition([Beat(0, Fresh(First, 0))], 1, 0, false, [Dropped])] && w.table == map[]
  {
    tr, w := FirstPublished();
    tr, w := Take(tr, w, Fetch(0));
    tr, w := Take(tr, w, Handle(0, false));
    assert w.log[0] == Partition([Beat(0, Fresh(First, 0))], 1, 0, false, [Dropped]);
  }

  lemma SecondFellBack() returns (tr: seq<Step>, w: World)
    ensures Serial(tr, w) && Ended(w, 0, First, Acked(false)) && Ended(w, 1, Second, Acked(true))
    ensures w.log == [Partition([Beat(0, Fresh(First, 0))], 0, 0, false, [])] &&
            CacheHas(w, "user", Fresh(Second, SECOND))
  {
    tr, w := SecondCached();
    tr, w := Take(tr, w, Publish(1, None));
    tr, w := Take(tr, w, Upsert(1, true));
  }

  lemma SecondCached() returns (tr: seq<Step>, w: World)
    ensures Serial(tr, w) && w.now == SECOND && CacheHas(w, "user", Fresh(Second, SECOND))
    ensures w.calls == map[0 := Call(First, Done(Acked(false)), Some(Fresh(First, 0))),
                           1 := Call(Second, BeatPublish, Some(Fresh(Second, SECOND)))]
    ensures w.log == [Partition([Beat(0, Fresh(First, 0))], 0, 0, false, [])]
  {
    tr, w := FirstPublished();
    tr, w := Take(tr, w, Tick(SECOND));
    tr, w := Take(tr, w, Begin(1, Second));
    tr, w := Take(tr, w, CacheSet(1, true));
  }

  /** The second heartbeat went to the table because it could not be published; with every
      message consumed and every upsert a success, the row is the first one. */
  lemma FallbackCanBeOverwritten() returns (tr: seq<Step>, w: World)
    ensures Serial(tr, w) && Ended(w, 0, First, Acked(false)) && Ended(w, 1, Second, Acked(true))
    ensures Drained(w) && Row(w, "user") == Some(Fresh(First, 0)) && CacheHas(w, "user", Fresh(Second, SECOND))
  {
    tr, w := SecondFellBack();
    tr, w := Take(tr, w, Fetch(0));
    tr, w := Take(tr, w, Handle(0, true));
  }

  // ---------- Reads ----------

  lemma JustBegun() returns (tr: seq<Step>, w: World)
    ensures Serial(tr, w) &&
            w == Init(1, 0).(calls := map[0 := Call(Beginning, StartUpsert, Some(Fresh(Beginning, 0)))])
  {
    tr, w := Take([], Init(1, 0), Begin(0, Beginning));
  }

  lemma BegunUpserted() returns (tr: seq<Step>, w: World)
    ensures Serial(tr, w)
    ensures w == World(map["user" := Fresh(Beginning, 0)], map[], [EmptyPartition],
                       map[0 := Call(Beginning, StartCache, Some(Fresh(Beginning, 0)))], map[], 0)
  {
    tr, w := JustBegun();
    tr, w := Take(tr, w, Upsert(0, true));
    assert w.log == [EmptyPartition];
  }

  lemma BegunUncached() returns (tr: seq<Step>, w: World)
    ensures Serial(tr, w)
    ensures w == World(map["user" := Fresh(Beginning, 0)], map[], [EmptyPartition],
                       map[0 := Call(Beginning, Done(Answered), Some(Fresh(Beginning, 0)))], map[], 0)
  {
    tr, w := BegunUpserted();
    tr, w := Take(tr, w, CacheSet(0, false));
  }

  lemma MissedAndRead() returns (tr: seq<Step>, w: World)
    ensures var c := Some(Fresh(Beginning, 0));
            Serial(tr, w) && w.calls == map[0 := Call(Beginning, Done(Answered), c),
                1 := Call(GetCurrent("user"), Done(Answered), c)]
    ensures w.warms == map[1 := Unread] && w.log == [EmptyPartition] && w.now == 0
    ensures w.table == map["user" := Fresh(Beginning, 0)]
  {
    tr, w := BegunUncached();
    tr, w := Take(tr, w, Begin(1, GetCurrent("user")));
    tr, w := Take(tr, w, CacheGet(1, true));
    tr, w := Take(tr, w, TableGet(1, true));
  }

  lemma WarmMarshalled() returns (tr: seq<Step>, w: World)
    ensures var c := Some(Fresh(Beginning, 0));
            Serial(tr, w) && w.calls == map[0 := Call(Beginning, Done(Answered), c),
                1 := Call(GetCurrent("user"), Done(Answered), c)]
    ensures w.warms == map[1 := Marshalled(Fresh(Beginning, 0))] && w.log == [EmptyPartition] && w.now == 0
    ensures w.table == map["user" := Fresh(Beginning, 0)]
  {
    tr, w := MissedAndRead();
    tr, w := Take(tr, w, WarmRead(1));
    tr, w := Take(tr, w, WarmRead(1));
    tr, w := Take(tr, w, WarmRead(1));
  }

  lemma HeartbeatBegun() returns (tr: seq<Step>, w: World)
    ensures var c := Some(Fresh(Beginning, 0));
            Serial(tr, w) && w.calls == map[0 := Call(Beginning, Done(Answered), c),
                1 := Call(GetCurrent("user"), Done(Answered), c),
                                            2 := Call(Second, BeatCache, Some(Fresh(Second, SECOND)))]
    ensures w.warms == map[1 := Marshalled(Fresh(Beginning, 0))] && w.log == [EmptyPartition] && w.now == SECOND
    ensures w.table == map["user" := Fresh(Beginning, 0)]
  {
    tr, w := WarmMarshalled();
    tr, w := Take(tr, w, Tick(SECOND));
    tr, w := Take(tr, w, Begin(2, Second));
  }

  lemma HeartbeatMeanwhile(cached: bool) returns (tr: seq<Step>, w: World)
    ensures Serial(tr, w) && w.calls.Keys == {0, 1, 2} && Idle(w, "user")
    ensures w.calls[2] == Call(Second, Done(Acked(false)), Some(Fresh(Second, SECOND)))
    ensures w.warms == map[1 := Marshalled(Fresh(Beginning, 0))] && w.now == SECOND
    ensures w.table == map["user" := Fresh(Beginning, 0)]
  {
    tr, w := HeartbeatCached(cached);
    tr, w := Take(tr, w, Publish(2, Some(0)));
  }

  lemma HeartbeatCached(cached: bool) returns (tr: seq<Step>, w: World)
    ensures var c := Some(Fresh(Beginning, 0));
            Serial(tr, w) && w.calls == map[0 := Call(Beginning, Done(Answered), c),
                1 := Call(GetCurrent("user"), Done(Answered), c),
                                            2 := Call(Second, BeatPublish, Some(Fresh(Second, SECOND)))]
    ensures w.warms == map[1 := Marshalled(Fresh(Beginning, 0))] && w.log == [EmptyPartition] && w.now == SECOND
    ensures w.table == map["user" := Fresh(Beginning, 0)]
  {
    tr, w := HeartbeatBegun();
    tr, w := Take(tr, w, CacheSet(2, cached));
  }

  /** A warm that was slow to write hides a heartbeat that came, and was accepted, after the
      read which started it; 5 s later another device still reads the session from before, 6 s
      old. */
  lemma WarmCanHideHeartbeat() returns (tr: seq<Step>, w: World)
    ensures Serial(tr, w) && Ended(w, 2, Second, Acked(false)) && w.calls[2].obj == Some(Fresh(Second, SECOND))
    ensures Ended(w, 3, GetCurrent("user"), Answered) && w.calls[3].obj == Some(Fresh(Beginning, 0)) &&
            w.now == 6 * SECOND
  {
    tr, w := WarmOverwrites();
    tr, w := Take(tr, w, Begin(3, GetCurrent("user")));
    tr, w := Take(tr, w, CacheGet(3, true));
  }

  lemma WarmOverwrites() returns (tr: seq<Step>, w: World)
    ensures Serial(tr, w) && w.calls.Keys == {0, 1, 2} && Idle(w, "user") && w.now == 6 * SECOND
    ensures w.calls[2] == Call(Second, Done(Acked(false)), Some(Fresh(Second, SECOND)))
    ensures "user" in w.cache && w.cache["user"] == Entry(Good(Fresh(Beginning, 0)), SECOND + CACHE_TTL)
  {
    var before;
    tr, before := HeartbeatMeanwhile(true);
    tr, w := Take(tr, before, WarmSet(1, true));
    tr, w := Take(tr, w, Tick(6 * SECOND));
    assert w.calls == before.calls;
    forall id ensures !Active(w, id, "user") { assert !Active(before, id, "user"); }
  }

  /** With Redis out of reach a read returns an older session than the heartbeat before it. */
  lemma DegradedReadCanBeStale() returns (tr: seq<Step>, w: World)
    ensures Serial(tr, w) && Ended(w, 2, Second, Acked(false)) && Ended(w, 3, GetCurrent("user"), Answered)
    ensures w.calls[2].obj == Some(Fresh(Second, SECOND)) && w.calls[3].obj == Some(Fresh(Beginning, 0))
  {
    tr, w := HeartbeatMeanwhile(false);
    tr, w := Take(tr, w, Begin(3, GetCurrent("user")));
    tr, w := Take(tr, w, CacheGet(3, false));
    tr, w := Take(tr, w, TableGet(3, true));
  }

  const Pausing := Op.Pause("user", "tablet")
  const PausedThere := Session("user", "track", 0, StatusPaused, "tablet", SECOND)

  lemma PauseReadsTheTable() returns (tr: seq<Step>, w: World)
    ensures Serial(tr, w) && w.calls.Keys == {0, 1, 2, 3} && w.now == SECOND
    ensures w.calls[2] == Call(Second, Done(Acked(false)), Some(Fresh(Second, SECOND)))
    ensures w.calls[3] == Call(Pausing, SetStatus, Some(Fresh(Beginning, 0)))
  {
    tr, w := HeartbeatMeanwhile(true);
    tr, w := Take(tr, w, Begin(3, Pausing));
    tr, w := Take(tr, w, CacheGet(3, false));
    tr, w := Take(tr, w, TableGet(3, true));
  }

  lemma PauseChanges() returns (tr: seq<Step>, w: World)
    ensures Serial(tr, w) && w.calls.Keys == {0, 1, 2, 3} && w.now == SECOND
    ensures w.calls[2] == Call(Second, Done(Acked(false)), Some(Fresh(Second, SECOND)))
    ensures w.calls[3] == Call(Pausing, ModUpsert, Some(PausedThere))
  {
    tr, w := PauseReadsTheTable();
    tr, w := Take(tr, w, Assign(3));
    tr, w := Take(tr, w, Assign(3));
    tr, w := Take(tr, w, Assign(3));
  }

  /** A Pause that cannot read the cache takes the position from the row, where the accepted
      heartbeat has not arrived, and puts it back in both stores. */
  lemma PauseCanUndoHeartbeat() returns (tr: seq<Step>, w: World)
    ensures Serial(tr, w) && Ended(w, 2, Second, Acked(false)) && Ended(w, 3, Pausing, Answered)
    ensures w.calls[2].obj == Some(Fresh(Second, SECOND)) && Second.position == 2
    ensures Row(w, "user") == Some(PausedThere) && CacheHas(w, "user", PausedThere) && PausedThere.position == 0
  {
    tr, w := PauseChanges();
    tr, w := Take(tr, w, Upsert(3, true));
    tr, w := Take(tr, w, CacheSet(3, true));
  }

  // ---------- A read beside a heartbeat ----------

  ghost predicate Reached(partitions: nat, tr: seq<Step>, w: World) {
    Legal(Init(partitions, 0), tr) && After(Init(partitions, 0), tr) == w
  }

  lemma Go(partitions: nat, tr: seq<Step>, w: World, st: Step) returns (tr': seq<Step>, w': World)
    requires Reached(partitions, tr, w) && Enabled(w, st)
    ensures tr' == tr + [st] && w' == Apply(w, st) && Reached(partitions, tr', w')
  {
    Extend(Init(partitions, 0), tr, st);
    tr', w' := tr + [st], Apply(w, st);
  }

  lemma BegunCached() returns (tr: seq<Step>, w: World)
    ensures Reached(1, tr, w)
    ensures w == World(map["user" := Fresh(Beginning, 0)], map["user" := Entry(Good(Fresh(Beginning, 0)), CACHE_TTL)],
            [EmptyPartition],
                       map[0 := Call(Beginning, Done(Answered), Some(Fresh(Beginning, 0)))], map[], 0)
  {
    tr, w := BegunUpserted();
    tr, w := Go(1, tr, w, CacheSet(0, true));
  }

  lemma HeartbeatHesitates() returns (tr: seq<Step>, w: World)
    ensures Reached(1, tr, w) && w.warms == map[] && w.now == 2 * PERIOD
    ensures w.calls == map[0 := Call(Beginning, Done(Answered), Some(Fresh(Beginning, 0))),
            1 := Call(Second, BeatCache, Some(Fresh(Second, PERIOD)))]
    ensures w.cache == map["user" := Entry(Good(Fresh(Beginning, 0)), CACHE_TTL)]
  {
    tr, w := BegunCached();
    tr, w := Go(1, tr, w, Tick(PERIOD));
    tr, w := Go(1, tr, w, Begin(1, Second));
    tr, w := Go(1, tr, w, Tick(2 * PERIOD));
  }

  /** With heartbeats 5 s apart, a cache that works and no warm at all, a read that overlaps a
      heartbeat on its way to the cache answers a session that is 10 s old. */
  lemma OverlappingReadCanBeTenSecondsOld() returns (tr: seq<Step>, w: World)
    ensures Reached(1, tr, w) && w.warms == map[] && Ended(w, 2, GetCurrent("user"), Answered)
    ensures w.calls[2].obj == Some(Fresh(Beginning, 0)) && w.now == 10 * SECOND
  {
    tr, w := HeartbeatHesitates();
    tr, w := Go(1, tr, w, Begin(2, GetCurrent("user")));
    tr, w := Go(1, tr, w, CacheGet(2, true));
  }

  // ---------- Heartbeats that overlap ----------

  lemma TwoHeartbeatsBegun() returns (tr: seq<Step>, w: World)
    ensures Reached(1, tr, w) && w.warms == map[] && w.now == 2 * PERIOD && w.log == [EmptyPartition]
    ensures w.calls == map[0 := Call(Beginning, Done(Answered), Some(Fresh(Beginning, 0))),
                           1 := Call(First, BeatCache, Some(Fresh(First, PERIOD))),
                           2 := Call(Second, BeatCache, Some(Fresh(Second, 2 * PERIOD)))]
    ensures w.cache == map["user" := Entry(Good(Fresh(Beginning, 0)), CACHE_TTL)]
  {
    tr, w := BegunCached();
    tr, w := Go(1, tr, w, Tick(PERIOD));
    tr, w := Go(1, tr, w, Begin(1, First));
    tr, w := Go(1, tr, w, Tick(2 * PERIOD));
    tr, w := Go(1, tr, w, Begin(2, Second));
  }

  lemma CachedOutOfOrder() returns (tr: seq<Step>, w: World)
    ensures Reached(1, tr, w) && w.warms == map[] && w.now == 2 * PERIOD && w.log == [EmptyPartition]
    ensures w.calls == map[0 := Call(Beginning, Done(Answered), Some(Fresh(Beginning, 0))),
                           1 := Call(First, BeatPublish, Some(Fresh(First, PERIOD))),
                           2 := Call(Second, BeatPublish, Some(Fresh(Second, 2 * PERIOD)))]
    ensures w.cache == map["user" := Entry(Good(Fresh(First, PERIOD)), 2 * PERIOD + CACHE_TTL)]
  {
    tr, w := TwoHeartbeatsBegun();
    tr, w := Go(1, tr, w, CacheSet(2, true));
    tr, w := Go(1, tr, w, CacheSet(1, true));
  }

  lemma BothPublished() returns (tr: seq<Step>, w: World)
    ensures Reached(1, tr, w) && w.warms == map[] && w.now == 3 * PERIOD
    ensures w.calls == map[0 := Call(Beginning, Done(Answered), Some(Fresh(Beginning, 0))),
                           1 := Call(First, Done(Acked(false)), Some(Fresh(First, PERIOD))),
                           2 := Call(Second, Done(Acked(false)), Some(Fresh(Second, 2 * PERIOD)))]
    ensures w.cache == map["user" := Entry(Good(Fresh(First, PERIOD)), 2 * PERIOD + CACHE_TTL)]
  {
    tr, w := CachedOutOfOrder();
    tr, w := Go(1, tr, w, Publish(1, Some(0)));
    tr, w := Go(1, tr, w, Publish(2, Some(0)));
    tr, w := Go(1, tr, w, Tick(3 * PERIOD));
  }

  /** With heartbeats 5 s apart, a cache that works and no warm, two heartbeats that overlapped
      have been cached in the wrong order; a read that overlaps nothing answers the older one,
      10 s old. */
  lemma OverlappingHeartbeatsCanHideTheNewer() returns (tr: seq<Step>, before: World, w: World)
    ensures Reached(1, tr, before) && Idle(before, "user") && before.warms == map[] &&
            Ended(before, 2, Second, Acked(false))
    ensures Reached(1, tr + [Begin(3, GetCurrent("user"))] + [CacheGet(3, true)], w) && w.now == 15 * SECOND
    ensures Ended(w, 3, GetCurrent("user"), Answered) && w.calls[3].obj == Some(Fresh(First, 5 * SECOND))
  {
    tr, before := BothPublished();
    var tr1;
    tr1, w := Go(1, tr, before, Begin(3, GetCurrent("user")));
    tr1, w := Go(1, tr1, w, CacheGet(3, true));
  }

  // ---------- Two partitions ----------

  lemma OnePublishedOfTwo() returns (tr: seq<Step>, w: World)
    ensures Reached(2, tr, w) && w.calls == map[0 := Call(First, Done(Acked(false)), Some(Fresh(First, 0)))]
    ensures w.log == [Partition([Beat(0, Fresh(First, 0))], 0, 0, false, []), EmptyPartition] && w.now == 0
  {
    tr, w := Go(2, [], Init(2, 0), Begin(0, First));
    tr, w := Go(2, tr, w, CacheSet(0, true));
    tr, w := Go(2, tr, w, Publish(0, Some(0)));
    assert w.log[0] == Partition([Beat(0, Fresh(First, 0))], 0, 0, false, []) && w.log[1] == EmptyPartition;
  }

  lemma BothPartitionsPublished() returns (tr: seq<Step>, w: World)
    ensures Reached(2, tr, w) && Ended(w, 0, First, Acked(false)) && Ended(w, 1, Second, Acked(false))
    ensures w.log == [Partition([Beat(0, Fresh(First, 0))], 0, 0, false, []),
                      Partition([Beat(1, Fresh(Second, 0))], 0, 0, false, [])]
  {
    tr, w := OnePublishedOfTwo();
    tr, w := Go(2, tr, w, Begin(1, Second));
    tr, w := Go(2, tr, w, CacheSet(1, true));
    tr, w := Go(2, tr, w, Publish(1, Some(1)));
    assert w.log[0] == Partition([Beat(0, Fresh(First, 0))], 0, 0, false, []);
    assert w.log[1] == Partition([Beat(1, Fresh(Second, 0))], 0, 0, false, []);
  }

  lemma OneMessageGoal(m: Message, u: string)
    requires RowFor(m, u)
    ensures Goal(Stretch([m], 0), u) == 0
  {
  }

  /** Two accepted heartbeats of one user lie in different partitions and ask for different rows,
      so the row depends on the order in which the partitions are read. */
  lemma BalancerCanSplitAUser() returns (tr: seq<Step>, w: World)
    ensures Reached(2, tr, w) && Ended(w, 0, First, Acked(false)) && Ended(w, 1, Second, Acked(false))
    ensures Undelivered(w) && Resumed(w) && !Agree(Stretches(w, w), "user")
  {
    tr, w := BothPartitionsPublished();
    var f := Stretches(w, w);
    OneMessageGoal(Beat(0, Fresh(First, 0)), "user");
    OneMessageGoal(Beat(1, Fresh(Second, 0)), "user");
    assert f[0] == Stretch([Beat(0, Fresh(First, 0))], 0) && f[1] == Stretch([Beat(1, Fresh(Second, 0))], 0);
    assert GoalRow(f[0], "user").position == 1 && GoalRow(f[1], "user").position == 2;
    UndeliveredIsResumed(w);
  }
}
