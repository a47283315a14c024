/** How old the session can be that another device reads. */
module Freshness {
  import opened Model
  import opened Machine
  import opened Frames
  import opened Requests
  import opened SingleCell

  const PERIOD: int := 5 * SECOND

  function CachedStamp(w: World, u: string): int
    requires CacheGood(w, u)
  {
    w.cache[u].content.s.stamp
  }

  /** No request of `u` is active but GetCurrents that are still to read the cache. */
  ghost predicate OnlyLooking(w: World, u: string) {
    forall id :: Active(w, id, u) ==> w.calls[id].op.GetCurrent? && w.calls[id].pc.ReadCache?
  }

  /** A session of `u` was cached, at most one period ago, by a request that has returned. */
  ghost predicate JustCached(w: World, u: string) {
    && Sound(w) && OnlyLooking(w, u) && NoWarms(w, u) && CacheGood(w, u)
    && CachedStamp(w, u) <= w.now <= CachedStamp(w, u) + PERIOD
    && w.cache[u].expiry >= CachedStamp(w, u) + CACHE_TTL
  }

  /** A Start that is cached within a period of its stamp leads there, if no warm of `u` is about
      and no other request of `u` has got further than a GetCurrent before its cache read. */
  lemma CachedStartIsJustCached(w: World, st: Step, u: string)
    requires Enabled(w, st) && st.CacheSet? && Active(w, st.id, u) && w.calls[st.id].pc.StartCache?
    requires Sound(w) && NoWarms(w, u) && Caches(w, st).Some?
    requires forall id :: Active(w, id, u) && id != st.id ==> w.calls[id].op.GetCurrent? && w.calls[id].pc.ReadCache?
    requires w.calls[st.id].obj.value.stamp <= w.now <= w.calls[st.id].obj.value.stamp + PERIOD
    ensures JustCached(Apply(w, st), u)
  {
    SoundKept(w, st);
    NoWarmsKept(w, st, u);
    CacheAfter(w, st, u);
    assert !Active(Apply(w, st), st.id, u);
    forall id | Active(Apply(w, st), id, u)
      ensures Apply(w, st).calls[id].op.GetCurrent? && Apply(w, st).calls[id].pc.ReadCache?
    {
      ActiveBefore(w, st, id, u);
      CallsAfter(w, st, id);
    }
  }

  function NextBeat(w: World, st: Step, u: string, beat: int): int {
    if st.Begin? && st.op.Heartbeat? && st.op.user == u then w.now else beat
  }

  /** When the last heartbeat of `u` began; the session cached at first counts as one. */
  ghost function LastBeat(w0: World, tr: seq<Step>, u: string): int
    requires Legal(w0, tr) && CacheGood(w0, u)
  {
    if tr == [] then CachedStamp(w0, u)
    else NextBeat(After(w0, tr[..|tr| - 1]), tr[|tr| - 1], u, LastBeat(w0, tr[..|tr| - 1], u))
  }

  function NextFailures(w: World, st: Step, u: string, failures: nat): nat
    requires Enabled(w, st)
  {
    if st.CacheSet? && w.calls[st.id].op.user == u then (if Caches(w, st).Some? then 0 else failures + 1) else failures
  }

  /** How many cache writes of `u` in a row have failed. */
  ghost function Failures(w0: World, tr: seq<Step>, u: string): nat
    requires Legal(w0, tr)
  {
    if tr == [] then 0
    else NextFailures(After(w0, tr[..|tr| - 1]), tr[|tr| - 1], u, Failures(w0, tr[..|tr| - 1], u))
  }

  /** No heartbeat of `u` is on its way to the cache. */
  ghost predicate NoBeatWaits(w: World, u: string) {
    forall id :: Active(w, id, u) ==> !w.calls[id].pc.BeatCache?
  }

  /** How old the cached session of `u` can be if up to `k` cache writes in a row fail: a
      heartbeat that has begun but is not yet cached adds one period. */
  ghost function Age(w: World, u: string, k: nat): int {
    PERIOD * if NoBeatWaits(w, u) then k + 1 else k + 2
  }

  /** Writers of `u` take turns, no eviction, working cache reads while the age is below the
      TTL, and no time passes beyond one period after the last heartbeat. */
  ghost predicate Timely(w: World, st: Step, u: string, beat: int, k: nat) {
    && Enabled(w, st) && WritersTakeTurns(w, st, u) && st != Evict(u) && st != Damage(u)
    && (st.CacheGet? && w.calls[st.id].op.user == u ==> st.ok && Age(w, u, k) < CACHE_TTL)
    && (st.Tick? ==> st.time <= beat + PERIOD)
  }

  ghost predicate TimelyRun(w0: World, tr: seq<Step>, u: string, k: nat)
    requires Legal(w0, tr) && CacheGood(w0, u)
  {
    tr == [] ||
    (var init := tr[..|tr| - 1];
     TimelyRun(w0, init, u, k) && Timely(After(w0, init), tr[|tr| - 1], u, LastBeat(w0, init, u), k) &&
         Failures(w0, tr, u) <= k)
  }

  // ---------- The invariant ----------

  predicate ToBeCached(pc: Pc) {
    pc.StartUpsert? || pc.StartCache? || pc.BeatCache? || pc.ModUpsert? || pc.ModCache?
  }

  predicate OnTime(c: Call, beat: int, now: int) {
    && !c.pc.ReadTable?
    && (ToBeCached(c.pc) ==> c.obj.Some? && beat <= c.obj.value.stamp <= now)
  }

  /** The stores, with the age counted from the last heartbeat. */
  predicate CachedSince(w: World, u: string, beat: int, periods: nat) {
    && CacheGood(w, u) && w.cache[u].expiry >= CachedStamp(w, u) + CACHE_TTL
    && beat <= w.now <= beat + PERIOD
    && beat - CachedStamp(w, u) <= PERIOD * periods
  }

  ghost predicate Recent(w: World, u: string, beat: int, failures: nat) {
    && Sound(w) && OneWriter(w, u) && NoWarms(w, u)
    && CachedSince(w, u, beat, if NoBeatWaits(w, u) then failures else failures + 1)
    && forall id :: Active(w, id, u) ==> OnTime(w.calls[id], beat, w.now)
  }

  lemma HitInTime(w: World, u: string, beat: int, failures: nat, k: nat)
    requires Recent(w, u, beat, failures) && failures <= k && Age(w, u, k) < CACHE_TTL
    ensures Hit(w, u) && w.now - CachedStamp(w, u) <= Age(w, u, k)
  {
    assert PERIOD * failures <= PERIOD * k;
  }

  lemma ForeignRecent(w: World, st: Step, u: string, beat: int, failures: nat, k: nat)
    requires Timely(w, st, u, beat, k) && Foreign(w, st, u) && Recent(w, u, beat, failures)
    ensures Recent(Apply(w, st), u, beat, failures)
    ensures NextBeat(w, st, u, beat) == beat && NextFailures(w, st, u, failures) == failures
  {
    var w' := Apply(w, st);
    SoundKept(w, st);
    OneWriterKept(w, st, u);
    NoWarmsKept(w, st, u);
    ForeignCache(w, st, u);
    ClockAfter(w, st);
    assert Cached(w', u) == Cached(w, u);
    forall id ensures (Active(w', id, u) <==> Active(w, id, u)) && (Active(w, id, u) ==> w'.calls[id] == w.calls[id]) {
      ForeignCalls(w, st, u, id);
    }
    assert NoBeatWaits(w', u) <==> NoBeatWaits(w, u);
  }

  lemma BeginRecent(w: World, st: Step, u: string, beat: int, failures: nat, k: nat)
    requires Timely(w, st, u, beat, k) && st.Begin? && st.op.user == u && Recent(w, u, beat, failures)
    ensures Recent(Apply(w, st), u, NextBeat(w, st, u, beat), failures)
  {
    var w', beat' := Apply(w, st), NextBeat(w, st, u, beat);
    SoundKept(w, st);
    OneWriterKept(w, st, u);
    NoWarmsKept(w, st, u);
    assert w'.calls[st.id] == NewCall(st.op, w.now);
    forall id | Active(w', id, u) && id != st.id ensures Active(w, id, u) && w'.calls[id] == w.calls[id] {
      ActiveBefore(w, st, id, u);
      CallsAfter(w, st, id);
    }
    if st.op.GetCurrent? {
      forall id | Active(w, id, u) ensures Active(w', id, u) && w'.calls[id] == w.calls[id] { CallsAfter(w, st, id); }
      assert NoBeatWaits(w', u) <==> NoBeatWaits(w, u);
    } else {
      BegunByWriter(w, st, u);
    }
    assert CachedSince(w', u, beat', if NoBeatWaits(w', u) then failures else failures + 1);
    forall id | Active(w', id, u) ensures OnTime(w'.calls[id], beat', w'.now) {
      if id != st.id { assert OnTime(w.calls[id], beat, w.now); }
    }
  }

  /** A writer that begins finds at most readers, and only a heartbeat waits to be cached. */
  lemma BegunByWriter(w: World, st: Step, u: string)
    requires Enabled(w, st) && st.Begin? && st.op.user == u && !st.op.GetCurrent? && WritersTakeTurns(w, st, u) &&
             Kinds(w)
    ensures NoBeatWaits(w, u) && (NoBeatWaits(Apply(w, st), u) <==> !st.op.Heartbeat?)
    ensures forall id :: Active(w, id, u) ==> !ToBeCached(w.calls[id].pc)
  {
    var w' := Apply(w, st);
    forall id | Active(w, id, u) ensures !ToBeCached(w.calls[id].pc) {
      assert !Writing(w, id, u) && Kind(w.calls[id]);
    }
    assert Active(w', st.id, u) && w'.calls[st.id] == NewCall(st.op, w.now);
    forall id | Active(w', id, u) && id != st.id ensures !w'.calls[id].pc.BeatCache? {
      ActiveBefore(w, st, id, u);
      CallsAfter(w, st, id);
    }
  }

  // ---------- Steps of the user's own requests ----------

  /** What the step of a request does to the request itself and to the cache. */
  lemma OwnCall(w: World, st: Step, u: string, beat: int, k: nat)
    requires Timely(w, st, u, beat, k) && OfCall(st) && Active(w, st.id, u) && Sound(w) &&
             OnTime(w.calls[st.id], beat, w.now)
    requires st.CacheGet? ==> Hit(w, u)
    requires beat <= w.now
    ensures !st.TableGet?
    ensures var c' := Apply(w, st).calls[st.id]; (!c'.pc.Done? ==> OnTime(c', beat, w.now)) && !c'.pc.BeatCache?
    ensures w.calls[st.id].pc.BeatCache? ==> st.CacheSet?
  {
    assert Kind(w.calls[st.id]);
  }

  lemma OwnStores(w: World, st: Step, u: string, beat: int, failures: nat, k: nat)
    requires Timely(w, st, u, beat, k) && OfCall(st) && Active(w, st.id, u) && Sound(w) &&
             OnTime(w.calls[st.id], beat, w.now)
    requires CachedSince(w, u, beat, if w.calls[st.id].pc.BeatCache? then failures + 1 else failures)
    requires w.calls[st.id].pc.BeatCache? ==> st.CacheSet?
    ensures CachedSince(Apply(w, st), u, beat, NextFailures(w, st, u, failures))
  {
    CacheAfter(w, st, u);
    ClockAfter(w, st);
    assert Kind(w.calls[st.id]);
  }

  /** Whoever else waits to be cached still does. */
  lemma OthersWait(w: World, st: Step, u: string)
    requires Enabled(w, st) && OfCall(st) && Active(w, st.id, u) && OneWriter(w, u) && Kinds(w)
    requires !Apply(w, st).calls[st.id].pc.BeatCache?
    ensures NoBeatWaits(Apply(w, st), u) <==> NoBeatWaits(w, u) || w.calls[st.id].pc.BeatCache?
    ensures !NoBeatWaits(w, u) && !w.calls[st.id].pc.BeatCache? ==> w.calls[st.id].op.GetCurrent?
  {
    var w' := Apply(w, st);
    forall id | id != st.id
      ensures (Active(w', id, u) <==> Active(w, id, u)) && (Active(w, id, u) ==> w'.calls[id] == w.calls[id])
    {
      CallsAfter(w, st, id);
    }
    forall id | Active(w, id, u) && w.calls[id].pc.BeatCache? ensures Writing(w, id, u) { assert Kind(w.calls[id]); }
    assert w.calls[st.id].op.GetCurrent? || Writing(w, st.id, u);
  }

  lemma OwnRecent(w: World, st: Step, u: string, beat: int, failures: nat, k: nat)
    requires Timely(w, st, u, beat, k) && OfCall(st) && w.calls[st.id].op.user == u
    requires Recent(w, u, beat, failures) && failures <= k
    ensures Recent(Apply(w, st), u, beat, NextFailures(w, st, u, failures))
  {
    var w' := Apply(w, st);
    assert Active(w, st.id, u) && OnTime(w.calls[st.id], beat, w.now);
    SoundKept(w, st);
    OneWriterKept(w, st, u);
    if st.CacheGet? { HitInTime(w, u, beat, failures, k); }
    OwnCall(w, st, u, beat, k);
    NoWarmsKept(w, st, u);
    OthersWait(w, st, u);
    ClockAfter(w, st);
    if NoBeatWaits(w, u) || w.calls[st.id].pc.BeatCache? {
      OwnStores(w, st, u, beat, failures, k);
    } else {
      ReaderStores(w, st, u);
    }
    forall id | Active(w', id, u) ensures OnTime(w'.calls[id], beat, w'.now) {
      if id != st.id { OtherOnTime(w, st, id, u, beat); }
    }
  }

  lemma OtherOnTime(w: World, st: Step, id: nat, u: string, beat: int)
    requires Enabled(w, st) && OfCall(st) && id != st.id && Active(Apply(w, st), id, u)
    requires Active(w, id, u) ==> OnTime(w.calls[id], beat, w.now)
    ensures OnTime(Apply(w, st).calls[id], beat, w.now)
  {
    ActiveBefore(w, st, id, u);
    CallsAfter(w, st, id);
  }

  lemma ReaderStores(w: World, st: Step, u: string)
    requires Enabled(w, st) && OfCall(st) && Active(w, st.id, u) && w.calls[st.id].op.GetCurrent? && Kinds(w)
    ensures Apply(w, st).cache == w.cache && !st.CacheSet?
  {
    assert Kind(w.calls[st.id]);
  }

  lemma {:induction false} AlwaysRecent(w0: World, tr: seq<Step>, u: string, k: nat)
    requires Legal(w0, tr) && JustCached(w0, u) && TimelyRun(w0, tr, u, k)
    ensures Recent(After(w0, tr), u, LastBeat(w0, tr, u), Failures(w0, tr, u)) && Failures(w0, tr, u) <= k
  {
    if tr != [] {
      var init := tr[..|tr| - 1];
      AlwaysRecent(w0, init, u, k);
      var w, st, beat, failures := After(w0, init), tr[|tr| - 1], LastBeat(w0, init, u), Failures(w0, init, u);
      if Foreign(w, st, u) { ForeignRecent(w, st, u, beat, failures, k); }
      else if st.Begin? { BeginRecent(w, st, u, beat, failures, k); }
      else { OwnRecent(w, st, u, beat, failures, k); }
    }
  }

  /** The read hits the cached session, and that is at most `age` old. */
  predicate FreshHit(w: World, st: Step, u: string, age: int) {
    Enabled(w, st) && st.CacheGet? && CacheGood(w, u) &&
    var c := Apply(w, st).calls[st.id];
    && c.obj == Some(w.cache[u].content.s) && w.now - c.obj.value.stamp <= age
    && (c.op.GetCurrent? ==> c.pc == Done(Answered))
  }

  /** With heartbeats of `u` at most 5 s apart and at most `k` failed cache writes in a row,
      every read of `u` hits and no warm is ever spawned. The session is at most 5(k + 1) s old,
      or 5(k + 2) s while a heartbeat has begun that is not yet cached. */
  lemma ReadsAreFresh(w0: World, tr: seq<Step>, st: Step, u: string, k: nat)
    requires Legal(w0, tr) && JustCached(w0, u) && TimelyRun(w0, tr, u, k)
    requires Timely(After(w0, tr), st, u, LastBeat(w0, tr, u), k)
    requires st.CacheGet? && After(w0, tr).calls[st.id].op.user == u
    ensures NoWarms(After(w0, tr), u) && FreshHit(After(w0, tr), st, u, Age(After(w0, tr), u, k))
  {
    AlwaysRecent(w0, tr, u, k);
    HitInTime(After(w0, tr), u, LastBeat(w0, tr, u), Failures(w0, tr, u), k);
  }

  /** While no heartbeat is on its way to the cache the bound is the shorter one: 5 s when the
      cache works (k = 0), 10 s when every other write may fail (k = 1). */
  lemma CaughtUpReadsAreFresher(w0: World, tr: seq<Step>, st: Step, u: string, k: nat)
    requires Legal(w0, tr) && JustCached(w0, u) && TimelyRun(w0, tr, u, k)
    requires Timely(After(w0, tr), st, u, LastBeat(w0, tr, u), k) && NoBeatWaits(After(w0, tr), u)
    requires st.CacheGet? && After(w0, tr).calls[st.id].op.user == u
    ensures NoWarms(After(w0, tr), u) && FreshHit(After(w0, tr), st, u, PERIOD * (k + 1))
  {
    ReadsAreFresh(w0, tr, st, u, k);
  }
}
