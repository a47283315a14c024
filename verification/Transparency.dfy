/**
  Cache transparency: which runs give the same answers from the cache and from the table, so
  that evictions, corrupt entries and failed cache reads do not show.
 */
module Transparency {
  import opened Model
  import opened Machine
  import opened Frames
  import opened Requests
  import opened Offsets
  import opened Pending
  import opened LastWrite
  import opened SingleCell

  // ---------- The hypotheses ----------

  predicate Writes(st: Step) {
    st.Upsert? || st.CacheSet? || st.Publish?
  }

  /** One request of `u` at a time; its cache writes, its encodings and its own upserts work;
      each warm of `u` is over before the next write of `u`. */
  ghost predicate Tidy(w: World, st: Step, u: string) {
    && Enabled(w, st) && NoOverlap(w, st, u)
    && (OfCall(st) && w.calls[st.id].op.user == u ==>
          && (st.CacheSet? ==> st.ok)
          && (st.Upsert? ==> st.ok && Fits(w.calls[st.id].obj.value))
          && (st.CacheSet? || st.Publish? ==> Encodable(w.calls[st.id].obj.value.stamp) && Encodable(w.now))
          && (Writes(st) ==> NoWarms(w, u)))
  }

  /** Besides, there is one partition, restarts are harmless, the upsert of the last message of `u`
      works, and no heartbeat of `u` is pending when a row is written directly or read. */
  ghost predicate Careful(w: World, st: Step, u: string) {
    && Tidy(w, st, u) && Working(w, st, u) && |w.log| == 1
    && (OfCall(st) && w.calls[st.id].op.user == u && (st.Upsert? || st.TableGet?) ==> !Behind(w, 0, u))
  }

  /** Besides, no heartbeat of `u` gets published: Kafka is out of reach. Any number of
      partitions, restarts and failures of the consumer's upserts. */
  ghost predicate Offline(w: World, st: Step, u: string) {
    Tidy(w, st, u) && (st.Publish? && w.calls[st.id].op.user == u ==> st.where.None?)
  }

  // ---------- The last accepted write ----------

  /** The event gets into the log. */
  predicate Lands(w: World, st: Step)
    requires Enabled(w, st)
  {
    st.Publish? && st.where.Some? && Encodable(w.calls[st.id].obj.value.stamp) && Encodable(w.now)
  }

  function NextAccepted(w: World, st: Step, u: string, last: Option<Session>): Option<Session>
    requires Enabled(w, st)
  {
    if (st.Upsert? && w.calls[st.id].op.user == u && Upserted(w, st).Some?) ||
        (Lands(w, st) && w.calls[st.id].op.user == u)
    then w.calls[st.id].obj
    else last
  }

  /** The session last written to the table or published by a request of `u`. */
  ghost function LastAccepted(w0: World, tr: seq<Step>, u: string): Option<Session>
    requires Legal(w0, tr)
  {
    if tr == [] then None
    else NextAccepted(After(w0, tr[..|tr| - 1]), tr[|tr| - 1], u, LastAccepted(w0, tr[..|tr| - 1], u))
  }

  // ---------- The invariant ----------

  function RowAsked(last: Option<Session>): Option<Session> {
    if last.None? then None else Some(Stored(last.value))
  }

  /** `s` is the session that row `d` holds, up to the precision of the table. */
  predicate Matches(s: Session, d: Option<Session>) {
    d == Some(Stored(s))
  }

  predicate CacheMatches(w: World, u: string, d: Option<Session>) {
    CacheGood(w, u) ==> Matches(w.cache[u].content.s, d)
  }

  /** What the warm will write matches the row, whatever it has read so far. */
  predicate WarmMatches(w: World, id: nat, d: Option<Session>) {
    id in w.warms && id in w.calls && w.calls[id].obj.Some? &&
    var s := w.calls[id].obj.value;
    && Matches(s, d)
    && match w.warms[id]
       case Unread => true
       case GotStatus(status) => status == s.status
       case GotDevice(status, device) => status == s.status && device == s.device
       case Marshalled(m) => Matches(m, d)
  }

  ghost predicate Calm(w: World, u: string, d: Option<Session>) {
    CacheMatches(w, u, d) &&
    forall id :: id in w.warms && id in w.calls && w.calls[id].op.user == u ==> WarmMatches(w, id, d)
  }

  /** Program points before the request has touched an object or a store. */
  predicate CalmPc(pc: Pc) {
    pc.StartUpsert? || pc.BeatCache? || pc.ReadCache? || pc.ReadTable? || pc.SetStatus? || pc.Done?
  }

  ghost predicate PhaseOk(w: World, u: string, id: nat, d: Option<Session>)
    requires id in w.calls
  {
    var c := w.calls[id];
    && (CalmPc(c.pc) ==> Calm(w, u, d))
    && (c.pc.StartCache? || c.pc.ModCache? ==> NoWarms(w, u) && c.obj.Some? && Matches(c.obj.value, d))
    && (MidBeat(c.pc) ==> NoWarms(w, u) && c.obj.Some? && (CacheGood(w, u) ==> Some(w.cache[u].content.s) == c.obj))
  }

  /** Cache, warms and requests of `u` agree on `d`. */
  ghost predicate Coherent(w: World, u: string, d: Option<Session>) {
    && Sound(w) && OneActive(w, u)
    && (forall id :: Active(w, id, u) ==> PhaseOk(w, u, id, d))
    && (Idle(w, u) ==> Calm(w, u, d))
  }

  // ---------- Steps of others, of the consumer, of warms and of the environment ----------

  lemma WarmProgress(w: World, st: Step, u: string, d: Option<Session>, id: nat)
    requires Enabled(w, st) && Foreign(w, st, u) && Sound(w) && Calm(w, u, d)
    requires id in Apply(w, st).warms && id in Apply(w, st).calls && Apply(w, st).calls[id].op.user == u
    ensures WarmMatches(Apply(w, st), id, d)
  {
    WarmsAfter(w, st, id);
    if id in w.calls { CallsAfter(w, st, id); }
    assert id in w.warms && WarmMatches(w, id, d);
  }

  lemma CalmKept(w: World, st: Step, u: string, d: Option<Session>)
    requires Enabled(w, st) && Foreign(w, st, u) && Sound(w) && Calm(w, u, d)
    ensures Calm(Apply(w, st), u, d)
  {
    CacheAfter(w, st, u);
    forall id | id in Apply(w, st).warms && id in Apply(w, st).calls && Apply(w, st).calls[id].op.user == u
      ensures WarmMatches(Apply(w, st), id, d)
    {
      WarmProgress(w, st, u, d, id);
    }
    if st.WarmSet? { assert st.id in w.calls; }
  }

  lemma CacheOnlyLoses(w: World, st: Step, u: string)
    requires Enabled(w, st) && Foreign(w, st, u) && Sound(w) && NoWarms(w, u)
    ensures Cached(Apply(w, st), u) == Cached(w, u) || Cached(Apply(w, st), u).None? ||
            Cached(Apply(w, st), u).value.content == Corrupt
  {
    CacheAfter(w, st, u);
  }

  lemma PhaseKept(w: World, st: Step, u: string, d: Option<Session>, id: nat)
    requires Enabled(w, st) && Foreign(w, st, u) && Sound(w) && id in w.calls && PhaseOk(w, u, id, d)
    requires id in Apply(w, st).calls && Apply(w, st).calls[id] == w.calls[id]
    ensures PhaseOk(Apply(w, st), u, id, d)
  {
    if CalmPc(w.calls[id].pc) { CalmKept(w, st, u, d); }
    else if NoWarms(w, u) { NoWarmsKept(w, st, u); CacheOnlyLoses(w, st, u); }
  }

  lemma CoherentForeign(w: World, st: Step, u: string, d: Option<Session>)
    requires Tidy(w, st, u) && Foreign(w, st, u) && Coherent(w, u, d)
    ensures Coherent(Apply(w, st), u, d)
  {
    var w' := Apply(w, st);
    SoundKept(w, st);
    OneActiveKept(w, st, u);
    forall id ensures Active(w', id, u) <==> Active(w, id, u) { ForeignCalls(w, st, u, id); }
    forall id | Active(w', id, u) ensures PhaseOk(w', u, id, d) {
      ForeignCalls(w, st, u, id);
      PhaseKept(w, st, u, d, id);
    }
    if Idle(w, u) { CalmKept(w, st, u, d); }
  }

  // ---------- Steps of the user's own requests ----------

  lemma OwnTableWrite(w: World, st: Step, u: string, last: Option<Session>)
    requires Tidy(w, st, u) && st.Upsert? && Active(w, st.id, u) && Coherent(w, u, RowAsked(last))
    ensures PhaseOk(Apply(w, st), u, st.id, RowAsked(NextAccepted(w, st, u, last)))
  {
    assert Kind(w.calls[st.id]);
    NoWarmsKept(w, st, u);
    assert Apply(w, st).cache == w.cache;
  }

  lemma OwnCacheWrite(w: World, st: Step, u: string, last: Option<Session>)
    requires Tidy(w, st, u) && st.CacheSet? && Active(w, st.id, u) && Coherent(w, u, RowAsked(last))
    ensures PhaseOk(Apply(w, st), u, st.id, RowAsked(last))
  {
    assert Kind(w.calls[st.id]);
    NoWarmsKept(w, st, u);
    CacheAfter(w, st, u);
  }

  lemma OwnLogWrite(w: World, st: Step, u: string, last: Option<Session>)
    requires Tidy(w, st, u) && st.Publish? && Active(w, st.id, u) && Coherent(w, u, RowAsked(last))
    ensures PhaseOk(Apply(w, st), u, st.id, RowAsked(NextAccepted(w, st, u, last)))
  {
    assert Kind(w.calls[st.id]);
    NoWarmsKept(w, st, u);
    assert Apply(w, st).cache == w.cache;
  }

  /** The read finds the session of `last`, up to microseconds, or none if there was no write. */
  predicate FindsLast(w: World, st: Step, last: Option<Session>) {
    Enabled(w, st) && (st.CacheGet? || st.TableGet?) &&
    var c := Apply(w, st).calls[st.id];
    && (c.obj.Some? ==> last.Some? && Stored(c.obj.value) == Stored(last.value))
    && (c.pc == Done(NotFound) ==> last.None?)
  }

  lemma StoredTwice(s: Session)
    ensures Stored(Stored(s)) == Stored(s)
  {
  }

  lemma OwnCacheRead(w: World, st: Step, u: string, d: Option<Session>)
    requires Enabled(w, st) && st.CacheGet? && Active(w, st.id, u) && Coherent(w, u, d)
    ensures PhaseOk(Apply(w, st), u, st.id, d)
  {
    var w' := Apply(w, st);
    assert Kind(w.calls[st.id]) && st.id !in w.warms && Calm(w, u, d);
    forall id | id in w'.warms && id in w'.calls && w'.calls[id].op.user == u ensures WarmMatches(w', id, d) {
      assert WarmMatches(w, id, d);
    }
  }

  /** The row that is read matches itself, and so will the warm that it starts. */
  lemma OwnRowRead(w: World, st: Step, u: string, last: Option<Session>)
    requires Enabled(w, st) && st.TableGet? && Active(w, st.id, u) && Coherent(w, u, RowAsked(last))
    requires Row(w, u) == RowAsked(last)
    ensures PhaseOk(Apply(w, st), u, st.id, RowAsked(last))
  {
    var w', d := Apply(w, st), RowAsked(last);
    assert Kind(w.calls[st.id]) && st.id !in w.warms && Calm(w, u, d);
    if last.Some? { StoredTwice(last.value); }
    forall id | id in w'.warms && id in w'.calls && w'.calls[id].op.user == u ensures WarmMatches(w', id, d) {
      if id != st.id { assert id in w.warms && WarmMatches(w, id, d); }
    }
  }

  lemma LookupFinds(w: World, st: Step, u: string, last: Option<Session>)
    requires Enabled(w, st) && (st.CacheGet? || st.TableGet?) && Active(w, st.id, u) && Coherent(w, u, RowAsked(last))
    requires st.TableGet? ==> Row(w, u) == RowAsked(last)
    ensures FindsLast(w, st, last)
  {
    assert Kind(w.calls[st.id]) && Calm(w, u, RowAsked(last));
  }

  lemma OwnAssign(w: World, st: Step, u: string, d: Option<Session>)
    requires Enabled(w, st) && st.Assign? && Active(w, st.id, u) && Coherent(w, u, d)
    ensures PhaseOk(Apply(w, st), u, st.id, d)
  {
    assert Kind(w.calls[st.id]);
  }

  lemma OwnPhase(w: World, st: Step, u: string, last: Option<Session>)
    requires Tidy(w, st, u) && OfCall(st) && Active(w, st.id, u) && Coherent(w, u, RowAsked(last))
    requires st.TableGet? ==> Row(w, u) == RowAsked(last)
    ensures PhaseOk(Apply(w, st), u, st.id, RowAsked(NextAccepted(w, st, u, last)))
  {
    if st.Upsert? { OwnTableWrite(w, st, u, last); }
    else if st.CacheSet? { OwnCacheWrite(w, st, u, last); }
    else if st.Publish? { OwnLogWrite(w, st, u, last); }
    else if st.CacheGet? { OwnCacheRead(w, st, u, RowAsked(last)); }
    else if st.TableGet? { OwnRowRead(w, st, u, last); }
    else { OwnAssign(w, st, u, RowAsked(last)); }
  }

  lemma CoherentOwn(w: World, st: Step, u: string, last: Option<Session>)
    requires Tidy(w, st, u) && OfCall(st) && w.calls[st.id].op.user == u && Coherent(w, u, RowAsked(last))
    requires st.TableGet? ==> Row(w, u) == RowAsked(last)
    ensures Coherent(Apply(w, st), u, RowAsked(NextAccepted(w, st, u, last)))
  {
    var w' := Apply(w, st);
    assert Active(w, st.id, u);
    SoundKept(w, st);
    OneActiveKept(w, st, u);
    OwnPhase(w, st, u, last);
    forall j | Active(w', j, u) ensures j == st.id { ActiveBefore(w, st, j, u); }
    if Idle(w', u) {
      CallsAfter(w, st, st.id);
      assert w'.calls[st.id].pc.Done? by { assert !Active(w', st.id, u); }
    }
  }

  lemma CoherentBegin(w: World, st: Step, u: string, d: Option<Session>)
    requires Tidy(w, st, u) && st.Begin? && st.op.user == u && Coherent(w, u, d)
    ensures Coherent(Apply(w, st), u, d)
  {
    var w' := Apply(w, st);
    SoundKept(w, st);
    OneActiveKept(w, st, u);
    forall j | Active(w', j, u) ensures j == st.id { ActiveBefore(w, st, j, u); }
    forall id | id in w'.warms && id in w'.calls && w'.calls[id].op.user == u ensures WarmMatches(w', id, d) {
      assert id in w.warms && WarmMatches(w, id, d);
    }
    assert Active(w', st.id, u);
  }

  /** The step that reads the row must find what was last accepted; no step breaks the rest. */
  lemma CoherentStep(w: World, st: Step, u: string, last: Option<Session>)
    requires Tidy(w, st, u) && Coherent(w, u, RowAsked(last))
    requires st.TableGet? && w.calls[st.id].op.user == u ==> Row(w, u) == RowAsked(last)
    ensures Coherent(Apply(w, st), u, RowAsked(NextAccepted(w, st, u, last)))
  {
    if Foreign(w, st, u) { CoherentForeign(w, st, u, RowAsked(last)); }
    else if st.Begin? { CoherentBegin(w, st, u, RowAsked(last)); }
    else { CoherentOwn(w, st, u, last); }
  }

  // ---------- Kafka in reach: nothing pending at direct writes and table reads ----------

  ghost predicate Faithful(w: World, u: string, last: Option<Session>) {
    Coherent(w, u, RowAsked(last)) && |w.log| == 1 && InOrder(w.log[0]) && DrainRow(w, u) == RowAsked(last)
  }

  /** With one partition the last accepted write is the one that LastWrite keeps account of. */
  lemma {:induction false} LastAcceptedIsLatest(w0: World, tr: seq<Step>, u: string)
    requires Legal(w0, tr) && |w0.log| == 1
    ensures LastAccepted(w0, tr, u) == if Latest(w0, tr, u).Some? then Some(Latest(w0, tr, u).value.s) else None
  {
    if tr != [] {
      LastAcceptedIsLatest(w0, tr[..|tr| - 1], u);
      SamePartitions(w0, tr[..|tr| - 1]);
    }
  }

  lemma FaithfulStep(w: World, st: Step, u: string, last: Option<Session>)
    requires Careful(w, st, u) && Faithful(w, u, last)
    ensures Faithful(Apply(w, st), u, NextAccepted(w, st, u, last))
  {
    DrainRowStep(w, st, u);
    CoherentStep(w, st, u, last);
  }

  lemma {:induction false} AlwaysFaithful(now: int, tr: seq<Step>, u: string)
    requires Legal(Init(1, now), tr) && Always(Init(1, now), tr, (w, st) => Careful(w, st, u))
    ensures Faithful(After(Init(1, now), tr), u, LastAccepted(Init(1, now), tr, u))
    decreases |tr|
  {
    if tr != [] {
      var w0, init := Init(1, now), tr[..|tr| - 1];
      AlwaysFaithful(now, init, u);
      FaithfulStep(After(w0, init), tr[|tr| - 1], u, LastAccepted(w0, init, u));
    }
  }

  /** In such runs a read of `u` that finds a session, in the cache or in the table, finds the
      last accepted write of `u` up to microseconds, and NOT_FOUND means there was none. */
  lemma ReadsFindTheLastWrite(w0: World, now: int, tr: seq<Step>, w: World, st: Step, u: string)
    requires w0 == Init(1, now) && Legal(w0, tr) && Always(w0, tr, (w, st) => Careful(w, st, u)) && w == After(w0, tr)
    requires Careful(w, st, u) && (st.CacheGet? || st.TableGet?) && w.calls[st.id].op.user == u
    ensures FindsLast(w, st, LastAccepted(w0, tr, u))
  {
    AlwaysFaithful(now, tr, u);
    assert Active(w, st.id, u);
    LookupFinds(w, st, u, LastAccepted(w0, tr, u));
  }

  predicate AtRest(w: World) {
    |w.log| == 1 && Past(w.log[0]) == |w.log[0].msgs|
  }

  /** Between requests, once the log is drained, an uncorrupted cache entry equals the row. */
  lemma EntryEqualsRow(w0: World, now: int, tr: seq<Step>, w: World, u: string)
    requires w0 == Init(1, now) && Legal(w0, tr) && Always(w0, tr, (w, st) => Careful(w, st, u)) && w == After(w0, tr)
    requires Idle(w, u) && AtRest(w)
    ensures CacheMatches(w, u, Row(w, u))
  {
    AlwaysFaithful(now, tr, u);
    DrainRowIsReached(w, u);
  }

  // ---------- Kafka out of reach ----------

  ghost predicate Direct(w: World, u: string, last: Option<Session>) {
    Coherent(w, u, RowAsked(last)) && NoMessages(w, u) && Row(w, u) == RowAsked(last)
  }

  /** The row follows the user's own upserts and nothing else. */
  lemma OfflineRow(w: World, st: Step, u: string, last: Option<Session>)
    requires Offline(w, st, u) && Sound(w) && NoMessages(w, u) && Row(w, u) == RowAsked(last)
    ensures NoMessages(Apply(w, st), u) && Row(Apply(w, st), u) == RowAsked(NextAccepted(w, st, u, last))
  {
    if Foreign(w, st, u) {
      ForeignLog(w, st, u);
    } else {
      TableAfter(w, st);
      assert Apply(w, st).log == w.log;
    }
  }

  lemma {:induction false} AlwaysDirect(partitions: nat, now: int, tr: seq<Step>, u: string)
    requires Legal(Init(partitions, now), tr) && Always(Init(partitions, now), tr, (w, st) => Offline(w, st, u))
    ensures Direct(After(Init(partitions, now), tr), u, LastAccepted(Init(partitions, now), tr, u))
    decreases |tr|
  {
    if tr != [] {
      var w0, init := Init(partitions, now), tr[..|tr| - 1];
      AlwaysDirect(partitions, now, init, u);
      OfflineRow(After(w0, init), tr[|tr| - 1], u, LastAccepted(w0, init, u));
      CoherentStep(After(w0, init), tr[|tr| - 1], u, LastAccepted(w0, init, u));
    }
  }

  /** While Kafka is out of reach every read of `u` that finds a session finds the last accepted
      write, with any partitions, restarts, consumer failures, evictions and corruptions. */
  lemma OfflineReadsFindTheLastWrite(w0: World, partitions: nat, now: int, tr: seq<Step>, w: World, st: Step, u: string)
    requires w0 == Init(partitions, now) && Legal(w0, tr) && Always(w0, tr, (w, st) => Offline(w, st, u)) &&
             w == After(w0, tr)
    requires Offline(w, st, u) && (st.CacheGet? || st.TableGet?) && w.calls[st.id].op.user == u
    ensures FindsLast(w, st, LastAccepted(w0, tr, u))
  {
    AlwaysDirect(partitions, now, tr, u);
    assert Active(w, st.id, u);
    LookupFinds(w, st, u, LastAccepted(w0, tr, u));
  }

  /** And between requests an uncorrupted entry equals the row, without any draining. */
  lemma OfflineEntryEqualsRow(w0: World, partitions: nat, now: int, tr: seq<Step>, w: World, u: string)
    requires w0 == Init(partitions, now) && Legal(w0, tr) && Always(w0, tr, (w, st) => Offline(w, st, u)) &&
             w == After(w0, tr)
    requires Idle(w, u)
    ensures CacheMatches(w, u, Row(w, u))
  {
    AlwaysDirect(partitions, now, tr, u);
  }
}
