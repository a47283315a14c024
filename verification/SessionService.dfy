/** The code of internal/session, with every other goroutine running between its store calls. */
module SessionService {
  import opened Model
  import opened Machine
  import opened Frames
  import opened Requests
  import opened Event
  import opened Backend

  datatype Error = NoError | NotFoundError | InternalError

  // ---------- What a request has read ----------

  /** At step `n` request `me` read a live entry of the cache. */
  ghost predicate HitAt(w0: World, tr: seq<Step>, n: int, me: nat, user: string, out: Outcomes,
                        read: Option<Session>)
  {
    0 <= n < |tr| && tr[n] == CacheGet(me, out.cacheRead) && Legal(w0, tr[..n]) &&
    var w := After(w0, tr[..n]);
    out.cacheRead && Hit(w, user) && read == Some(w.cache[user].content.s)
  }

  /** At step `n` it found no live entry, or could not reach the cache, and at step `m` it took the
      row, or found none, or could not reach the table. */
  ghost predicate MissAt(w0: World, tr: seq<Step>, n: int, m: int, me: nat, user: string, out: Outcomes,
                         read: Option<Session>, err: Error)
  {
    0 <= n < m < |tr| && tr[n] == CacheGet(me, out.cacheRead) && tr[m] == TableGet(me, out.tableRead) &&
    Legal(w0, tr[..n]) && Legal(w0, tr[..m]) && !(out.cacheRead && Hit(After(w0, tr[..n]), user)) &&
    var table := After(w0, tr[..m]).table;
    if !out.tableRead then read == None && err == InternalError
    else if user !in table then read == None && err == NotFoundError
    else read == Some(table[user]) && err == NoError
  }

  /** The cache first, and the table exactly when the cache has no answer. */
  ghost predicate ReadAs(w0: World, tr: seq<Step>, me: nat, user: string, out: Outcomes, read: Option<Session>,
                         err: Error)
  {
    || (err == NoError && exists n :: HitAt(w0, tr, n, me, user, out, read))
    || exists n, m :: MissAt(w0, tr, n, m, me, user, out, read, err)
  }

  lemma ReadAsLonger(w0: World, tr: seq<Step>, tr': seq<Step>, me: nat, user: string, out: Outcomes,
                     read: Option<Session>, err: Error)
    requires tr <= tr' && ReadAs(w0, tr, me, user, out, read, err)
    ensures ReadAs(w0, tr', me, user, out, read, err)
  {
    if n :| err == NoError && HitAt(w0, tr, n, me, user, out, read) {
      assert tr'[..n] == tr[..n];
      assert HitAt(w0, tr', n, me, user, out, read);
    } else {
      var n, m :| MissAt(w0, tr, n, m, me, user, out, read, err);
      assert tr'[..n] == tr[..n] && tr'[..m] == tr[..m];
      assert MissAt(w0, tr', n, m, me, user, out, read, err);
    }
  }

  lemma ReadsHit(w0: World, before: seq<Step>, tr: seq<Step>, me: nat, user: string, out: Outcomes,
                 read: Option<Session>)
    requires Legal(w0, before) && tr == before + [CacheGet(me, out.cacheRead)] && out.cacheRead
    requires Hit(After(w0, before), user) && read == Some(After(w0, before).cache[user].content.s)
    ensures ReadAs(w0, tr, me, user, out, read, NoError)
  {
    assert tr[..|before|] == before;
    assert HitAt(w0, tr, |before|, me, user, out, read);
  }

  lemma ReadsMiss(w0: World, first: seq<Step>, second: seq<Step>, tr: seq<Step>, me: nat, user: string, out: Outcomes,
                  read: Option<Session>, err: Error)
    requires Legal(w0, first) && Legal(w0, second) && first + [CacheGet(me, out.cacheRead)] <= second
    requires tr == second + [TableGet(me, out.tableRead)] && !(out.cacheRead && Hit(After(w0, first), user))
    requires var table := After(w0, second).table;
             if !out.tableRead then read == None && err == InternalError
             else if user !in table then read == None && err == NotFoundError
             else read == Some(table[user]) && err == NoError
    ensures ReadAs(w0, tr, me, user, out, read, err)
  {
    assert tr[..|first|] == first && tr[..|second|] == second && tr[|first|] == CacheGet(me, out.cacheRead);
    assert MissAt(w0, tr, |first|, |second|, me, user, out, read, err);
  }

  lemma {:induction false} ClockGrows(w0: World, tr: seq<Step>, tr': seq<Step>)
    requires Legal(w0, tr') && tr <= tr'
    ensures Legal(w0, tr) && After(w0, tr).now <= After(w0, tr').now
    decreases |tr'|
  {
    if |tr| < |tr'| {
      var init, st := tr'[..|tr'| - 1], tr'[|tr'| - 1];
      Shorter(w0, tr', init, st);
      ClockGrows(w0, tr, init);
      ClockAfter(After(w0, init), st);
    } else {
      assert tr == tr';
    }
  }

  class PlaybackSession {
    var userID: string
    var trackID: string
    var position: int
    var status: string
    var deviceID: string
    var updatedAt: int

    constructor (s: Session)
      ensures Value() == s
    {
      userID, trackID, position := s.user, s.track, s.position;
      status, deviceID, updatedAt := s.status, s.device, s.stamp;
    }

    function Value(): Session
      reads this
    {
      Session(userID, trackID, position, status, deviceID, updatedAt)
    }
  }

  class Repository {
    const sys: System

    constructor (sys: System)
      ensures this.sys == sys
    {
      this.sys := sys;
    }

    /** The row is replaced whole or the table is left alone. */
    method Upsert(s: PlaybackSession, up: bool) returns (ok: bool)
      modifies sys.db
      ensures ok <==> up && -2_147_483_648 <= s.position <= 2_147_483_647
      ensures sys.db.rows == if ok then old(sys.db.rows)[s.userID := Stored(s.Value())] else old(sys.db.rows)
      ensures ok ==> var row := sys.db.rows[s.userID];
                     && row.user == s.userID && row.track == s.trackID && row.position == s.position
                     && row.status == s.status && row.device == s.deviceID
                     && row.stamp % 1000 == 0 && row.stamp <= s.updatedAt < row.stamp + 1000
    {
      ok := up && Fits(s.Value());
      if ok {
        sys.db.rows := sys.db.rows[s.userID := Stored(s.Value())];
      }
    }

    method Encode(s: PlaybackSession) returns (data: Option<string>)
      ensures data.Some? <==> Encodable(s.updatedAt)
      ensures data.Some? ==> Unmarshal(data.value) == Some(s.Value())
    {
      data := Marshal(s.Value());
      SessionRoundTrip(s.Value());
    }

    /** The entry decodes to the session and lives for the TTL, or the cache is left alone. */
    method SetCache(s: PlaybackSession, up: bool) returns (ok: bool)
      modifies sys.cache
      ensures ok <==> up && Encodable(s.updatedAt)
      ensures ok ==> sys.Caches(s.userID, s.Value())
      ensures ok ==> sys.cache.values[s.userID].expiry == sys.clock.now + 86_400_000_000_000
      ensures ok ==> sys.cache.values == old(sys.cache.values)[s.userID := sys.cache.values[s.userID]]
      ensures !ok ==> sys.cache.values == old(sys.cache.values)
    {
      var data := Encode(s);
      ok := data.Some? && up;
      if ok {
        sys.cache.values := sys.cache.values[s.userID := Value.Value(data.value, sys.clock.now + CACHE_TTL)];
      }
    }

    /** Upsert by a request, some time after its last step. */
    method UpsertFor(me: nat, s: PlaybackSession, up: bool) returns (ok: bool)
      requires sys.Valid() && Enabled(sys.world, Step.Upsert(me, true)) && sys.world.calls[me].obj == Some(s.Value())
      modifies sys.Parts()
      ensures sys.Valid() && old(sys.trace) <= sys.trace && old(sys.world.now) <= sys.world.now
      ensures (ok <==> up && Fits(s.Value())) && Step.Upsert(me, up) in sys.trace
      ensures me in sys.world.calls && sys.world.calls[me] == old(sys.world.calls[me]).(pc := sys.world.calls[me].pc)
      ensures sys.world.calls[me].pc == if !ok then Done(Internal) else AfterUpsertPc(old(sys.world.calls[me].pc))
    {
      sys.Interleave(me);
      ok := UpsertNow(me, s, up);
    }

    method UpsertNow(me: nat, s: PlaybackSession, up: bool) returns (ok: bool)
      requires sys.Valid() && Enabled(sys.world, Step.Upsert(me, true)) && sys.world.calls[me].obj == Some(s.Value())
      modifies sys, sys.db
      ensures sys.Valid() && sys.trace == old(sys.trace) + [Step.Upsert(me, up)] && sys.world.now == old(sys.world.now)
      ensures ok <==> up && Fits(s.Value())
      ensures me in sys.world.calls && sys.world.calls[me] == old(sys.world.calls[me]).(pc := sys.world.calls[me].pc)
      ensures sys.world.calls[me].pc == if !ok then Done(Internal) else AfterUpsertPc(old(sys.world.calls[me].pc))
    {
      ok := Upsert(s, up);
      sys.Record(Step.Upsert(me, up));
    }

    /** SetCache by a request, some time after its last step. */
    method SetCacheFor(me: nat, s: PlaybackSession, up: bool) returns (ok: bool)
      requires sys.Valid() && Enabled(sys.world, CacheSet(me, true)) && sys.world.calls[me].obj == Some(s.Value())
      modifies sys.Parts()
      ensures sys.Valid() && old(sys.trace) <= sys.trace && old(sys.world.now) <= sys.world.now
      ensures |sys.world.log| == |old(sys.world.log)|
      ensures ok <==> up && Encodable(s.updatedAt)
      ensures ok ==> sys.Caches(s.userID, s.Value())
      ensures me in sys.world.calls && sys.world.calls[me] == old(sys.world.calls[me]).(pc := sys.world.calls[me].pc)
      ensures sys.world.calls[me].pc == if old(sys.world.calls[me].pc.BeatCache?) then BeatPublish else Done(Answered)
      ensures CacheSet(me, up) in sys.trace
    {
      sys.Interleave(me);
      ok := SetCacheNow(me, s, up);
    }

    method SetCacheNow(me: nat, s: PlaybackSession, up: bool) returns (ok: bool)
      requires sys.Valid() && Enabled(sys.world, CacheSet(me, true)) && sys.world.calls[me].obj == Some(s.Value())
      modifies sys, sys.cache
      ensures sys.Valid() && sys.trace == old(sys.trace) + [CacheSet(me, up)]
      ensures sys.world.now == old(sys.world.now) && sys.world.log == old(sys.world.log)
      ensures ok <==> up && Encodable(s.updatedAt)
      ensures ok ==> sys.Caches(s.userID, s.Value())
      ensures me in sys.world.calls && sys.world.calls[me] == old(sys.world.calls[me]).(pc := sys.world.calls[me].pc)
      ensures sys.world.calls[me].pc == if old(sys.world.calls[me].pc.BeatCache?) then BeatPublish else Done(Answered)
    {
      ok := SetCache(s, up);
      if ok {
        LinkCaches(old(sys.cache.values), sys.world.cache, s.userID, sys.cache.values[s.userID],
            sys.NewEntry(s.Value()));
      }
      sys.Record(CacheSet(me, up));
    }

    method GetFromDB(userID: string, up: bool) returns (s: PlaybackSession?, err: Error)
      ensures err.InternalError? <==> !up
      ensures err.NotFoundError? <==> up && userID !in sys.db.rows
      ensures err.NoError? <==> s != null
      ensures s != null ==> fresh(s) && userID in sys.db.rows && s.Value() == sys.db.rows[userID]
    {
      if !up { return null, InternalError; }
      if userID !in sys.db.rows { return null, NotFoundError; }
      s := new PlaybackSession(sys.db.rows[userID]);
      err := NoError;
    }

    /** What a read of the cache that gets through finds: nothing if the entry is missing,
        expired or unreadable. */
    function Live(userID: string): Option<Session>
      reads sys.cache, sys.clock
    {
      if userID in sys.cache.values && sys.clock.now < sys.cache.values[userID].expiry
      then Unmarshal(sys.cache.values[userID].data) else None
    }

    method GetFromCache(me: nat, userID: string, up: bool) returns (s: PlaybackSession?)
      requires sys.Valid() && me in sys.world.calls && sys.world.calls[me].pc.ReadCache?
      requires sys.world.calls[me].op.user == userID
      modifies sys
      ensures sys.Valid() && sys.trace == old(sys.trace) + [CacheGet(me, up)]
      ensures s != null <==> up && Live(userID).Some?
      ensures s != null ==> fresh(s) && Live(userID) == Some(s.Value())
      ensures me in sys.world.calls && sys.world.calls[me].op == old(sys.world.calls[me].op)
      ensures s == null ==> sys.world.calls[me].pc == ReadTable
      ensures s != null ==> sys.world.calls[me].obj == Some(s.Value()) && Got(sys.world.calls[me])
    {
      s := null;
      if up && userID in sys.cache.values && sys.clock.now < sys.cache.values[userID].expiry {
        var v := Unmarshal(sys.cache.values[userID].data);
        if v.Some? {
          s := new PlaybackSession(v.value);
        }
      }
      sys.Note(CacheGet(me, up));
    }

    /** The text of a live entry is the session of the step system. */
    lemma LiveIsHit(userID: string)
      requires sys.Valid()
      ensures Live(userID).Some? <==> Hit(sys.world, userID)
      ensures Hit(sys.world, userID) ==> Live(userID) == Some(sys.world.cache[userID].content.s)
    {
    }

    /** The request has been handed its session. */
    static predicate Got(c: Call) {
      c.pc == if c.op.GetCurrent? then Done(Answered) else SetStatus
    }

    /** A hit, or the row with a warm of the very object that is returned, or an error. */
    method Get(me: nat, userID: string, out: Outcomes) returns (s: PlaybackSession?, err: Error)
      requires sys.Valid() && me in sys.world.calls && sys.world.calls[me].pc.ReadCache?
      requires sys.world.calls[me].op.user == userID
      modifies sys.Parts()
      ensures sys.Valid() && old(sys.trace) <= sys.trace
      ensures me in sys.world.calls && sys.world.calls[me].op == old(sys.world.calls[me].op)
      ensures err.NoError? <==> s != null
      ensures s != null ==> fresh(s) && sys.world.calls[me].obj == Some(s.Value()) && Got(sys.world.calls[me])
      ensures err.NotFoundError? ==> sys.world.calls[me].pc == Done(NotFound)
      ensures err.InternalError? ==> sys.world.calls[me].pc == Done(Internal)
      ensures out.cacheRead && old(Live(userID)).Some? ==> s != null && Some(s.Value()) == old(Live(userID))
      ensures !(out.cacheRead && old(Live(userID)).Some?) ==>
                && (err.InternalError? <==> !out.tableRead)
                && (err.NotFoundError? <==> out.tableRead && userID !in sys.db.rows)
                && (s != null ==> userID in sys.db.rows && s.Value() == sys.db.rows[userID] &&
                                  me in sys.world.warms && sys.world.warms[me] == Unread)
      ensures ReadAs(sys.origin, sys.trace, me, userID, out, if s == null then None else Some(s.Value()), err)
    {
      ghost var first := sys.trace;
      LiveIsHit(userID);
      s := GetFromCache(me, userID, out.cacheRead);
      if s != null {
        ReadsHit(sys.origin, first, sys.trace, me, userID, out, Some(s.Value()));
        return s, NoError;
      }
      ghost var missed := sys.trace;
      sys.Interleave(me);
      ghost var second := sys.trace;
      assert missed <= second;
      s, err := ReadRow(me, userID, out.tableRead);
      ReadsMiss(sys.origin, first, second, sys.trace, me, userID, out, if s == null then None else Some(s.Value()),
          err);
      // Here the Go code starts Warm(me, s) in the background.
    }

    method ReadRow(me: nat, userID: string, up: bool) returns (s: PlaybackSession?, err: Error)
      requires sys.Valid() && me in sys.world.calls && sys.world.calls[me].pc.ReadTable?
      requires sys.world.calls[me].op.user == userID
      modifies sys
      ensures sys.Valid() && sys.trace == old(sys.trace) + [TableGet(me, up)]
      ensures me in sys.world.calls && sys.world.calls[me].op == old(sys.world.calls[me].op)
      ensures err.NoError? <==> s != null
      ensures err.NotFoundError? <==> up && userID !in sys.db.rows
      ensures err.InternalError? <==> !up
      ensures err.NotFoundError? ==> sys.world.calls[me].pc == Done(NotFound)
      ensures err.InternalError? ==> sys.world.calls[me].pc == Done(Internal)
      ensures s != null ==> fresh(s) && sys.world.calls[me].obj == Some(s.Value()) && Got(sys.world.calls[me])
      ensures s != null ==> userID in sys.db.rows && s.Value() == sys.db.rows[userID]
      ensures s != null ==> me in sys.world.warms && sys.world.warms[me] == Unread
    {
      s, err := GetFromDB(userID, up);
      sys.Note(TableGet(me, up));
    }

    /** One field has been read by the warm; then everybody else may run. */
    method ReadField(me: nat, s: PlaybackSession)
      requires sys.Valid() && me in sys.world.calls && sys.world.calls[me].obj == Some(s.Value())
      requires me in sys.world.warms && !sys.world.warms[me].Marshalled?
      modifies sys.Parts(), s
      ensures sys.Valid() && old(sys.trace) <= sys.trace
      ensures me in sys.world.calls && sys.world.calls[me].obj == Some(s.Value())
      ensures s.userID == old(s.userID) && s.trackID == old(s.trackID) && s.position == old(s.position)
      ensures me in sys.world.warms && sys.world.warms[me] == NextWarm(old(sys.world.warms[me]), old(s.Value()))
    {
      sys.Note(WarmRead(me));
      OwnerRuns(me, s);
    }

    /** The background warm: the owner of `s` may assign to it between any two reads here. */
    method Warm(me: nat, s: PlaybackSession, up: bool) returns (ghost cached: Session)
      requires sys.Valid() && me in sys.world.calls && sys.world.calls[me].obj == Some(s.Value())
      requires me in sys.world.warms && sys.world.warms[me].Unread?
      modifies sys.Parts(), s
      ensures sys.Valid() && old(sys.trace) <= sys.trace && me !in sys.world.warms && WarmSet(me, up) in sys.trace
      ensures cached.user == old(s.userID) && cached.track == old(s.trackID) && cached.position == old(s.position)
      ensures cached.status == old(s.status)
      ensures up && Encodable(cached.stamp) ==> sys.Caches(cached.user, cached)
    {
      var userID, trackID, position := s.userID, s.trackID, s.position;
      var status := s.status;
      ReadField(me, s);
      var deviceID := s.deviceID;
      ReadField(me, s);
      var updatedAt := s.updatedAt;
      ReadField(me, s);
      var read := new PlaybackSession(Session(userID, trackID, position, status, deviceID, updatedAt));
      cached := read.Value();
      WriteWarm(me, read, up);
    }

    method WriteWarm(me: nat, read: PlaybackSession, up: bool)
      requires sys.Valid() && me in sys.world.warms && sys.world.warms[me] == Marshalled(read.Value())
      modifies sys, sys.cache
      ensures sys.Valid() && sys.trace == old(sys.trace) + [WarmSet(me, up)] && me !in sys.world.warms
      ensures up && Encodable(read.updatedAt) ==> sys.Caches(read.userID, read.Value())
    {
      var ok := SetCache(read, up);
      if ok {
        LinkCaches(old(sys.cache.values), sys.world.cache, read.userID, sys.cache.values[read.userID],
            sys.NewEntry(read.Value()));
      }
      sys.Record(WarmSet(me, up));
    }

    /** Everybody else runs, the owner of `s` included; the warm and the identity of the session
        stay as they are. */
    method OwnerRuns(me: nat, s: PlaybackSession)
      requires sys.Valid() && me in sys.world.calls && sys.world.calls[me].obj == Some(s.Value()) &&
               me in sys.world.warms
      modifies sys.Parts(), s
      ensures sys.Valid() && old(sys.trace) <= sys.trace
      ensures me in sys.world.calls && sys.world.calls[me].obj == Some(s.Value())
      ensures s.userID == old(s.userID) && s.trackID == old(s.trackID) && s.position == old(s.position)
      ensures me in sys.world.warms && sys.world.warms[me] == old(sys.world.warms[me])
    {
    }
  }

  class Producer {
    const sys: System

    constructor (sys: System)
      ensures this.sys == sys
    {
      this.sys := sys;
    }

    /** The text goes to the end of the partition of the balancer's choice, or nowhere. */
    method Publish(text: string, where: Option<nat>) returns (ok: bool)
      requires where.Some? ==> where.value < |sys.broker.topics|
      modifies sys.broker
      ensures ok == where.Some?
      ensures where.None? ==> sys.broker.topics == old(sys.broker.topics)
      ensures where.Some? ==> var topic := old(sys.broker.topics)[where.value];
              sys.broker.topics == old(sys.broker.topics)[where.value := topic.(texts := topic.texts + [text])]
    {
      ok := where.Some?;
      if ok {
        var topic := sys.broker.topics[where.value];
        sys.broker.topics := sys.broker.topics[where.value := topic.(texts := topic.texts + [text])];
      }
    }
  }

  class Service {
    const sys: System
    const repo: Repository
    const producer: Producer

    constructor (sys: System)
      ensures Linked() && this.sys == sys
    {
      this.sys := sys;
      repo := new Repository(sys);
      producer := new Producer(sys);
    }

    predicate Linked() {
      repo.sys == sys && producer.sys == sys
    }

    /** The request has run to its end as `op` with this result. */
    ghost predicate Finished(me: nat, op: Op, result: Result)
      reads sys
    {
      me in sys.world.calls && sys.world.calls[me].op == op && sys.world.calls[me].pc == Done(result)
    }

    /** How Start, Pause and Resume end: the table first, then the cache, whose failure is
        only logged. */
    method Save(me: nat, sess: PlaybackSession, out: Outcomes) returns (ok: bool)
      requires Linked() && sys.Valid() && me in sys.world.calls && sys.world.calls[me].obj == Some(sess.Value())
      requires sys.world.calls[me].pc.StartUpsert? || sys.world.calls[me].pc.ModUpsert?
      modifies sys.Parts()
      ensures sys.Valid() && old(sys.trace) <= sys.trace && old(sys.clock.now) <= sys.clock.now
      ensures ok <==> out.tableWrite && Fits(sess.Value())
      ensures Step.Upsert(me, out.tableWrite) in sys.trace && (ok ==> CacheSet(me, out.cacheWrite) in sys.trace)
      ensures Finished(me, old(sys.world.calls[me].op), if ok then Answered else Internal)
      ensures sys.world.calls[me].obj == Some(sess.Value())
      ensures ok && out.cacheWrite && Encodable(sess.updatedAt) ==> sys.Caches(sess.userID, sess.Value())
    {
      ok := repo.UpsertFor(me, sess, out.tableWrite);
      if ok {
        var cached := repo.SetCacheFor(me, sess, out.cacheWrite);
      }
    }

    method Start(me: nat, userID: string, trackID: string, position: int, deviceID: string, out: Outcomes)
      returns (sess: PlaybackSession?, err: Error)
      requires Linked() && sys.Valid() && me !in sys.world.calls
      requires Validated(Op.Start(userID, trackID, position, deviceID))
      modifies sys.Parts()
      ensures sys.Valid() && old(sys.trace) <= sys.trace
      ensures var op := Op.Start(userID, trackID, position, deviceID);
              && (if err.NoError? then Finished(me, op, Answered) else err.InternalError? && Finished(me, op, Internal))
              && (err.NoError? <==> out.tableWrite && -2_147_483_648 <= position <= 2_147_483_647)
      ensures sess != null ==>
                sess.Value() == Session(userID, trackID, position, "playing", deviceID, old(sys.clock.now))
      ensures err.NoError? <==> sess != null
      ensures sess != null ==> fresh(sess) && sys.world.calls[me].obj == Some(sess.Value())
      ensures sess != null && out.cacheWrite && Encodable(sess.updatedAt) ==> sys.Caches(userID, sess.Value())
      ensures Step.Upsert(me, out.tableWrite) in sys.trace
      ensures sess != null ==> CacheSet(me, out.cacheWrite) in sys.trace
    {
      var op := Op.Start(userID, trackID, position, deviceID);
      sess := new PlaybackSession(Fresh(op, sys.clock.now));
      sys.Note(Begin(me, op));
      var ok := Save(me, sess, out);
      if !ok { return null, InternalError; }
      err := NoError;
    }

    /** The request begins and reads the user's session. */
    method Look(me: nat, op: Op, out: Outcomes) returns (sess: PlaybackSession?, err: Error)
      requires Linked() && sys.Valid() && me !in sys.world.calls && Validated(op) && Reads(op)
      modifies sys.Parts()
      ensures sys.Valid() && old(sys.trace) <= sys.trace
      ensures me in sys.world.calls && sys.world.calls[me].op == op
      ensures err.NoError? <==> sess != null
      ensures err.NotFoundError? ==> Finished(me, op, NotFound) && op.user !in sys.db.rows
      ensures err.InternalError? ==> Finished(me, op, Internal) && !out.tableRead
      ensures sess != null ==>
                fresh(sess) && sys.world.calls[me].obj == Some(sess.Value()) && Repository.Got(sys.world.calls[me])
      ensures ReadAs(sys.origin, sys.trace, me, op.user, out, if sess == null then None else Some(sess.Value()), err)
    {
      sys.Note(Begin(me, op));
      sys.Interleave(me);
      sess, err := repo.Get(me, op.user, out);
    }

    /** GetCurrent: the live entry of the cache if it can be read, and else the row. */
    method Current(me: nat, userID: string, out: Outcomes) returns (sess: PlaybackSession?, err: Error)
      requires Linked() && sys.Valid() && me !in sys.world.calls && Validated(GetCurrent(userID))
      modifies sys.Parts()
      ensures sys.Valid() && old(sys.trace) <= sys.trace
      ensures Finished(me, GetCurrent(userID),
                       if err.NoError? then Answered else if err.NotFoundError? then NotFound else Internal)
      ensures err.NoError? <==> sess != null
      ensures err.NotFoundError? ==> userID !in sys.db.rows
      ensures err.InternalError? ==> !out.tableRead
      ensures sess != null ==> fresh(sess) && sys.world.calls[me].obj == Some(sess.Value())
      ensures ReadAs(sys.origin, sys.trace, me, userID, out, if sess == null then None else Some(sess.Value()), err)
    {
      sess, err := Look(me, GetCurrent(userID), out);
    }

    /** The newest message of partition `p` is a heartbeat event of version 1, made now, of `s`. */
    ghost predicate HeartbeatEvent(p: nat, s: Session)
      reads sys.broker, sys.clock
    {
      p < |sys.broker.topics| && sys.broker.topics[p].texts != [] &&
      var texts := sys.broker.topics[p].texts;
      var e := ParseEnvelope(texts[|texts| - 1]);
      e.Some? && e.value.kind == "playback.heartbeat" && e.value.version == 1 && e.value.timestamp == sys.clock.now &&
      Unmarshal(e.value.payload) == Some(s)
    }

    /** The event for `sess` is encoded and handed to the producer. `encoded` is false when
        there is no such event, which ends the request. */
    method PublishFor(me: nat, sess: PlaybackSession, where: Option<nat>) returns (encoded: bool, published: bool)
      requires Linked() && sys.Valid() && me in sys.world.calls && sys.world.calls[me].obj == Some(sess.Value())
      requires sys.world.calls[me].pc.BeatPublish? && (where.Some? ==> where.value < |sys.world.log|)
      modifies sys, sys.broker
      ensures sys.Valid() && sys.trace == old(sys.trace) + [Step.Publish(me, where)]
      ensures encoded == (Encodable(sess.updatedAt) && Encodable(sys.clock.now)) &&
              published == (encoded && where.Some?)
      ensures published ==> HeartbeatEvent(where.value, sess.Value())
      ensures me in sys.world.calls && sys.world.calls[me] == old(sys.world.calls[me]).(pc := sys.world.calls[me].pc)
      ensures sys.world.calls[me].pc ==
              if !encoded then Done(Internal) else if where.None? then BeatFallback else Done(Acked(false))
    {
      var payload := NewEnvelope("playback.heartbeat", 1, sess.Value(), sys.clock.now);
      EnvelopeRoundTrip("playback.heartbeat", 1, sess.Value(), sys.clock.now);
      SessionRoundTrip(sess.Value());
      encoded, published := payload.Some?, false;
      if encoded {
        published := PublishText(me, sess, payload.value, where);
      } else {
        sys.Record(Step.Publish(me, where));
      }
    }

    method PublishText(me: nat, sess: PlaybackSession, text: string, where: Option<nat>) returns (ok: bool)
      requires Linked() && sys.Valid() && me in sys.world.calls && sys.world.calls[me].obj == Some(sess.Value())
      requires sys.world.calls[me].pc.BeatPublish? && Encodable(sess.updatedAt) && Encodable(sys.clock.now)
      requires Carries(text, Beat(me, sess.Value())) && (where.Some? ==> where.value < |sys.world.log|)
      modifies sys, sys.broker
      ensures ok == where.Some? && sys.Valid() && sys.trace == old(sys.trace) + [Step.Publish(me, where)]
      ensures where.Some? ==> where.value < |sys.broker.topics| && sys.broker.topics[where.value].texts != []
      ensures where.Some? ==>
                var texts := sys.broker.topics[where.value].texts; texts[|texts| - 1] == text
      ensures me in sys.world.calls && sys.world.calls[me] == old(sys.world.calls[me]).(pc := sys.world.calls[me].pc)
      ensures sys.world.calls[me].pc == if where.None? then BeatFallback else Done(Acked(false))
    {
      ok := producer.Publish(text, where);
      LinkAppends(old(sys.broker.topics), sys.world.log, where, text, Beat(me, sess.Value()));
      sys.Record(Step.Publish(me, where));
    }

    /** How a heartbeat that began at `before` ends: while the clock stays in the years that
        encode, the answer is nil if and only if the event was published or else the row written. */
    ghost predicate BeatReturns(me: nat, op: Op, out: Outcomes, err: Error, before: int)
      requires op.Heartbeat?
      reads sys, sys.clock
    {
      && (if err.NoError? then Finished(me, op, Acked(out.sent.None?))
          else err.InternalError? && Finished(me, op, Internal))
      && (err.NoError? && out.sent.None? ==> out.tableWrite && op.position <= 2_147_483_647)
      && (err.InternalError? && Encodable(before) && Encodable(sys.clock.now) ==>
            out.sent.None? && !(out.tableWrite && op.position <= 2_147_483_647))
    }

    /** The session of request `me` is in its event, which is the newest of its partition, or else
        has been upserted. */
    ghost predicate BeatKept(me: nat, sent: Option<nat>, s: Session)
      reads sys, sys.broker, sys.clock
    {
      && me in sys.world.calls && sys.world.calls[me].obj == Some(s)
      && if sent.Some? then HeartbeatEvent(sent.value, s) else Step.Upsert(me, true) in sys.trace
    }

    /** The cache is written first of all, then the log, then the table if need be; what is
        cached, published or stored is the session of this request. */
    method Heartbeat(me: nat, userID: string, trackID: string, position: int, deviceID: string, out: Outcomes)
      returns (err: Error)
      requires Linked() && sys.Valid() && me !in sys.world.calls
      requires Validated(Op.Heartbeat(userID, trackID, position, deviceID))
      requires out.sent.Some? ==> out.sent.value < |sys.world.log|
      modifies sys.Parts()
      ensures sys.Valid() && old(sys.trace) <= sys.trace && CacheSet(me, out.cacheWrite) in sys.trace
      ensures BeatReturns(me, Op.Heartbeat(userID, trackID, position, deviceID), out, err, old(sys.clock.now))
      ensures Step.Publish(me, out.sent) in sys.trace
      ensures err.NoError? ==>
                BeatKept(me, out.sent, Session(userID, trackID, position, "playing", deviceID, old(sys.clock.now)))
    {
      var op := Op.Heartbeat(userID, trackID, position, deviceID);
      var sess := BeginAndCache(me, op, out.cacheWrite);
      err := PublishOrFallBack(me, op, sess, out);
    }

    /** The session of a heartbeat is built and cached, or not if the cache is out of reach. */
    method BeginAndCache(me: nat, op: Op, up: bool) returns (sess: PlaybackSession)
      requires Linked() && sys.Valid() && me !in sys.world.calls && Validated(op) && op.Heartbeat?
      modifies sys.Parts()
      ensures sys.Valid() && old(sys.trace) <= sys.trace && CacheSet(me, up) in sys.trace
      ensures old(sys.world.now) <= sys.world.now && |sys.world.log| == |old(sys.world.log)|
      ensures fresh(sess) && sess.Value() ==
                             Session(op.user, op.track, op.position, "playing", op.device, old(sys.clock.now))
      ensures me in sys.world.calls && sys.world.calls[me] == Call(op, BeatPublish, Some(sess.Value()))
      ensures up && Encodable(sess.updatedAt) ==> sys.Caches(op.user, sess.Value())
    {
      sess := new PlaybackSession(Fresh(op, sys.clock.now));
      sys.Note(Begin(me, op));
      var cached := repo.SetCacheFor(me, sess, up);
    }

    /** The durable half of a heartbeat: the log, or the table if the log cannot be reached. */
    method PublishOrFallBack(me: nat, op: Op, sess: PlaybackSession, out: Outcomes) returns (err: Error)
      requires Linked() && sys.Valid() && me in sys.world.calls && op.Heartbeat?
      requires sys.world.calls[me] == Call(op, BeatPublish, Some(sess.Value()))
      requires sess.position == op.position >= 0
      requires out.sent.Some? ==> out.sent.value < |sys.world.log|
      modifies sys.Parts()
      ensures sys.Valid() && old(sys.trace) <= sys.trace && BeatReturns(me, op, out, err, sess.updatedAt)
      ensures Step.Publish(me, out.sent) in sys.trace
      ensures err.NoError? ==> BeatKept(me, out.sent, sess.Value())
    {
      sys.Interleave(me);
      var encoded, published := PublishFor(me, sess, out.sent);
      if !encoded { return InternalError; }
      err := NoError;
      if !published {
        err := Fallback(me, sess, out.tableWrite);
      }
    }

    /** The synchronous write when the event could not be published. */
    method Fallback(me: nat, sess: PlaybackSession, up: bool) returns (err: Error)
      requires Linked() && sys.Valid() && me in sys.world.calls && sys.world.calls[me].obj == Some(sess.Value())
      requires sys.world.calls[me].pc.BeatFallback?
      modifies sys.Parts()
      ensures sys.Valid() && old(sys.trace) <= sys.trace && old(sys.world.now) <= sys.world.now
      ensures err == if up && Fits(sess.Value()) then NoError else InternalError
      ensures Finished(me, old(sys.world.calls[me].op), if err.NoError? then Acked(true) else Internal)
      ensures sys.world.calls[me].obj == Some(sess.Value()) && Step.Upsert(me, up) in sys.trace
    {
      var ok := repo.UpsertFor(me, sess, up);
      err := if ok then NoError else InternalError;
    }

    /** Pause (`op.Pause?`) and Resume: read, assign to the object in place, save. `read` is the
        session as it was handed to the request. */
    method Change(me: nat, op: Op, out: Outcomes)
      returns (sess: PlaybackSession?, err: Error, ghost read: Option<Session>)
      requires Linked() && sys.Valid() && me !in sys.world.calls && Changes(op) && Validated(op)
      modifies sys.Parts()
      ensures sys.Valid() && old(sys.trace) <= sys.trace
      ensures Finished(me, op, if err.NoError? then Answered else if err.NotFoundError? then NotFound else Internal)
      ensures err.NoError? <==> sess != null
      ensures err.NotFoundError? ==> op.user !in sys.db.rows
      ensures ReadAs(sys.origin, sys.trace, me, op.user, out, read, if read.Some? then NoError else err)
      ensures read.Some? ==>
                (err.NoError? <==> out.tableWrite && -2_147_483_648 <= read.value.position <= 2_147_483_647)
      ensures sess != null ==>
                && read.Some?
                && sess.Value() == read.value.(status := if op.Pause? then "paused" else "playing",
                                               device := op.device, stamp := sess.updatedAt)
      ensures sess != null ==> fresh(sess) && old(sys.clock.now) <= sess.updatedAt <= sys.clock.now
      ensures sess != null && out.cacheWrite && Encodable(sess.updatedAt) ==> sys.Caches(sess.userID, sess.Value())
      ensures sess != null ==>
                && sys.Passed(me, Call(op, SetStatus, read)) && sys.Passed(me, Call(op, ModUpsert, Some(sess.Value())))
                && Step.Upsert(me, true) in sys.trace && CacheSet(me, out.cacheWrite) in sys.trace
    {
      read := None;
      sess, err := Look(me, op, out);
      if sess != null {
        read := Some(sess.Value());
        ghost var before := sys.trace;
        assert sys.Stood(before, me, Call(op, SetStatus, read));
        ClockGrows(sys.origin, old(sys.trace), before);
        var ok := MutateAndSave(me, op, sess, out);
        assert sys.trace[..|before|] == before;
        ReadAsLonger(sys.origin, before, sys.trace, me, op.user, out, read, NoError);
        if !ok { sess, err := null, InternalError; }
      }
    }

    method MutateAndSave(me: nat, op: Op, sess: PlaybackSession, out: Outcomes) returns (ok: bool)
      requires Linked() && sys.Valid() && me in sys.world.calls &&
               sys.world.calls[me] == Call(op, SetStatus, Some(sess.Value())) && Changes(op)
      modifies sys.Parts(), sess
      ensures sys.Valid() && old(sys.trace) <= sys.trace
      ensures ok <==> out.tableWrite && -2_147_483_648 <= old(sess.position) <= 2_147_483_647
      ensures sys.Passed(me, Call(op, ModUpsert, Some(sess.Value()))) && Step.Upsert(me, out.tableWrite) in sys.trace
      ensures Finished(me, op, if ok then Answered else Internal) && (ok ==> CacheSet(me, out.cacheWrite) in sys.trace)
      ensures sess.Value() == old(sess.Value()).(status := if op.Pause? then "paused" else "playing",
                                                      device := op.device, stamp := sess.updatedAt)
      ensures old(sys.clock.now) <= sess.updatedAt <= sys.clock.now
      ensures ok && out.cacheWrite && Encodable(sess.updatedAt) ==> sys.Caches(sess.userID, sess.Value())
    {
      Mutate(me, op, sess);
      ghost var before := sys.trace;
      assert sys.Stood(before, me, Call(op, ModUpsert, Some(sess.Value())));
      ok := Save(me, sess, out);
      assert sys.trace[..|before|] == before;
    }

    method Mutate(me: nat, op: Op, sess: PlaybackSession)
      requires sys.Valid() && me in sys.world.calls &&
               sys.world.calls[me] == Call(op, SetStatus, Some(sess.Value())) && Changes(op)
      modifies sys.Parts(), sess
      ensures sys.Valid() && old(sys.trace) <= sys.trace && old(sys.clock.now) <= sys.clock.now
      ensures me in sys.world.calls && sys.world.calls[me] == Call(op, ModUpsert, Some(sess.Value()))
      ensures sess.Value() == old(sess.Value()).(status := if op.Pause? then "paused" else "playing",
                                                      device := op.device, stamp := sys.clock.now)
    {
      AssignStatus(me, op, sess);
      AssignDevice(me, op, sess);
      AssignStamp(me, op, sess);
      ClockGrows(sys.origin, old(sys.trace), sys.trace);
    }

    method AssignStatus(me: nat, op: Op, sess: PlaybackSession)
      requires sys.Valid() && me in sys.world.calls &&
               sys.world.calls[me] == Call(op, SetStatus, Some(sess.Value())) && Changes(op)
      modifies sys.Parts(), sess
      ensures sys.Valid() && old(sys.trace) <= sys.trace
      ensures me in sys.world.calls && sys.world.calls[me] == Call(op, SetDevice, Some(sess.Value()))
      ensures sess.Value() == old(sess.Value()).(status := if op.Pause? then "paused" else "playing")
    {
      sys.Interleave(me);
      sess.status := if op.Pause? then StatusPaused else StatusPlaying;
      sys.Note(Assign(me));
    }

    method AssignDevice(me: nat, op: Op, sess: PlaybackSession)
      requires sys.Valid() && me in sys.world.calls &&
               sys.world.calls[me] == Call(op, SetDevice, Some(sess.Value())) && Changes(op)
      modifies sys.Parts(), sess
      ensures sys.Valid() && old(sys.trace) <= sys.trace
      ensures me in sys.world.calls && sys.world.calls[me] == Call(op, SetStamp, Some(sess.Value()))
      ensures sess.Value() == old(sess.Value()).(device := op.device)
    {
      sys.Interleave(me);
      sess.deviceID := op.device;
      sys.Note(Assign(me));
    }

    method AssignStamp(me: nat, op: Op, sess: PlaybackSession)
      requires sys.Valid() && me in sys.world.calls &&
               sys.world.calls[me] == Call(op, SetStamp, Some(sess.Value())) && Changes(op)
      modifies sys.Parts(), sess
      ensures sys.Valid() && old(sys.trace) <= sys.trace
      ensures me in sys.world.calls && sys.world.calls[me] == Call(op, ModUpsert, Some(sess.Value()))
      ensures sess.Value() == old(sess.Value()).(stamp := sys.clock.now)
    {
      sys.Interleave(me);
      sess.updatedAt := sys.clock.now;
      sys.Note(Assign(me));
    }
  }
}
