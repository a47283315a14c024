/**
  Users do not interfere: an interleaved run of everybody, restricted to one user's steps with
  commits, restarts and the clock shared, is a run that leaves that user's data the same.
 */
module Projection {
  import opened Model
  import opened Machine
  import opened Frames
  import opened Requests
  import opened Offsets
  import opened Pending

  // ---------- Restricting a state ----------

  function Only<V>(m: map<string, V>, u: string): map<string, V> {
    map k | k in m && k == u :: m[k]
  }

  function CallsOf(calls: map<nat, Call>, u: string): map<nat, Call> {
    map id | id in calls && calls[id].op.user == u :: calls[id]
  }

  function WarmsOf(warms: map<nat, Warm>, calls: map<nat, Call>, u: string): map<nat, Warm> {
    map id | id in warms && id in calls && calls[id].op.user == u :: warms[id]
  }

  /** The messages of `u`, in order. */
  function Mine(msgs: seq<Message>, u: string): seq<Message> {
    if msgs == [] then [] else
      Mine(msgs[..|msgs| - 1], u) + if IsOf(msgs[|msgs| - 1], u) then [msgs[|msgs| - 1]] else []
  }

  function Take(msgs: seq<Message>, n: nat): seq<Message> {
    if n <= |msgs| then msgs[..n] else msgs
  }

  function FatesOf(first: seq<Fate>, msgs: seq<Message>, u: string): seq<Fate> {
    if first == [] || |first| > |msgs| then [] else
      FatesOf(first[..|first| - 1], msgs, u) + if IsOf(msgs[|first| - 1], u) then [first[|first| - 1]] else []
  }

  function PartOf(part: Partition, u: string): Partition {
    Partition(Mine(part.msgs, u), |Mine(Take(part.msgs, part.fetched), u)|, |Mine(Take(part.msgs, part.committed), u)|,
              part.holding && 0 < part.fetched <= |part.msgs| && IsOf(part.msgs[part.fetched - 1], u),
              FatesOf(part.first, part.msgs, u))
  }

  function LogOf(log: seq<Partition>, u: string): seq<Partition> {
    seq(|log|, p requires 0 <= p < |log| => PartOf(log[p], u))
  }

  function Restrict(w: World, u: string): World {
    World(Only(w.table, u), Only(w.cache, u), LogOf(w.log, u), CallsOf(w.calls, u), WarmsOf(w.warms, w.calls, u), w.now)
  }

  // ---------- Restricting a run ----------

  /** The step matters to `u`. */
  predicate Matters(w: World, st: Step, u: string)
    requires Enabled(w, st)
  {
    match st
    case Begin(_, op) => op.user == u
    case WarmRead(id) => id in w.calls && w.calls[id].op.user == u
    case WarmSet(id, _) => id in w.calls && w.calls[id].op.user == u
    case Fetch(p) => IsOf(w.log[p].msgs[w.log[p].fetched], u)
    case Handle(p, _) => IsOf(Held(w.log[p]), u)
    case Commit(_) => true
    case Restart(_) => true
    case Tick(_) => true
    case Evict(user) => user == u
    case Damage(user) => user == u
    case Poison(_) => false
    case _ => w.calls[st.id].op.user == u
  }

  ghost function StepsOf(w0: World, tr: seq<Step>, u: string): seq<Step>
    requires Legal(w0, tr)
  {
    if tr == [] then [] else
      StepsOf(w0, tr[..|tr| - 1], u) +
      if Matters(After(w0, tr[..|tr| - 1]), tr[|tr| - 1], u) then [tr[|tr| - 1]] else []
  }

  // ---------- Filtering a log ----------

  lemma MineAppend(msgs: seq<Message>, m: Message, u: string)
    ensures Mine(msgs + [m], u) == Mine(msgs, u) + if IsOf(m, u) then [m] else []
  {
    assert (msgs + [m])[..|msgs|] == msgs;
  }

  lemma {:induction false} MinePrefix(msgs: seq<Message>, n: nat, u: string)
    requires n <= |msgs|
    ensures Mine(msgs[..n], u) <= Mine(msgs, u)
  {
    if n < |msgs| {
      MinePrefix(msgs[..|msgs| - 1], n, u);
      assert msgs[..|msgs| - 1][..n] == msgs[..n];
    } else {
      assert msgs[..n] == msgs;
    }
  }

  lemma MineNext(msgs: seq<Message>, n: nat, u: string)
    requires n < |msgs|
    ensures Mine(msgs[..n + 1], u) == Mine(msgs[..n], u) + if IsOf(msgs[n], u) then [msgs[n]] else []
    ensures IsOf(msgs[n], u) ==>
              |Mine(msgs[..n], u)| < |Mine(msgs, u)| && Mine(msgs, u)[|Mine(msgs[..n], u)|] == msgs[n]
  {
    assert msgs[..n + 1] == msgs[..n] + [msgs[n]];
    MineAppend(msgs[..n], msgs[n], u);
    MinePrefix(msgs, n + 1, u);
  }

  lemma {:induction false} FatesCount(first: seq<Fate>, msgs: seq<Message>, u: string)
    requires |first| <= |msgs|
    ensures |FatesOf(first, msgs, u)| == |Mine(msgs[..|first|], u)|
  {
    if first != [] {
      FatesCount(first[..|first| - 1], msgs, u);
      MineNext(msgs, |first| - 1, u);
    }
  }

  lemma {:induction false} FatesIgnoreLater(first: seq<Fate>, msgs: seq<Message>, m: Message, u: string)
    requires |first| <= |msgs|
    ensures FatesOf(first, msgs + [m], u) == FatesOf(first, msgs, u)
  {
    if first != [] { FatesIgnoreLater(first[..|first| - 1], msgs, m, u); }
  }

  // ---------- One partition under each step ----------

  lemma PartAppend(part: Partition, m: Message, u: string)
    requires InOrder(part)
    ensures PartOf(part.(msgs := part.msgs + [m]), u) ==
            PartOf(part, u).(msgs := Mine(part.msgs, u) + if IsOf(m, u) then [m] else [])
  {
    MineAppend(part.msgs, m, u);
    FatesIgnoreLater(part.first, part.msgs, m, u);
    assert (part.msgs + [m])[..part.fetched] == part.msgs[..part.fetched];
    assert (part.msgs + [m])[..part.committed] == part.msgs[..part.committed];
  }

  lemma PartFetch(part: Partition, u: string)
    requires InOrder(part) && !part.holding && part.fetched < |part.msgs|
    ensures var part', mine := part.(fetched := part.fetched + 1, holding := true), PartOf(part, u);
            if IsOf(part.msgs[part.fetched], u)
            then mine.fetched < |mine.msgs| && PartOf(part', u) == mine.(fetched := mine.fetched + 1, holding := true)
            else PartOf(part', u) == mine
  {
    MineNext(part.msgs, part.fetched, u);
  }

  lemma FatesAppend(first: seq<Fate>, fate: Fate, msgs: seq<Message>, u: string)
    requires |first| < |msgs|
    ensures FatesOf(first + [fate], msgs, u) == FatesOf(first, msgs, u) + if IsOf(msgs[|first|], u) then [fate] else []
  {
    assert (first + [fate])[..|first|] == first;
  }

  /** Whether this is the first delivery looks the same to `u` alone. */
  lemma SameDelivery(msgs: seq<Message>, n: nat, k: nat, u: string)
    requires n <= k <= |msgs| && n < |msgs| && IsOf(msgs[n], u)
    ensures |Mine(msgs[..n + 1], u)| == |Mine(msgs[..n], u)| + 1
    ensures |Mine(msgs[..n], u)| == |Mine(msgs[..k], u)| <==> n == k
  {
    MineNext(msgs, n, u);
    if n < k {
      MinePrefix(msgs[..k], n + 1, u);
      assert msgs[..k][..n + 1] == msgs[..n + 1];
    }
  }

  lemma PartHandle(part: Partition, ok: bool, u: string)
    requires InOrder(part) && part.holding && 0 < part.fetched
    ensures if IsOf(Held(part), u) then
              && PartOf(part, u).holding && 0 < PartOf(part, u).fetched <= |PartOf(part, u).msgs|
              && Held(PartOf(part, u)) == Held(part)
              && PartOf(HandledPart(part, ok), u) == HandledPart(PartOf(part, u), ok)
            else PartOf(HandledPart(part, ok), u) == PartOf(part, u)
  {
    var n := part.fetched - 1;
    MineNext(part.msgs, n, u);
    FatesCount(part.first, part.msgs, u);
    if IsOf(Held(part), u) { SameDelivery(part.msgs, n, |part.first|, u); }
    if n == |part.first| { FatesAppend(part.first, Outcome(Held(part), ok), part.msgs, u); }
  }

  lemma PartCommit(part: Partition, u: string)
    requires InOrder(part) && !part.holding
    ensures PartOf(part.(committed := part.fetched), u) == PartOf(part, u).(committed := PartOf(part, u).fetched)
  {
  }

  // ---------- Restriction commutes with the updates of the stores ----------

  lemma OnlyUpdate<V>(m: map<string, V>, k: string, v: V, u: string)
    ensures Only(m[k := v], u) == if k == u then Only(m, u)[u := v] else Only(m, u)
  {
  }

  lemma CallsUpdate(w: World, id: nat, c: Call, u: string)
    requires if id in w.calls then c.op == w.calls[id].op else id !in w.warms
    ensures CallsOf(w.calls[id := c], u) == if c.op.user == u then CallsOf(w.calls, u)[id := c] else CallsOf(w.calls, u)
    ensures WarmsOf(w.warms, w.calls[id := c], u) == WarmsOf(w.warms, w.calls, u)
  {
  }

  lemma WarmsUpdate(w: World, id: nat, m: Warm, u: string)
    requires id in w.calls
    ensures WarmsOf(w.warms[id := m], w.calls, u) ==
            if w.calls[id].op.user == u then WarmsOf(w.warms, w.calls, u)[id := m] else WarmsOf(w.warms, w.calls, u)
    ensures WarmsOf(w.warms - {id}, w.calls, u) ==
            if w.calls[id].op.user == u then WarmsOf(w.warms, w.calls, u) - {id} else WarmsOf(w.warms, w.calls, u)
  {
  }

  lemma LogUpdate(log: seq<Partition>, p: nat, part: Partition, u: string)
    requires p < |log|
    ensures LogOf(log[p := part], u) == LogOf(log, u)[p := PartOf(part, u)]
  {
  }

  lemma LogUnchanged(log: seq<Partition>, p: nat, part: Partition, u: string)
    requires p < |log| && PartOf(part, u) == PartOf(log[p], u)
    ensures LogOf(log[p := part], u) == LogOf(log, u)
  {
  }

  ghost predicate Commutes(w: World, st: Step, u: string)
    requires Enabled(w, st)
  {
    if Matters(w, st, u)
    then Enabled(Restrict(w, u), st) && Restrict(Apply(w, st), u) == Apply(Restrict(w, u), st)
    else Restrict(Apply(w, st), u) == Restrict(w, u)
  }

  lemma PutTableRestricts(w: World, s: Session, ok: bool, u: string)
    ensures Restrict(PutTable(w, s, ok), u) == if s.user == u then PutTable(Restrict(w, u), s, ok) else Restrict(w, u)
  {
    OnlyUpdate(w.table, s.user, Stored(s), u);
  }

  lemma PutCacheRestricts(w: World, s: Session, ok: bool, u: string)
    ensures Restrict(PutCache(w, s, ok), u) == if s.user == u then PutCache(Restrict(w, u), s, ok) else Restrict(w, u)
  {
    OnlyUpdate(w.cache, s.user, Entry(Good(s), w.now + CACHE_TTL), u);
  }

  function SetCall(w: World, id: nat, c: Call): World {
    w.(calls := w.calls[id := c])
  }

  lemma SetCallRestricts(w: World, id: nat, c: Call, u: string)
    requires if id in w.calls then c.op == w.calls[id].op else id !in w.warms
    ensures Restrict(SetCall(w, id, c), u) == if c.op.user == u then SetCall(Restrict(w, u), id, c) else Restrict(w, u)
  {
    CallsUpdate(w, id, c, u);
  }

  lemma BeginCommutes(w: World, st: Step, u: string)
    requires Enabled(w, st) && Sound(w) && st.Begin?
    ensures Commutes(w, st, u)
  {
    SetCallRestricts(w, st.id, NewCall(st.op, w.now), u);
  }

  lemma UpsertCommutes(w: World, st: Step, u: string)
    requires Enabled(w, st) && Sound(w) && st.Upsert?
    ensures Commutes(w, st, u)
  {
    var s := w.calls[st.id].obj.value;
    PutTableRestricts(w, s, st.ok, u);
    SetCallRestricts(PutTable(w, s, st.ok), st.id, Apply(w, st).calls[st.id], u);
  }

  lemma CacheSetCommutes(w: World, st: Step, u: string)
    requires Enabled(w, st) && Sound(w) && st.CacheSet?
    ensures Commutes(w, st, u)
  {
    var s := w.calls[st.id].obj.value;
    PutCacheRestricts(w, s, st.ok, u);
    SetCallRestricts(PutCache(w, s, st.ok), st.id, Apply(w, st).calls[st.id], u);
  }

  lemma AppendRestricts(w: World, p: nat, m: Message, u: string)
    requires p < |w.log| && InOrder(w.log[p])
    ensures Restrict(Appended(w, p, m), u) == if IsOf(m, u) then Appended(Restrict(w, u), p, m) else Restrict(w, u)
  {
    var part' := w.log[p].(msgs := w.log[p].msgs + [m]);
    PartAppend(w.log[p], m, u);
    if IsOf(m, u) { LogUpdate(w.log, p, part', u); } else { LogUnchanged(w.log, p, part', u); }
  }

  lemma LandedCommutes(w: World, st: Step, u: string)
    requires Enabled(w, st) && Sound(w) && AllInOrder(w) && st.Publish?
    requires st.where.Some? && Arrives(w, st, st.where.value) != []
    ensures Commutes(w, st, u)
  {
    var p, c', m := st.where.value, Apply(w, st).calls[st.id], Beat(st.id, w.calls[st.id].obj.value);
    var w1 := Appended(w, p, m);
    assert InOrder(w.log[p]) && Apply(w, st) == SetCall(w1, st.id, c');
    AppendRestricts(w, p, m, u);
    SetCallRestricts(w1, st.id, c', u);
  }

  lemma PublishCommutes(w: World, st: Step, u: string)
    requires Enabled(w, st) && Sound(w) && AllInOrder(w) && st.Publish?
    ensures Commutes(w, st, u)
  {
    if st.where.Some? && Arrives(w, st, st.where.value) != [] {
      LandedCommutes(w, st, u);
    } else {
      assert Apply(w, st) == SetCall(w, st.id, Apply(w, st).calls[st.id]);
      SetCallRestricts(w, st.id, Apply(w, st).calls[st.id], u);
    }
  }

  lemma CacheGetCommutes(w: World, st: Step, u: string)
    requires Enabled(w, st) && Sound(w) && st.CacheGet?
    ensures Commutes(w, st, u)
  {
    SetCallRestricts(w, st.id, Apply(w, st).calls[st.id], u);
  }

  lemma SpawnRestricts(w: World, id: nat, u: string)
    requires id in w.calls
    ensures Restrict(w.(warms := w.warms[id := Unread]), u) ==
            if w.calls[id].op.user == u then Restrict(w, u).(warms := Restrict(w, u).warms[id := Unread])
            else Restrict(w, u)
  {
    WarmsUpdate(w, id, Unread, u);
  }

  lemma TableGetCommutes(w: World, st: Step, u: string)
    requires Enabled(w, st) && Sound(w) && st.TableGet?
    ensures Commutes(w, st, u)
  {
    var user := w.calls[st.id].op.user;
    if st.ok && user in w.table {
      var v := Got(w, st.id, w.table[user]);
      SetCallRestricts(w, st.id, v.calls[st.id], u);
      SpawnRestricts(v, st.id, u);
    } else {
      SetCallRestricts(w, st.id, Apply(w, st).calls[st.id], u);
    }
  }

  lemma AssignCommutes(w: World, st: Step, u: string)
    requires Enabled(w, st) && Sound(w) && st.Assign?
    ensures Commutes(w, st, u)
  {
    SetCallRestricts(w, st.id, Apply(w, st).calls[st.id], u);
  }

  lemma WarmReadCommutes(w: World, st: Step, u: string)
    requires Enabled(w, st) && Sound(w) && st.WarmRead?
    ensures Commutes(w, st, u)
  {
    WarmsUpdate(w, st.id, NextWarm(w.warms[st.id], w.calls[st.id].obj.value), u);
  }

  lemma WarmSetCommutes(w: World, st: Step, u: string)
    requires Enabled(w, st) && Sound(w) && st.WarmSet?
    ensures Commutes(w, st, u)
  {
    var s := w.warms[st.id].s;
    assert st.id in w.calls;
    PutCacheRestricts(w, s, st.ok, u);
    WarmsUpdate(PutCache(w, s, st.ok), st.id, Unread, u);
  }

  lemma SetPartitionRestricts(w: World, p: nat, part: Partition, u: string)
    requires p < |w.log|
    ensures Restrict(SetPartition(w, p, part), u) == SetPartition(Restrict(w, u), p, PartOf(part, u))
    ensures PartOf(part, u) == PartOf(w.log[p], u) ==> Restrict(SetPartition(w, p, part), u) == Restrict(w, u)
  {
    LogUpdate(w.log, p, part, u);
  }

  lemma FetchCommutes(w: World, st: Step, u: string)
    requires Enabled(w, st) && AllInOrder(w) && st.Fetch?
    ensures Commutes(w, st, u)
  {
    PartFetch(w.log[st.p], u);
    SetPartitionRestricts(w, st.p, Apply(w, st).log[st.p], u);
  }

  lemma HandleCommutes(w: World, st: Step, u: string)
    requires Enabled(w, st) && AllInOrder(w) && st.Handle?
    ensures Commutes(w, st, u)
  {
    var m, part' := Held(w.log[st.p]), HandledPart(w.log[st.p], st.ok);
    PartHandle(w.log[st.p], st.ok, u);
    if m.Beat? {
      PutTableRestricts(w, m.s, st.ok, u);
      SetPartitionRestricts(PutTable(w, m.s, st.ok), st.p, part', u);
    } else {
      SetPartitionRestricts(w, st.p, part', u);
    }
  }

  lemma PositionCommutes(w: World, st: Step, u: string)
    requires Enabled(w, st) && AllInOrder(w) && (st.Commit? || st.Restart?)
    ensures Commutes(w, st, u)
  {
    if st.Commit? { PartCommit(w.log[st.p], u); }
    SetPartitionRestricts(w, st.p, Apply(w, st).log[st.p], u);
  }

  lemma EnvironmentCommutes(w: World, st: Step, u: string)
    requires Enabled(w, st) && AllInOrder(w) && (st.Tick? || st.Evict? || st.Damage? || st.Poison?)
    ensures Commutes(w, st, u)
  {
    if st.Damage? {
      OnlyUpdate(w.cache, st.user, w.cache[st.user].(content := Corrupt), u);
    } else if st.Poison? {
      AppendRestricts(w, st.p, Malformed, u);
    }
  }

  lemma StepCommutes(w: World, st: Step, u: string)
    requires Enabled(w, st) && Sound(w) && AllInOrder(w)
    ensures Commutes(w, st, u)
  {
    if st.Begin? { BeginCommutes(w, st, u); }
    else if st.Upsert? { UpsertCommutes(w, st, u); }
    else if st.CacheSet? { CacheSetCommutes(w, st, u); }
    else if st.Publish? { PublishCommutes(w, st, u); }
    else if st.CacheGet? { CacheGetCommutes(w, st, u); }
    else if st.TableGet? { TableGetCommutes(w, st, u); }
    else if st.Assign? { AssignCommutes(w, st, u); }
    else if st.WarmRead? { WarmReadCommutes(w, st, u); }
    else if st.WarmSet? { WarmSetCommutes(w, st, u); }
    else if st.Fetch? { FetchCommutes(w, st, u); }
    else if st.Handle? { HandleCommutes(w, st, u); }
    else if st.Commit? || st.Restart? { PositionCommutes(w, st, u); }
    else { EnvironmentCommutes(w, st, u); }
  }

  /** The steps of `u` taken out of an interleaved run are themselves a run, from the data of
      `u` at the start to the data of `u` at the end. */
  lemma {:induction false} UserRunsAlone(w0: World, tr: seq<Step>, u: string)
    requires Legal(w0, tr) && Sound(w0) && AllInOrder(w0)
    ensures Legal(Restrict(w0, u), StepsOf(w0, tr, u))
    ensures After(Restrict(w0, u), StepsOf(w0, tr, u)) == Restrict(After(w0, tr), u)
  {
    if tr != [] {
      var init, st := tr[..|tr| - 1], tr[|tr| - 1];
      UserRunsAlone(w0, init, u);
      AlwaysSound(w0, init);
      AlwaysInOrder(w0, init);
      StepCommutes(After(w0, init), st, u);
      AloneStep(Restrict(w0, u), StepsOf(w0, init, u), After(w0, init), st, u);
    }
  }

  lemma AloneStep(v0: World, steps: seq<Step>, w: World, st: Step, u: string)
    requires Legal(v0, steps) && After(v0, steps) == Restrict(w, u) && Enabled(w, st) && Commutes(w, st, u)
    ensures var steps' := steps + if Matters(w, st, u) then [st] else [];
            Legal(v0, steps') && After(v0, steps') == Restrict(Apply(w, st), u)
  {
    if Matters(w, st, u) { Extend(v0, steps, st); } else { assert steps + [] == steps; }
  }

  lemma {:induction false} MineSplits(msgs: seq<Message>, n: nat, u: string)
    requires n <= |msgs|
    ensures Mine(msgs, u) == Mine(msgs[..n], u) + Mine(msgs[n..], u)
  {
    if n == |msgs| {
      assert msgs[..n] == msgs && msgs[n..] == [];
    } else {
      var init := msgs[..|msgs| - 1];
      MineSplits(init, n, u);
      assert msgs[n..] == init[n..] + [msgs[|msgs| - 1]] && init[..n] == msgs[..n];
      MineAppend(init[n..], msgs[|msgs| - 1], u);
    }
  }

  /** And that final state has the cache entry, the row and the pending messages of `u`. */
  lemma RestrictKeepsUsersData(w: World, u: string, p: nat)
    requires AllInOrder(w) && p < |w.log|
    ensures Cached(Restrict(w, u), u) == Cached(w, u) && Row(Restrict(w, u), u) == Row(w, u)
    ensures var part := Restrict(w, u).log[p];
            part.fetched <= |part.msgs| && part.msgs[part.fetched..] == Mine(w.log[p].msgs[w.log[p].fetched..], u)
  {
    MineSplits(w.log[p].msgs, w.log[p].fetched, u);
  }

  lemma RestrictInit(partitions: nat, now: int, u: string)
    ensures Restrict(Init(partitions, now), u) == Init(partitions, now)
  {
  }

  /** So every run of the service, seen by one user, is a run of that user alone. */
  lemma UsersRunAloneFromTheStart(partitions: nat, now: int, tr: seq<Step>, u: string)
    requires Legal(Init(partitions, now), tr)
    ensures Legal(Init(partitions, now), StepsOf(Init(partitions, now), tr, u))
    ensures After(Init(partitions, now), StepsOf(Init(partitions, now), tr, u)) ==
            Restrict(After(Init(partitions, now), tr), u)
  {
    RestrictInit(partitions, now, u);
    UserRunsAlone(Init(partitions, now), tr, u);
  }
}
