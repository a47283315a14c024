/** What one step can change, seen from one partition, one user or one request. */
module Frames {
  import opened Model
  import opened Machine

  // ---------- The log ----------

  /** The message that the step appends to partition `p`, if any. */
  function Arrives(w: World, st: Step, p: nat): seq<Message>
    requires Enabled(w, st)
  {
    if st == Poison(p) then [Malformed]
    else if st.Publish? && st.where == Some(p) && Encodable(w.calls[st.id].obj.value.stamp) && Encodable(w.now)
    then [Beat(st.id, w.calls[st.id].obj.value)]
    else []
  }

  lemma LogAfter(w: World, st: Step, p: nat)
    requires Enabled(w, st) && p < |w.log|
    ensures p < |Apply(w, st).log|
    ensures Apply(w, st).log[p].msgs == w.log[p].msgs + Arrives(w, st, p)
    ensures !(OfConsumer(st) && st.p == p) ==> Apply(w, st).log[p] == w.log[p].(msgs := Apply(w, st).log[p].msgs)
  {
  }

  lemma SameLogLength(w: World, st: Step)
    requires Enabled(w, st)
    ensures |Apply(w, st).log| == |w.log|
  {
  }

  lemma {:induction false} SamePartitions(w0: World, tr: seq<Step>)
    requires Legal(w0, tr)
    ensures |After(w0, tr).log| == |w0.log|
  {
    if tr != [] {
      SamePartitions(w0, tr[..|tr| - 1]);
      SameLogLength(After(w0, tr[..|tr| - 1]), tr[|tr| - 1]);
    }
  }

  // ---------- The table ----------

  function Row(w: World, u: string): Option<Session> {
    if u in w.table then Some(w.table[u]) else None
  }

  /** The session that the step upserts, if the upsert takes effect. */
  function Upserted(w: World, st: Step): Option<Session>
    requires Enabled(w, st)
  {
    if st.Upsert? && st.ok && Fits(w.calls[st.id].obj.value) then w.calls[st.id].obj
    else if st.Handle? && st.ok && Held(w.log[st.p]).Beat? && Fits(Held(w.log[st.p]).s) then Some(Held(w.log[st.p]).s)
    else None
  }

  lemma TableAfter(w: World, st: Step)
    requires Enabled(w, st)
    ensures Apply(w, st).table ==
            if Upserted(w, st).Some? then w.table[Upserted(w, st).value.user := Stored(Upserted(w, st).value)]
            else w.table
  {
  }

  // ---------- The cache ----------

  function Cached(w: World, u: string): Option<Entry> {
    if u in w.cache then Some(w.cache[u]) else None
  }

  predicate CacheGood(w: World, u: string) {
    u in w.cache && w.cache[u].content.Good?
  }

  /** The session that the step writes to the cache, if the write takes effect. */
  function Caches(w: World, st: Step): Option<Session>
    requires Enabled(w, st)
  {
    if st.CacheSet? && st.ok && Encodable(w.calls[st.id].obj.value.stamp) then w.calls[st.id].obj
    else if st.WarmSet? && st.ok && Encodable(w.warms[st.id].s.stamp) then Some(w.warms[st.id].s)
    else None
  }

  lemma CacheAfter(w: World, st: Step, u: string)
    requires Enabled(w, st)
    ensures Cached(Apply(w, st), u) ==
            if Caches(w, st).Some? && Caches(w, st).value.user == u
            then Some(Entry(Good(Caches(w, st).value), w.now + CACHE_TTL))
            else if st == Evict(u) then None
            else if st == Damage(u) then Some(w.cache[u].(content := Corrupt))
            else Cached(w, u)
  {
  }

  /** What has been cached is found for a day, if nobody writes there meanwhile, and not after. */
  lemma EntriesLiveADay(w: World, st: Step, time: int)
    requires Enabled(w, st) && Caches(w, st).Some? && w.now <= time
    ensures var u := Caches(w, st).value.user;
            Hit(Apply(Apply(w, st), Tick(time)), u) <==> time < w.now + 86_400_000_000_000
  {
    CacheAfter(w, st, Caches(w, st).value.user);
    ClockAfter(w, st);
  }

  // ---------- Requests and warms ----------

  /** The step is taken by request `id`. */
  predicate By(st: Step, id: nat) {
    (OfCall(st) || st.Begin?) && st.id == id
  }

  lemma CallsAfter(w: World, st: Step, id: nat)
    requires Enabled(w, st)
    ensures id in w.calls ==> id in Apply(w, st).calls && Apply(w, st).calls[id].op == w.calls[id].op
    ensures !By(st, id) ==> (id in Apply(w, st).calls <==> id in w.calls)
    ensures !By(st, id) && id in w.calls ==> Apply(w, st).calls[id] == w.calls[id]
  {
  }

  lemma WarmsAfter(w: World, st: Step, id: nat)
    requires Enabled(w, st)
    ensures !((st.TableGet? || st.WarmRead? || st.WarmSet?) && st.id == id) ==>
              (id in Apply(w, st).warms <==> id in w.warms) &&
              (id in w.warms ==> Apply(w, st).warms[id] == w.warms[id])
  {
  }

  lemma ClockAfter(w: World, st: Step)
    requires Enabled(w, st)
    ensures Apply(w, st).now == if st.Tick? then st.time else w.now
  {
  }
}
