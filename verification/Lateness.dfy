/** Why a cached session is older than its user's heartbeats promise, whatever overlaps. */
module Lateness {
  import opened Model
  import opened Machine
  import opened Frames
  import opened Requests
  import opened Regression
  import opened Freshness

  /** At every moment the last heartbeat of `u` has begun at most one period ago. */
  ghost predicate BeatsOnTime(w0: World, tr: seq<Step>, u: string)
    requires Legal(w0, tr) && CacheGood(w0, u)
  {
    tr == [] ||
    (var init, st := tr[..|tr| - 1], tr[|tr| - 1];
     BeatsOnTime(w0, init, u) && (st.Tick? ==> st.time <= LastBeat(w0, init, u) + PERIOD))
  }

  /** A session of `u` is cached that is at most one period old. */
  predicate FreshlyCached(w: World, u: string) {
    CacheGood(w, u) && CachedStamp(w, u) <= w.now <= CachedStamp(w, u) + PERIOD
  }

  predicate BeatAfter(w: World, st: Step, u: string, t: int) {
    st.Begin? && st.op.Heartbeat? && st.op.user == u && w.now > t
  }

  /** How many heartbeats of `u` have begun after `t`. */
  ghost function BeatsSince(w0: World, tr: seq<Step>, u: string, t: int): nat
    requires Legal(w0, tr)
  {
    if tr == [] then 0
    else BeatsSince(w0, tr[..|tr| - 1], u, t) + if BeatAfter(After(w0, tr[..|tr| - 1]), tr[|tr| - 1], u, t) then 1
        else 0
  }

  /** Some step put an older session of `u` into the cache than the newest one until then. */
  ghost predicate WentBack(w0: World, tr: seq<Step>, u: string)
    requires Legal(w0, tr)
  {
    tr != [] &&
    (var init := tr[..|tr| - 1];
     WentBack(w0, init, u) || GoesBack(After(w0, init), tr[|tr| - 1], u, Newest(w0, init, u)))
  }

  // ---------- Counting heartbeats ----------

  predicate KeepsUp(beat: int, now: int, t: int, beats: nat) {
    beat <= t + PERIOD * beats && beat <= now <= beat + PERIOD
  }

  lemma KeepUpStep(w: World, st: Step, u: string, t: int, beat: int, beats: nat)
    requires Enabled(w, st) && KeepsUp(beat, w.now, t, beats) && (st.Tick? ==> st.time <= beat + PERIOD)
    ensures KeepsUp(NextBeat(w, st, u, beat), Apply(w, st).now, t, beats + if BeatAfter(w, st, u, t) then 1 else 0)
  {
    ClockAfter(w, st);
    assert PERIOD * (beats + 1) == PERIOD * beats + PERIOD;
  }

  lemma KeepsUpAtFirst(beat: int, now: int, t: int)
    requires beat <= t && beat <= now <= beat + PERIOD
    ensures KeepsUp(beat, now, t, 0)
  {
  }

  /** The last heartbeat began at most one period after the last but one, and so on back to `t`. */
  lemma {:induction false} BeatsKeepUp(w0: World, tr: seq<Step>, u: string, t: int)
    requires Legal(w0, tr) && FreshlyCached(w0, u) && BeatsOnTime(w0, tr, u) && CachedStamp(w0, u) <= t
    ensures KeepsUp(LastBeat(w0, tr, u), After(w0, tr).now, t, BeatsSince(w0, tr, u, t))
  {
    if tr == [] {
      KeepsUpAtFirst(CachedStamp(w0, u), w0.now, t);
    } else {
      var init := tr[..|tr| - 1];
      BeatsKeepUp(w0, init, u, t);
      KeepUpStep(After(w0, init), tr[|tr| - 1], u, t, LastBeat(w0, init, u), BeatsSince(w0, init, u, t));
    }
  }

  lemma TooFew(beat: int, now: int, t: int, beats: nat, k: nat)
    requires KeepsUp(beat, now, t, beats) && now - t > PERIOD * (k + 1)
    ensures beats > k
  {
    assert beats <= k ==> PERIOD * (beats + 1) <= PERIOD * (k + 1);
  }

  lemma {:induction false} LastBeatIsCounted(w0: World, tr: seq<Step>, u: string, t: int)
    requires Legal(w0, tr) && FreshlyCached(w0, u) && BeatsOnTime(w0, tr, u) && CachedStamp(w0, u) <= t
    ensures LastBeat(w0, tr, u) > t <==> BeatsSince(w0, tr, u, t) > 0
  {
    if tr != [] {
      LastBeatIsCounted(w0, tr[..|tr| - 1], u, t);
      BeatsKeepUp(w0, tr[..|tr| - 1], u, t);
    }
  }

  // ---------- The newest session ever cached ----------

  /** The newest stamp only grows, and what is cached is at most as new. */
  lemma {:induction false} NewestIsNewest(w0: World, tr: seq<Step>, u: string)
    requires Legal(w0, tr) && CacheGood(w0, u)
    ensures Newest(w0, tr, u).Some? && CachedStamp(w0, u) <= Newest(w0, tr, u).value
    ensures CacheGood(After(w0, tr), u) ==> CachedStamp(After(w0, tr), u) <= Newest(w0, tr, u).value
    ensures tr != [] ==> Newest(w0, tr[..|tr| - 1], u).Some? &&
                         Newest(w0, tr[..|tr| - 1], u).value <= Newest(w0, tr, u).value
  {
    if tr != [] { NewestIsNewest(w0, tr[..|tr| - 1], u); }
  }

  /** A cached session that is older than the newest one has been put there by such a step. */
  lemma {:induction false} OlderMeansWentBack(w0: World, tr: seq<Step>, u: string)
    requires Legal(w0, tr) && CacheGood(w0, u) && CacheGood(After(w0, tr), u)
    ensures AtMost(Newest(w0, tr, u), CachedStamp(After(w0, tr), u)) || WentBack(w0, tr, u)
  {
    if tr != [] && !AtMost(Newest(w0, tr, u), CachedStamp(After(w0, tr), u)) {
      var init, st := tr[..|tr| - 1], tr[|tr| - 1];
      var w, s := After(w0, init), After(w0, tr).cache[u].content.s;
      NewestIsNewest(w0, tr, u);
      assert CacheHas(Apply(w, st), u, s);
      if CacheHas(w, u, s) { OlderMeansWentBack(w0, init, u); }
    }
  }

  // ---------- The heartbeats that are not in the cache ----------

  /** The cache write of request `id` fails. */
  predicate CacheFails(w: World, st: Step, id: nat) {
    Enabled(w, st) && st.CacheSet? && st.id == id && Caches(w, st).None?
  }

  /** A heartbeat that is newer than everything cached so far still waits, or its write failed. */
  predicate Accounted(w: World, id: nat, u: string, newest: Option<int>, failed: bool) {
    id in w.calls && w.calls[id].op.Heartbeat? && w.calls[id].op.user == u ==>
      && w.calls[id].obj.Some?
      && (w.calls[id].pc.BeatCache? || failed || (newest.Some? && w.calls[id].obj.value.stamp <= newest.value))
  }

  lemma CacheSetIsAccounted(w: World, st: Step, u: string, newest: Option<int>, failed: bool)
    requires Enabled(w, st) && st.CacheSet? && Sound(w) && Accounted(w, st.id, u, newest, failed)
    ensures Accounted(Apply(w, st), st.id, u, NewestNow(Apply(w, st), u, newest), failed || CacheFails(w, st, st.id))
  {
    CacheAfter(w, st, u);
    assert Apply(w, st).calls[st.id].obj == w.calls[st.id].obj;
  }

  /** No other step of a heartbeat touches its session or comes before the cache write. */
  lemma LaterIsAccounted(w: World, st: Step, u: string, newest: Option<int>, failed: bool)
    requires Enabled(w, st) && OfCall(st) && !st.CacheSet? && Kinds(w) && Accounted(w, st.id, u, newest, failed)
    ensures Accounted(Apply(w, st), st.id, u, NewestNow(Apply(w, st), u, newest), failed)
  {
    assert Kind(w.calls[st.id]);
  }

  lemma AccountedStep(w: World, st: Step, id: nat, u: string, newest: Option<int>, failed: bool)
    requires Enabled(w, st) && Sound(w) && Accounted(w, id, u, newest, failed)
    ensures Accounted(Apply(w, st), id, u, NewestNow(Apply(w, st), u, newest), failed || CacheFails(w, st, id))
  {
    if !By(st, id) { CallsAfter(w, st, id); }
    else if st.CacheSet? { CacheSetIsAccounted(w, st, u, newest, failed); }
    else if OfCall(st) { LaterIsAccounted(w, st, u, newest, failed); }
    else { assert Apply(w, st).calls[id] == NewCall(st.op, w.now); }
  }

  lemma {:induction false} BeatsAreAccounted(w0: World, tr: seq<Step>, u: string, id: nat)
    requires Legal(w0, tr) && Sound(w0) && id !in w0.calls
    ensures Accounted(After(w0, tr), id, u, Newest(w0, tr, u), Sometime(w0, tr, (w, st) => CacheFails(w, st, id)))
  {
    if tr != [] {
      var init, st := tr[..|tr| - 1], tr[|tr| - 1];
      BeatsAreAccounted(w0, init, u, id);
      AlwaysSound(w0, init);
      AccountedStep(After(w0, init), st, id, u, Newest(w0, init, u),
          Sometime(w0, init, (w, st) => CacheFails(w, st, id)));
    }
  }

  // ---------- The causes ----------

  /** What can make the cached session of `u` older than 5(k + 1) s. */
  ghost predicate HasACause(w0: World, tr: seq<Step>, u: string, k: nat)
    requires Legal(w0, tr)
  {
    WentBack(w0, tr, u) || (Newest(w0, tr, u).Some? && BeatsSince(w0, tr, u, Newest(w0, tr, u).value) > k)
  }

  /** Heartbeats of `u` at most 5 s apart, and anything else at all: if the cached session is older
      than 5(k + 1) s, then a step has put an older session over a newer one, or more than `k`
      heartbeats have begun since the newest session that was ever cached. Each of these still
      waits to be cached, or its cache write has failed (`BeatsAreAccounted`). */
  lemma OldEntriesHaveACause(w0: World, tr: seq<Step>, u: string, k: nat)
    requires Legal(w0, tr) && FreshlyCached(w0, u) && BeatsOnTime(w0, tr, u) && CacheGood(After(w0, tr), u)
    requires After(w0, tr).now - CachedStamp(After(w0, tr), u) > PERIOD * (k + 1)
    ensures HasACause(w0, tr, u, k)
  {
    NewestIsNewest(w0, tr, u);
    OlderMeansWentBack(w0, tr, u);
    var newest := Newest(w0, tr, u).value;
    if CachedStamp(After(w0, tr), u) == newest {
      BeatsKeepUp(w0, tr, u, newest);
      TooFew(LastBeat(w0, tr, u), After(w0, tr).now, newest, BeatsSince(w0, tr, u, newest), k);
    }
  }

  /** At the moment the next heartbeat is due, the cached session is older than 5 s if and only if
      some heartbeat has begun since its stamp. */
  lemma OverdueIff(w0: World, tr: seq<Step>, u: string)
    requires Legal(w0, tr) && FreshlyCached(w0, u) && BeatsOnTime(w0, tr, u) && CacheGood(After(w0, tr), u)
    requires After(w0, tr).now == LastBeat(w0, tr, u) + PERIOD
    requires CachedStamp(w0, u) <= CachedStamp(After(w0, tr), u)
    ensures After(w0, tr).now - CachedStamp(After(w0, tr), u) > PERIOD <==>
            BeatsSince(w0, tr, u, CachedStamp(After(w0, tr), u)) > 0
  {
    LastBeatIsCounted(w0, tr, u, CachedStamp(After(w0, tr), u));
  }
}
