/** Which writes can put an older session into the cache. */
module Regression {
  import opened Model
  import opened Machine
  import opened Frames
  import opened Sessions
  import opened Requests

  function StampAtMost(u: string, b: int): Session -> bool {
    (s: Session) => s.user == u ==> s.stamp <= b
  }

  /** Every stamp of `u` in the system is at most `b`. */
  ghost predicate Bounded(w: World, u: string, b: int) {
    Everywhere(w, StampAtMost(u, b))
  }

  predicate AtMost(n: Option<int>, b: int) {
    n.Some? ==> n.value <= b
  }

  predicate CacheHas(w: World, u: string, s: Session) {
    u in w.cache && w.cache[u].content == Good(s)
  }

  function NewestNow(w: World, u: string, before: Option<int>): Option<int> {
    if u in w.cache && w.cache[u].content.Good? && AtMost(before, w.cache[u].content.s.stamp)
    then Some(w.cache[u].content.s.stamp)
    else before
  }

  /** The newest stamp of `u` that the cache has ever held. */
  ghost function Newest(w0: World, tr: seq<Step>, u: string): Option<int>
    requires Legal(w0, tr)
  {
    NewestNow(After(w0, tr), u, if tr == [] then None else Newest(w0, tr[..|tr| - 1], u))
  }

  /** The request carries a stamp that it took itself. */
  predicate Stamped(c: Call) {
    c.obj.Some? && match c.pc
                   case StartUpsert | StartCache | BeatCache | BeatPublish | BeatFallback | ModUpsert | ModCache => true
                   case _ => false
  }

  /** Everything of `u` is at most as new as `b`. */
  ghost predicate Below(w: World, u: string, newest: Option<int>, b: int) {
    Bounded(w, u, b) && AtMost(newest, b)
  }

  ghost predicate Ordered(w: World, u: string, newest: Option<int>) {
    && Sound(w) && OneWriter(w, u) && Below(w, u, newest, w.now)
    && forall id :: Active(w, id, u) && Stamped(w.calls[id]) ==> Below(w, u, newest, w.calls[id].obj.value.stamp)
  }

  /** The step takes a new stamp for a session of `u`. */
  predicate StampsFor(w: World, st: Step, u: string)
    requires Enabled(w, st)
  {
    || (st.Begin? && st.op.user == u && (st.op.Start? || st.op.Heartbeat?))
    || (st.Assign? && w.calls[st.id].pc.SetStamp? && w.calls[st.id].op.user == u)
  }

  lemma BelowKept(w: World, st: Step, u: string, newest: Option<int>, b: int)
    requires Enabled(w, st) && Below(w, u, newest, b)
    requires StampsFor(w, st, u) ==> w.now <= b
    ensures Below(Apply(w, st), u, NewestNow(Apply(w, st), u, newest), b)
  {
    StepKeeps(w, st, StampAtMost(u, b));
  }

  lemma BelowRaised(w: World, u: string, newest: Option<int>, b: int, b': int)
    requires Below(w, u, newest, b) && b <= b'
    ensures Below(w, u, newest, b')
  {
    Weaken(w, StampAtMost(u, b), StampAtMost(u, b'));
  }

  lemma StampedBefore(w: World, st: Step, id: nat, u: string)
    requires Enabled(w, st) && Active(Apply(w, st), id, u) && Stamped(Apply(w, st).calls[id])
    ensures if StampsFor(w, st, u) && By(st, id) then Apply(w, st).calls[id].obj.value.stamp == w.now
            else Active(w, id, u) && Stamped(w.calls[id]) && w.calls[id].obj == Apply(w, st).calls[id].obj
  {
    if !By(st, id) { CallsAfter(w, st, id); }
  }

  lemma StampedIsWriting(w: World, id: nat, u: string)
    requires Kinds(w) && Active(w, id, u) && Stamped(w.calls[id])
    ensures Writing(w, id, u)
  {
    assert Kind(w.calls[id]);
  }

  lemma OrderedStep(w: World, st: Step, u: string, newest: Option<int>)
    requires Enabled(w, st) && Ordered(w, u, newest) && WritersTakeTurns(w, st, u)
    ensures Ordered(Apply(w, st), u, NewestNow(Apply(w, st), u, newest))
  {
    var w' := Apply(w, st);
    var newest' := NewestNow(w', u, newest);
    SoundKept(w, st);
    OneWriterKept(w, st, u);
    ClockAfter(w, st);
    BelowKept(w, st, u, newest, w.now);
    BelowRaised(w', u, newest', w.now, w'.now);
    forall id | Active(w', id, u) && Stamped(w'.calls[id]) ensures Below(w', u, newest', w'.calls[id].obj.value.stamp) {
      StampedBefore(w, st, id, u);
      if !(StampsFor(w, st, u) && By(st, id)) {
        StampedIsWriting(w, id, u);
        assert st.Assign? && StampsFor(w, st, u) ==> Writing(w, st.id, u);
        BelowKept(w, st, u, newest, w.calls[id].obj.value.stamp);
      }
    }
  }

  lemma {:induction false} AlwaysOrdered(partitions: nat, now: int, tr: seq<Step>, u: string)
    requires Legal(Init(partitions, now), tr)
    requires Always(Init(partitions, now), tr, (w, st) => WritersTakeTurns(w, st, u))
    ensures Ordered(After(Init(partitions, now), tr), u, Newest(Init(partitions, now), tr, u))
    decreases |tr|
  {
    var w0 := Init(partitions, now);
    if tr != [] {
      AlwaysOrdered(partitions, now, tr[..|tr| - 1], u);
      OrderedStep(After(w0, tr[..|tr| - 1]), tr[|tr| - 1], u, Newest(w0, tr[..|tr| - 1], u));
    }
  }

  /** The step puts a session of `u` into the cache that is older than `newest`. */
  ghost predicate GoesBack(w: World, st: Step, u: string, newest: Option<int>)
    requires Enabled(w, st)
  {
    exists s :: CacheHas(Apply(w, st), u, s) && !CacheHas(w, u, s) && !AtMost(newest, s.stamp)
  }

  /** A warm of `u` writes an older session than `newest`, and not the one that is cached. */
  predicate WarmGoesBack(w: World, st: Step, u: string, newest: Option<int>)
    requires Enabled(w, st)
  {
    st.WarmSet? && st.ok &&
    var s := w.warms[st.id].s;
    s.user == u && Encodable(s.stamp) && !AtMost(newest, s.stamp) && !CacheHas(w, u, s)
  }

  /** A request of `u` caches an older session than `newest`, and not the one that is cached. */
  predicate SetGoesBack(w: World, st: Step, u: string, newest: Option<int>)
    requires Enabled(w, st)
  {
    st.CacheSet? && st.ok &&
    var s := w.calls[st.id].obj.value;
    s.user == u && Encodable(s.stamp) && !AtMost(newest, s.stamp) && !CacheHas(w, u, s)
  }

  /** In any state a step puts an older session into the cache if and only if it is a warm or a
      request that writes one. */
  lemma GoesBackIff(w: World, st: Step, u: string, newest: Option<int>)
    requires Enabled(w, st)
    ensures GoesBack(w, st, u, newest) <==> WarmGoesBack(w, st, u, newest) || SetGoesBack(w, st, u, newest)
  {
    CacheAfter(w, st, u);
    if WarmGoesBack(w, st, u, newest) { assert CacheHas(Apply(w, st), u, w.warms[st.id].s); }
    if SetGoesBack(w, st, u, newest) { assert CacheHas(Apply(w, st), u, w.calls[st.id].obj.value); }
  }

  lemma OrderedSetsForward(w: World, st: Step, u: string, newest: Option<int>)
    requires Enabled(w, st) && Ordered(w, u, newest)
    ensures !SetGoesBack(w, st, u, newest)
  {
    if st.CacheSet? {
      assert w.calls[st.id].op.user == u ==> Active(w, st.id, u) && Stamped(w.calls[st.id]);
    }
  }

  /** While Starts, Heartbeats, Pauses and Resumes of `u` take turns, whatever GetCurrents overlap
      them, that can only be a background warm. */
  lemma OnlyWarmsGoBack(w0: World, partitions: nat, now: int, tr: seq<Step>, w: World, st: Step, u: string)
    requires w0 == Init(partitions, now) && Legal(w0, tr) && Always(w0, tr, (w, st) => WritersTakeTurns(w, st, u))
    requires w == After(w0, tr) && Enabled(w, st)
    ensures GoesBack(w, st, u, Newest(w0, tr, u)) <==> WarmGoesBack(w, st, u, Newest(w0, tr, u))
  {
    AlwaysOrdered(partitions, now, tr, u);
    GoesBackIff(w, st, u, Newest(w0, tr, u));
    OrderedSetsForward(w, st, u, Newest(w0, tr, u));
  }
}
