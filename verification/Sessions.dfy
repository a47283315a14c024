/**
  One invariant scheme for "every session anywhere in the system satisfies `q`".
  It is kept by every step whenever `q` survives what the code does to sessions.
 */
module Sessions {
  import opened Model
  import opened Machine

  /** The session is filed under its own user and satisfies `q`. */
  ghost predicate Filed(key: string, s: Session, q: Session -> bool) {
    s.user == key && q(s)
  }

  ghost predicate InTable(w: World, q: Session -> bool) {
    forall u :: u in w.table ==> Filed(u, w.table[u], q)
  }

  ghost predicate InCache(w: World, q: Session -> bool) {
    forall u :: u in w.cache && w.cache[u].content.Good? ==> Filed(u, w.cache[u].content.s, q)
  }

  ghost predicate InMessages(msgs: seq<Message>, q: Session -> bool) {
    forall i :: 0 <= i < |msgs| && msgs[i].Beat? ==> q(msgs[i].s)
  }

  ghost predicate InLog(w: World, q: Session -> bool) {
    forall p :: 0 <= p < |w.log| ==> InMessages(w.log[p].msgs, q)
  }

  ghost predicate InCalls(w: World, q: Session -> bool) {
    forall id :: id in w.calls && w.calls[id].obj.Some? ==> Filed(w.calls[id].op.user, w.calls[id].obj.value, q)
  }

  ghost predicate InWarms(w: World, q: Session -> bool) {
    forall id :: id in w.warms ==>
      id in w.calls && w.calls[id].obj.Some? &&
      (w.warms[id].Marshalled? ==> Filed(w.calls[id].op.user, w.warms[id].s, q))
  }

  ghost predicate Everywhere(w: World, q: Session -> bool) {
    InTable(w, q) && InCache(w, q) && InLog(w, q) && InCalls(w, q) && InWarms(w, q)
  }

  /** `q` survives storing in the table and the assignment or torn read of status and device. */
  ghost predicate Robust(q: Session -> bool) {
    forall s: Session :: q(s) ==> q(Stored(s)) && forall x, y :: q(s.(status := x, device := y))
  }

  /** Sessions that the step stamps with the clock, rather than passing them on. */
  ghost predicate StampsOk(w: World, st: Step, q: Session -> bool)
    requires Enabled(w, st)
  {
    && (st.Begin? && (st.op.Start? || st.op.Heartbeat?) ==> q(Fresh(st.op, w.now)))
    && (st.Assign? && w.calls[st.id].pc.SetStamp? ==> q(w.calls[st.id].obj.value.(stamp := w.now)))
  }

  ghost predicate Storable(q: Session -> bool) {
    forall s: Session :: q(s) ==> q(Stored(s))
  }

  /** Sessions that the step makes or changes, rather than passing them on. */
  ghost predicate NewOk(w: World, st: Step, q: Session -> bool)
    requires Enabled(w, st)
  {
    && (st.Begin? && (st.op.Start? || st.op.Heartbeat?) ==> q(Fresh(st.op, w.now)))
    && (st.Assign? ==> Apply(w, st).calls[st.id].obj.Some? && q(Apply(w, st).calls[st.id].obj.value))
    && (st.WarmRead? && Apply(w, st).warms[st.id].Marshalled? ==> q(Apply(w, st).warms[st.id].s))
  }

  lemma PutTableKeeps(w: World, s: Session, ok: bool, q: Session -> bool)
    requires Everywhere(w, q) && Storable(q) && q(s)
    ensures Everywhere(PutTable(w, s, ok), q)
  {
  }

  lemma PutCacheKeeps(w: World, s: Session, ok: bool, q: Session -> bool)
    requires Everywhere(w, q) && q(s)
    ensures Everywhere(PutCache(w, s, ok), q)
  {
  }

  /** Replacing a call's record, as long as its object is not lost. */
  lemma SetCallKeeps(w: World, id: nat, c: Call, q: Session -> bool)
    requires Everywhere(w, q)
    requires id in w.calls ==> c.op == w.calls[id].op && (w.calls[id].obj.Some? ==> c.obj.Some?)
    requires c.obj.Some? ==> Filed(c.op.user, c.obj.value, q)
    ensures Everywhere(w.(calls := w.calls[id := c]), q)
  {
  }

  lemma AppendKeeps(w: World, p: nat, m: Message, q: Session -> bool)
    requires p < |w.log| && Everywhere(w, q) && (m.Beat? ==> q(m.s))
    ensures Everywhere(Appended(w, p, m), q)
  {
    assert InMessages(w.log[p].msgs, q);
  }

  lemma RobustAssign(s: Session, q: Session -> bool)
    requires Robust(q) && q(s)
    ensures forall x :: q(s.(status := x)) && q(s.(device := x))
  {
    forall x ensures q(s.(status := x)) && q(s.(device := x)) {
      assert s.(status := x, device := s.device) == s.(status := x);
      assert s.(status := s.status, device := x) == s.(device := x);
    }
  }

  lemma WriteKeeps(w: World, st: Step, q: Session -> bool)
    requires Enabled(w, st) && (st.Upsert? || st.CacheSet?)
    requires Everywhere(w, q) && Storable(q)
    ensures Everywhere(Apply(w, st), q)
  {
    var s := w.calls[st.id].obj.value;
    if st.Upsert? {
      PutTableKeeps(w, s, st.ok, q);
      SetCallKeeps(PutTable(w, s, st.ok), st.id, Apply(w, st).calls[st.id], q);
    } else {
      PutCacheKeeps(w, s, st.ok, q);
      SetCallKeeps(PutCache(w, s, st.ok), st.id, Apply(w, st).calls[st.id], q);
    }
  }

  lemma PublishKeeps(w: World, st: Step, q: Session -> bool)
    requires Enabled(w, st) && st.Publish?
    requires Everywhere(w, q)
    ensures Everywhere(Apply(w, st), q)
  {
    var c' := Apply(w, st).calls[st.id];
    if st.where.Some? && c'.pc.Done? && c'.pc.result.Acked? {
      var m := Beat(st.id, w.calls[st.id].obj.value);
      AppendKeeps(w, st.where.value, m, q);
      SetCallKeeps(Appended(w, st.where.value, m), st.id, c', q);
    } else {
      SetCallKeeps(w, st.id, c', q);
    }
  }

  lemma ReadKeeps(w: World, st: Step, q: Session -> bool)
    requires Enabled(w, st) && (st.CacheGet? || st.TableGet?)
    requires Everywhere(w, q)
    ensures Everywhere(Apply(w, st), q)
  {
    SetCallKeeps(w, st.id, Apply(w, st).calls[st.id], q);
  }

  lemma AssignKeeps(w: World, st: Step, q: Session -> bool)
    requires Enabled(w, st) && st.Assign?
    requires Everywhere(w, q) && NewOk(w, st, q)
    ensures Everywhere(Apply(w, st), q)
  {
    SetCallKeeps(w, st.id, Apply(w, st).calls[st.id], q);
  }

  lemma WarmKeeps(w: World, st: Step, q: Session -> bool)
    requires Enabled(w, st) && (st.WarmRead? || st.WarmSet?)
    requires Everywhere(w, q) && NewOk(w, st, q)
    ensures Everywhere(Apply(w, st), q)
  {
    if st.WarmSet? { PutCacheKeeps(w, w.warms[st.id].s, st.ok, q); }
  }

  /** Moving the reader or the offset of a partition. */
  lemma ReaderKeeps(w: World, p: nat, part: Partition, q: Session -> bool)
    requires p < |w.log| && Everywhere(w, q) && part.msgs == w.log[p].msgs
    ensures Everywhere(SetPartition(w, p, part), q)
  {
    assert InMessages(w.log[p].msgs, q);
  }

  lemma HandleKeeps(w: World, st: Step, q: Session -> bool)
    requires Enabled(w, st) && st.Handle? && Everywhere(w, q) && Storable(q)
    ensures Everywhere(Apply(w, st), q)
  {
    var m, part := Held(w.log[st.p]), HandledPart(w.log[st.p], st.ok);
    assert InMessages(w.log[st.p].msgs, q);
    if m.Beat? {
      PutTableKeeps(w, m.s, st.ok, q);
      ReaderKeeps(PutTable(w, m.s, st.ok), st.p, part, q);
    } else {
      ReaderKeeps(w, st.p, part, q);
    }
  }

  lemma ConsumerKeeps(w: World, st: Step, q: Session -> bool)
    requires Enabled(w, st) && OfConsumer(st)
    requires Everywhere(w, q) && Storable(q)
    ensures Everywhere(Apply(w, st), q)
  {
    if st.Handle? { HandleKeeps(w, st, q); } else { ReaderKeeps(w, st.p, Apply(w, st).log[st.p], q); }
  }

  lemma EnvironmentKeeps(w: World, st: Step, q: Session -> bool)
    requires Enabled(w, st) && (st.Tick? || st.Evict? || st.Damage? || st.Poison?)
    requires Everywhere(w, q)
    ensures Everywhere(Apply(w, st), q)
  {
    if st.Poison? { AppendKeeps(w, st.p, Malformed, q); }
  }

  /** Every step keeps the scheme, if what it makes is all right. */
  lemma StepKeepsNew(w: World, st: Step, q: Session -> bool)
    requires Enabled(w, st) && Everywhere(w, q) && Storable(q) && NewOk(w, st, q)
    ensures Everywhere(Apply(w, st), q)
  {
    if st.Begin? { SetCallKeeps(w, st.id, NewCall(st.op, w.now), q); }
    else if st.Upsert? || st.CacheSet? { WriteKeeps(w, st, q); }
    else if st.Publish? { PublishKeeps(w, st, q); }
    else if st.CacheGet? || st.TableGet? { ReadKeeps(w, st, q); }
    else if st.Assign? { AssignKeeps(w, st, q); }
    else if st.WarmRead? || st.WarmSet? { WarmKeeps(w, st, q); }
    else if OfConsumer(st) { ConsumerKeeps(w, st, q); }
    else { EnvironmentKeeps(w, st, q); }
  }

  lemma RobustIsStorable(q: Session -> bool)
    requires Robust(q)
    ensures Storable(q)
  {
  }

  lemma RobustNewOk(w: World, st: Step, q: Session -> bool)
    requires Enabled(w, st) && Everywhere(w, q) && Robust(q) && StampsOk(w, st, q)
    ensures NewOk(w, st, q)
  {
    if st.Assign? { RobustAssign(w.calls[st.id].obj.value, q); }
    if st.WarmRead? { assert Filed(w.calls[st.id].op.user, w.calls[st.id].obj.value, q); }
  }

  /** Every step keeps what survives storing, stamping, assignments and torn reads. */
  lemma StepKeeps(w: World, st: Step, q: Session -> bool)
    requires Enabled(w, st) && Everywhere(w, q) && Robust(q) && StampsOk(w, st, q)
    ensures Everywhere(Apply(w, st), q)
  {
    RobustIsStorable(q);
    RobustNewOk(w, st, q);
    StepKeepsNew(w, st, q);
  }

  lemma Weaken(w: World, q: Session -> bool, r: Session -> bool)
    requires Everywhere(w, q) && forall s :: q(s) ==> r(s)
    ensures Everywhere(w, r)
  {
    forall p | 0 <= p < |w.log| ensures InMessages(w.log[p].msgs, r) {
      assert InMessages(w.log[p].msgs, q);
    }
  }
  lemma Both(w: World, q: Session -> bool, r: Session -> bool)
    requires Everywhere(w, q) && Everywhere(w, r)
    ensures Everywhere(w, s => q(s) && r(s))
  {
    forall p | 0 <= p < |w.log| ensures InMessages(w.log[p].msgs, s => q(s) && r(s)) {
      assert InMessages(w.log[p].msgs, q) && InMessages(w.log[p].msgs, r);
    }
  }
}
