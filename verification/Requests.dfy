/** Which program points belong to which request, and one user's requests one at a time. */
module Requests {
  import opened Model
  import opened Machine
  import opened Frames
  import opened Sessions

  /** The program points that the code of each request can reach, and when it has an object. */
  predicate Kind(c: Call) {
    match c.pc
    case StartUpsert => c.op.Start? && c.obj.Some?
    case StartCache => c.op.Start? && c.obj.Some?
    case BeatCache => c.op.Heartbeat? && c.obj.Some?
    case BeatPublish => c.op.Heartbeat? && c.obj.Some?
    case BeatFallback => c.op.Heartbeat? && c.obj.Some?
    case ReadCache => Reads(c.op) && c.obj.None?
    case ReadTable => Reads(c.op) && c.obj.None?
    case Done(Answered) => !c.op.Heartbeat? && c.obj.Some?
    case Done(Acked(_)) => c.op.Heartbeat? && c.obj.Some?
    case Done(NotFound) => Reads(c.op) && c.obj.None?
    case Done(Internal) => !Reads(c.op) ==> c.obj.Some?
    case _ => Changes(c.op) && c.obj.Some?
  }

  predicate Changes(op: Op) { op.Pause? || op.Resume? }

  predicate Reads(op: Op) { Changes(op) || op.GetCurrent? }

  ghost predicate Kinds(w: World) {
    forall id :: id in w.calls ==> Kind(w.calls[id])
  }

  lemma KindKept(w: World, st: Step, id: nat)
    requires Enabled(w, st) && id in Apply(w, st).calls && (id in w.calls ==> Kind(w.calls[id]))
    ensures Kind(Apply(w, st).calls[id])
  {
    if !By(st, id) {
      CallsAfter(w, st, id);
    } else if st.Begin? {
      assert Kind(NewCall(st.op, w.now));
    } else if st.CacheGet? || st.TableGet? {
      ReadKindKept(w, st);
    } else if st.Assign? {
      AssignKindKept(w, st);
    } else if st.Upsert? {
      UpsertKindKept(w, st);
    } else if st.CacheSet? {
      CacheSetKindKept(w, st);
    } else {
      PublishKindKept(w, st);
    }
  }

  lemma ReadKindKept(w: World, st: Step)
    requires Enabled(w, st) && (st.CacheGet? || st.TableGet?) && Kind(w.calls[st.id])
    ensures Kind(Apply(w, st).calls[st.id])
  {
    assert Reads(w.calls[st.id].op);
  }

  lemma AssignKindKept(w: World, st: Step)
    requires Enabled(w, st) && st.Assign? && Kind(w.calls[st.id])
    ensures Kind(Apply(w, st).calls[st.id])
  {
    assert Changes(w.calls[st.id].op);
  }

  lemma UpsertKindKept(w: World, st: Step)
    requires Enabled(w, st) && st.Upsert? && Kind(w.calls[st.id])
    ensures Kind(Apply(w, st).calls[st.id])
  {
  }

  lemma CacheSetKindKept(w: World, st: Step)
    requires Enabled(w, st) && st.CacheSet? && Kind(w.calls[st.id])
    ensures Kind(Apply(w, st).calls[st.id])
  {
  }

  lemma PublishKindKept(w: World, st: Step)
    requires Enabled(w, st) && st.Publish? && Kind(w.calls[st.id])
    ensures Kind(Apply(w, st).calls[st.id])
  {
  }

  lemma KindsKept(w: World, st: Step)
    requires Enabled(w, st) && Kinds(w)
    ensures Kinds(Apply(w, st))
  {
    forall id | id in Apply(w, st).calls ensures Kind(Apply(w, st).calls[id]) { KindKept(w, st, id); }
  }

  ghost predicate Sound(w: World) {
    Kinds(w) && Everywhere(w, s => true)
  }

  lemma SoundKept(w: World, st: Step)
    requires Enabled(w, st) && Sound(w)
    ensures Sound(Apply(w, st))
  {
    KindsKept(w, st);
    StepKeeps(w, st, s => true);
  }

  lemma {:induction false} AlwaysSound(w0: World, tr: seq<Step>)
    requires Legal(w0, tr) && Sound(w0)
    ensures Sound(After(w0, tr))
  {
    if tr != [] {
      AlwaysSound(w0, tr[..|tr| - 1]);
      SoundKept(After(w0, tr[..|tr| - 1]), tr[|tr| - 1]);
    }
  }

  /** Returned requests take no more steps. */
  lemma ActiveBefore(w: World, st: Step, id: nat, u: string)
    requires Enabled(w, st) && Active(Apply(w, st), id, u)
    ensures Active(w, id, u) || (st.Begin? && st.id == id && st.op.user == u && id !in w.calls)
  {
    if !By(st, id) { CallsAfter(w, st, id); }
  }

  lemma OneActiveKept(w: World, st: Step, u: string)
    requires Enabled(w, st) && OneActive(w, u) && NoOverlap(w, st, u)
    ensures OneActive(Apply(w, st), u)
  {
    var w' := Apply(w, st);
    forall i, j | Active(w', i, u) && Active(w', j, u) ensures i == j {
      ActiveBefore(w, st, i, u);
      ActiveBefore(w, st, j, u);
    }
  }

  // ---------- Requests that write, one at a time ----------

  predicate Writing(w: World, id: nat, u: string) {
    Active(w, id, u) && !w.calls[id].op.GetCurrent?
  }

  ghost predicate OneWriter(w: World, u: string) {
    forall i, j :: Writing(w, i, u) && Writing(w, j, u) ==> i == j
  }

  /** A Start, Heartbeat, Pause or Resume of `u` begins only when the others have returned; a
      GetCurrent may overlap anything. */
  ghost predicate WritersTakeTurns(w: World, st: Step, u: string) {
    st.Begin? && st.op.user == u && !st.op.GetCurrent? ==> forall id :: !Writing(w, id, u)
  }

  lemma OneWriterKept(w: World, st: Step, u: string)
    requires Enabled(w, st) && OneWriter(w, u) && WritersTakeTurns(w, st, u)
    ensures OneWriter(Apply(w, st), u)
  {
    var w' := Apply(w, st);
    forall i, j | Writing(w', i, u) && Writing(w', j, u) ensures i == j {
      WritingBefore(w, st, i, u);
      WritingBefore(w, st, j, u);
    }
  }

  lemma WritingBefore(w: World, st: Step, id: nat, u: string)
    requires Enabled(w, st) && Writing(Apply(w, st), id, u)
    ensures Writing(w, id, u) || (st.Begin? && st.id == id && st.op.user == u && !st.op.GetCurrent?)
  {
    CallsAfter(w, st, id);
    ActiveBefore(w, st, id, u);
  }
}
