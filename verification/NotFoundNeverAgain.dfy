/** A user who has a session keeps having one. */
module NotFoundNeverAgain {
  import opened Machine
  import opened Frames
  import opened Requests

  predicate Persisted(c: Call) {
    c.op.Start? && (c.pc.StartCache? || c.pc == Done(Answered))
  }

  ghost predicate StartsHaveRows(w: World) {
    forall id :: id in w.calls && Persisted(w.calls[id]) ==> w.calls[id].op.user in w.table
  }

  lemma StartStep(w: World, st: Step)
    requires Enabled(w, st) && Sound(w) && StartsHaveRows(w)
    ensures StartsHaveRows(Apply(w, st))
  {
    TableAfter(w, st);
    forall id | id in Apply(w, st).calls && Persisted(Apply(w, st).calls[id])
      ensures Apply(w, st).calls[id].op.user in Apply(w, st).table
    {
      CallsAfter(w, st, id);
    }
  }

  lemma {:induction false} StartedHasRow(w0: World, tr: seq<Step>)
    requires Legal(w0, tr) && Sound(w0) && StartsHaveRows(w0)
    ensures StartsHaveRows(After(w0, tr))
  {
    if tr != [] {
      StartedHasRow(w0, tr[..|tr| - 1]);
      AlwaysSound(w0, tr[..|tr| - 1]);
      StartStep(After(w0, tr[..|tr| - 1]), tr[|tr| - 1]);
    }
  }

  predicate SaysNotFound(w: World, id: nat, u: string) {
    id in w.calls && w.calls[id].op.user == u && w.calls[id].pc == Done(NotFound)
  }

  lemma {:induction false} RowsStay(w: World, tr: seq<Step>, u: string, id: nat)
    requires Legal(w, tr) && u in w.table
    ensures u in After(w, tr).table
    ensures SaysNotFound(After(w, tr), id, u) ==> SaysNotFound(w, id, u)
  {
    if tr != [] {
      var v, st := After(w, tr[..|tr| - 1]), tr[|tr| - 1];
      RowsStay(w, tr[..|tr| - 1], u, id);
      TableAfter(v, st);
      CallsAfter(v, st, id);
    }
  }

  predicate Started(w: World, id: nat, u: string) {
    id in w.calls && w.calls[id].op.user == u && w.calls[id].op.Start? && w.calls[id].pc == Done(Answered)
  }

  /** Once a Start of `u` has succeeded, no continuation of the run, whatever it interleaves,
      evicts, loses or restarts, has another request of `u` answer NOT_FOUND. */
  lemma StartedIsNeverNotFound(w0: World, tr: seq<Step>, w: World, tr': seq<Step>, u: string, start: nat, id: nat)
    requires Legal(w0, tr) && Sound(w0) && w0.calls == map[] && w == After(w0, tr) && Started(w, start, u)
    requires Legal(w, tr') && SaysNotFound(After(w, tr'), id, u)
    ensures SaysNotFound(w, id, u)
  {
    StartedHasRow(w0, tr);
    RowsStay(w, tr', u, id);
  }

  // ---------- Exactly when NOT_FOUND is the answer ----------

  /** The step writes the row of `u`. */
  predicate WritesRow(w: World, st: Step, u: string) {
    Enabled(w, st) && Upserted(w, st).Some? && Upserted(w, st).value.user == u
  }

  /** A user has a row if and only if some step of the run has written one. */
  lemma {:induction false} HasRowIff(w0: World, tr: seq<Step>, u: string)
    requires Legal(w0, tr) && Sound(w0) && u !in w0.table
    ensures u in After(w0, tr).table <==> Sometime(w0, tr, (w, st) => WritesRow(w, st, u))
  {
    if tr != [] {
      HasRowIff(w0, tr[..|tr| - 1], u);
      TableAfter(After(w0, tr[..|tr| - 1]), tr[|tr| - 1]);
    }
  }

  /** Request `id` gets through to the table and finds no row of its user `u`. */
  predicate FindsNoRow(w: World, st: Step, id: nat, u: string) {
    st == TableGet(id, true) && Enabled(w, st) && w.calls[id].op.user == u && u !in w.table
  }

  lemma NotFoundStep(w: World, st: Step, id: nat, u: string)
    requires Enabled(w, st) && Kinds(w)
    ensures SaysNotFound(Apply(w, st), id, u) <==> SaysNotFound(w, id, u) || FindsNoRow(w, st, id, u)
  {
    CallsAfter(w, st, id);
    if By(st, id) && id in w.calls { assert Kind(w.calls[id]); }
  }

  /** A request answers NOT_FOUND if and only if at some step of the run it got through to the
      table and found no row, which is to say that nobody had written one before. */
  lemma {:induction false} NotFoundIff(w0: World, tr: seq<Step>, id: nat, u: string)
    requires Legal(w0, tr) && Sound(w0) && !SaysNotFound(w0, id, u)
    ensures SaysNotFound(After(w0, tr), id, u) <==> Sometime(w0, tr, (w, st) => FindsNoRow(w, st, id, u))
  {
    if tr != [] {
      NotFoundIff(w0, tr[..|tr| - 1], id, u);
      AlwaysSound(w0, tr[..|tr| - 1]);
      NotFoundStep(After(w0, tr[..|tr| - 1]), tr[|tr| - 1], id, u);
    }
  }
}
