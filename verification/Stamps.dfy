/** When the stamp of a session was read from the clock. */
module Stamps {
  import opened Machine
  import opened Frames
  import opened Requests

  /** The clock when request `id` began. */
  ghost function BeganAt(w0: World, tr: seq<Step>, id: nat): int
    requires Legal(w0, tr)
  {
    if tr == [] then w0.now
    else if tr[|tr| - 1].Begin? && tr[|tr| - 1].id == id then After(w0, tr[..|tr| - 1]).now
    else BeganAt(w0, tr[..|tr| - 1], id)
  }

  /** The object of the request carries a stamp that the request itself took. */
  predicate OwnStamp(c: Call) {
    c.obj.Some? && match c.op
                   case Start(_, _, _, _) => true
                   case Heartbeat(_, _, _, _) => true
                   case GetCurrent(_) => false
                   case _ => c.pc.ModUpsert? || c.pc.ModCache? || c.pc.Done?
  }

  /** The stamp is that of the beginning, or for Pause and Resume a later reading. */
  predicate InTime(c: Call, began: int, now: int)
    requires c.obj.Some?
  {
    began <= c.obj.value.stamp <= now && (!Changes(c.op) ==> c.obj.value.stamp == began)
  }

  predicate Timed(w: World, id: nat, began: int) {
    id in w.calls ==> began <= w.now && (OwnStamp(w.calls[id]) ==> InTime(w.calls[id], began, w.now))
  }

  /** A request that takes a step passes its stamp on, or takes it from the clock. */
  lemma OwnTimedStep(w: World, st: Step, began: int)
    requires Enabled(w, st) && OfCall(st) && Kinds(w) && Timed(w, st.id, began)
    ensures Timed(Apply(w, st), st.id, began)
  {
    assert Kind(w.calls[st.id]);
    ClockAfter(w, st);
  }

  lemma OtherTimedStep(w: World, st: Step, id: nat, began: int)
    requires Enabled(w, st) && !By(st, id) && Timed(w, id, began)
    ensures Timed(Apply(w, st), id, began)
  {
    CallsAfter(w, st, id);
    ClockAfter(w, st);
  }

  lemma TimedStep(w: World, st: Step, id: nat, began: int)
    requires Enabled(w, st) && Kinds(w) && Timed(w, id, began)
    ensures Timed(Apply(w, st), id, if st.Begin? && st.id == id then w.now else began)
  {
    if !By(st, id) { OtherTimedStep(w, st, id, began); }
    else if OfCall(st) { OwnTimedStep(w, st, began); }
    else { assert Apply(w, st).calls[id] == NewCall(st.op, w.now); }
  }

  /** In every run, whatever overlaps, the stamp that a request gives to its session is a
      reading of the clock between the beginning of the request and now. */
  lemma {:induction false} StampsAreReadings(w0: World, tr: seq<Step>, id: nat)
    requires Legal(w0, tr) && Sound(w0) && id !in w0.calls
    ensures Timed(After(w0, tr), id, BeganAt(w0, tr, id))
  {
    if tr != [] {
      StampsAreReadings(w0, tr[..|tr| - 1], id);
      AlwaysSound(w0, tr[..|tr| - 1]);
      TimedStep(After(w0, tr[..|tr| - 1]), tr[|tr| - 1], id, BeganAt(w0, tr[..|tr| - 1], id));
    }
  }

  /** Also of what a request returns by one more step. */
  lemma ReturnsInTime(w0: World, tr: seq<Step>, st: Step)
    requires Legal(w0, tr) && Sound(w0) && w0.calls == map[] && Enabled(After(w0, tr), st) && OfCall(st)
    ensures Timed(Apply(After(w0, tr), st), st.id, BeganAt(w0, tr, st.id))
    ensures st.id in Apply(After(w0, tr), st).calls && Apply(After(w0, tr), st).now == After(w0, tr).now
  {
    StampsAreReadings(w0, tr, st.id);
    AlwaysSound(w0, tr);
    TimedStep(After(w0, tr), st, st.id, BeganAt(w0, tr, st.id));
    CallsAfter(After(w0, tr), st, st.id);
    ClockAfter(After(w0, tr), st);
  }
}
