/** When an accepted heartbeat is lost: nothing that can still happen writes it. */
module Loss {
  import opened Model
  import opened Machine
  import opened Frames
  import opened Offsets
  import opened Conservation
  import opened Confluence

  /** Some delivery of the event of request `id`, the first or a later one, is upserted. */
  predicate Upserts(w: World, st: Step, id: nat) {
    && Enabled(w, st) && st.Handle? && Held(w.log[st.p]).Beat? && Held(w.log[st.p]).origin == id
    && st.ok && Fits(Held(w.log[st.p]).s)
  }

  /** The session of request `id` reaches the table, through the log or by its fallback. */
  predicate Saves(w: World, st: Step, id: nat) {
    Upserts(w, st, id) || WritesDirectly(w, st, id)
  }

  lemma SavesPutsTheRow(w: World, st: Step, id: nat)
    requires Saves(w, st, id)
    ensures var s := if st.Handle? then Held(w.log[st.p]).s else w.calls[id].obj.value;
            Row(Apply(w, st), s.user) == Some(Stored(s))
  {
    TableAfter(w, st);
  }

  /** The event at this place is committed, or has a position that the column refuses. */
  predicate PastRecallAt(w: World, p: int, i: int) {
    && 0 <= p < |w.log| && 0 <= i < |w.log[p].msgs| && w.log[p].msgs[i].Beat?
    && (i < w.log[p].committed || !Fits(w.log[p].msgs[i].s))
  }

  ghost predicate PastRecall(w: World, id: nat) {
    exists p, i :: Sits(w, id, p, i) && PastRecallAt(w, p, i)
  }

  // ---------- Past recall, nothing saves it any more ----------

  lemma PlaceKept(w: World, st: Step, id: nat, p: nat, i: nat)
    requires Enabled(w, st) && Booked(w) && Sits(w, id, p, i)
    ensures Sits(Apply(w, st), id, p, i) && (PastRecallAt(w, p, i) ==> PastRecallAt(Apply(w, st), p, i))
  {
    LogAfter(w, st, p);
    assert FatesMatch(w.log[p]);
    StepInOrder(w, st, p);
  }

  lemma NotSaved(w: World, st: Step, id: nat, p: nat, i: nat)
    requires Enabled(w, st) && Booked(w) && Sits(w, id, p, i) && PastRecallAt(w, p, i)
    ensures !Saves(w, st, id)
  {
    assert Published(w, id);
    if Upserts(w, st, id) {
      assert FatesMatch(w.log[st.p]);
      assert Sits(w, id, st.p, w.log[st.p].fetched - 1);
    }
  }

  lemma {:induction false} NeverSaved(w: World, tr: seq<Step>, id: nat, p: nat, i: nat)
    requires Legal(w, tr) && Booked(w) && Sits(w, id, p, i) && PastRecallAt(w, p, i)
    ensures Sits(After(w, tr), id, p, i) && PastRecallAt(After(w, tr), p, i)
    ensures !Sometime(w, tr, (v, st) => Saves(v, st, id))
  {
    if tr != [] {
      var init, st := tr[..|tr| - 1], tr[|tr| - 1];
      NeverSaved(w, init, id, p, i);
      AlwaysBooked(w, init);
      NotSaved(After(w, init), st, id, p, i);
      PlaceKept(After(w, init), st, id, p, i);
    }
  }

  // ---------- Before that, a restart brings it back ----------

  lemma RestartIsReady(w: World, p: nat)
    requires p < |w.log| && InOrder(w.log[p])
    ensures Enabled(w, Restart(p)) && Ready(Apply(w, Restart(p)), p)
    ensures !Apply(w, Restart(p)).log[p].holding && Apply(w, Restart(p)).log[p].fetched == w.log[p].committed
    ensures var v := Apply(w, Restart(p)); v.log[p].committed == w.log[p].committed && v.log[p].msgs == w.log[p].msgs
  {
  }

  lemma DeliveryUpserts(v: World, id: nat, p: nat, i: nat)
    requires Sits(v, id, p, i) && v.log[p].fetched == i && !v.log[p].holding && Fits(v.log[p].msgs[i].s)
    ensures Enabled(v, Fetch(p)) && Upserts(Apply(v, Fetch(p)), Handle(p, true), id)
  {
  }

  lemma SavedAtLast(w: World, tr: seq<Step>, st: Step, id: nat)
    requires Legal(w, tr) && Saves(After(w, tr), st, id)
    ensures Legal(w, tr + [st]) && Sometime(w, tr + [st], (v, st) => Saves(v, st, id))
  {
    Extend(w, tr, st);
  }

  lemma CanBeSaved(w: World, id: nat, p: nat, i: nat) returns (tr: seq<Step>)
    requires Booked(w) && Sits(w, id, p, i) && !PastRecallAt(w, p, i)
    ensures Legal(w, tr) && Sometime(w, tr, (v, st) => Saves(v, st, id))
  {
    assert FatesMatch(w.log[p]);
    RestartIsReady(w, p);
    var v, n := Apply(w, Restart(p)), i - w.log[p].committed;
    var rounds := DrainOne(v, p, n);
    DrainOneWorks(v, p, n, "");
    Extend(w, [], Restart(p));
    assert [] + [Restart(p)] == [Restart(p)];
    Compose(w, [Restart(p)], rounds);
    tr := [Restart(p)] + rounds;
    DeliveryUpserts(After(v, rounds), id, p, i);
    Extend(w, tr, Fetch(p));
    SavedAtLast(w, tr + [Fetch(p)], Handle(p, true), id);
    tr := tr + [Fetch(p)] + [Handle(p, true)];
  }

  // ---------- Lost ----------

  /** Some continuation saves it. */
  ghost predicate CanStillBeSaved(w: World, id: nat) {
    exists tr :: Legal(w, tr) && Sometime(w, tr, (v, st) => Saves(v, st, id))
  }

  /** A published event can still be saved if and only if its offset is not committed and its
      position fits. */
  lemma CanStillBeSavedIff(w: World, id: nat)
    requires Booked(w) && Published(w, id)
    ensures CanStillBeSaved(w, id) <==> !PastRecall(w, id)
  {
    var p, i :| Sits(w, id, p, i);
    if PastRecallAt(w, p, i) {
      forall tr | Legal(w, tr) ensures !Sometime(w, tr, (v, st) => Saves(v, st, id)) { NeverSaved(w, tr, id, p, i); }
    } else {
      var tr := CanBeSaved(w, id, p, i);
    }
  }

  /** Accepted, never yet in the table, and no continuation of the run puts it there. */
  ghost predicate Lost(w0: World, tr: seq<Step>, id: nat)
    requires Legal(w0, tr)
  {
    && Accepted(After(w0, tr), id) && !Sometime(w0, tr, (v, st) => Saves(v, st, id))
    && !CanStillBeSaved(After(w0, tr), id)
  }

  lemma {:induction false} SometimeWeaken(w0: World, tr: seq<Step>, p: (World, Step) -> bool, q: (World, Step) -> bool)
    requires Legal(w0, tr) && Sometime(w0, tr, p) && forall w, st :: p(w, st) ==> q(w, st)
    ensures Sometime(w0, tr, q)
  {
    if !p(After(w0, tr[..|tr| - 1]), tr[|tr| - 1]) { SometimeWeaken(w0, tr[..|tr| - 1], p, q); }
  }

  /** A heartbeat that fell back to the table was saved. */
  lemma DirectIsSaved(w0: World, tr: seq<Step>, id: nat)
    requires Legal(w0, tr) && Booked(w0) && !IsApplied(w0, id)
    requires Accepted(After(w0, tr), id) && !Published(After(w0, tr), id)
    ensures Sometime(w0, tr, (v, st) => Saves(v, st, id))
  {
    AppliedIff(w0, tr, id);
    SometimeWeaken(w0, tr, (w, st) => Delivered(w, st, id) || WritesDirectly(w, st, id), (v, st) => Saves(v, st, id));
  }

  /** An accepted heartbeat is lost if and only if no delivery of its event has been upserted so
      far and its offset is committed, or its position will never fit. */
  lemma LostIff(w0: World, tr: seq<Step>, id: nat)
    requires Legal(w0, tr) && Booked(w0) && !IsApplied(w0, id) && Accepted(After(w0, tr), id)
    ensures Lost(w0, tr, id) <==>
            !Sometime(w0, tr, (v, st) => Saves(v, st, id)) && PastRecall(After(w0, tr), id)
  {
    AlwaysBooked(w0, tr);
    if Published(After(w0, tr), id) {
      CanStillBeSavedIff(After(w0, tr), id);
    } else {
      DirectIsSaved(w0, tr, id);
    }
  }
}
