/** What becomes of the heartbeats that were acknowledged. */
module Conservation {
  import opened Model
  import opened Machine
  import opened Frames
  import opened Requests
  import opened Offsets

  /** The Heartbeat request returned nil. */
  predicate Accepted(w: World, id: nat) {
    id in w.calls && w.calls[id].op.Heartbeat? && w.calls[id].pc.Done? && w.calls[id].pc.result.Acked?
  }

  /** Offset `i` of partition `p` is the event published by request `id`. */
  predicate Sits(w: World, id: nat, p: int, i: int) {
    0 <= p < |w.log| && 0 <= i < |w.log[p].msgs| && w.log[p].msgs[i].Beat? && w.log[p].msgs[i].origin == id
  }

  predicate FateIs(w: World, p: int, i: int, fate: Fate) {
    0 <= p < |w.log| && 0 <= i < |w.log[p].first| && w.log[p].first[i] == fate
  }

  ghost predicate HasFate(w: World, id: nat, fate: Fate) {
    exists p, i :: Sits(w, id, p, i) && FateIs(w, p, i, fate)
  }

  ghost predicate IsPending(w: World, id: nat) {
    exists p, i :: Sits(w, id, p, i) && |w.log[p].first| <= i
  }

  ghost predicate IsApplied(w: World, id: nat) {
    || (id in w.calls && w.calls[id].pc == Done(Acked(true)))
    || HasFate(w, id, Applied)
  }

  ghost predicate IsDropped(w: World, id: nat) {
    HasFate(w, id, Dropped)
  }

  predicate Published(w: World, id: nat) {
    id in w.calls && w.calls[id].pc == Done(Acked(false))
  }

  ghost predicate InLogOnce(w: World) {
    && (forall id, p, i :: Sits(w, id, p, i) ==> Published(w, id))
    && (forall id, p, i, q, j :: Sits(w, id, p, i) && Sits(w, id, q, j) ==> p == q && i == j)
    && (forall id :: Published(w, id) ==> exists p, i :: Sits(w, id, p, i))
  }

  ghost predicate FatesMatch(part: Partition) {
    InOrder(part) && forall i :: 0 <= i < |part.first| ==> (part.first[i].Skipped? <==> part.msgs[i].Malformed?)
  }

  /** The bookkeeping behind the count: a published heartbeat has exactly one place in the log. */
  ghost predicate Booked(w: World) {
    InLogOnce(w) && Kinds(w) && forall p :: 0 <= p < |w.log| ==> FatesMatch(w.log[p])
  }

  /** Steps other than Publish leave every event where it is. */
  lemma StaysPut(w: World, st: Step)
    requires Enabled(w, st) && !st.Publish?
    ensures forall id, p, i :: Sits(Apply(w, st), id, p, i) <==> Sits(w, id, p, i)
  {
    SameLogLength(w, st);
    forall p: nat | p < |w.log|
      ensures Apply(w, st).log[p].msgs == w.log[p].msgs + Arrives(w, st, p)
    {
      LogAfter(w, st, p);
    }
  }

  lemma StaysPublished(w: World, st: Step)
    requires Enabled(w, st) && !st.Publish?
    ensures forall id :: Published(Apply(w, st), id) <==> Published(w, id)
  {
  }

  lemma FatesStayMatched(w: World, st: Step, p: nat)
    requires Enabled(w, st) && p < |w.log| && FatesMatch(w.log[p])
    ensures p < |Apply(w, st).log| && FatesMatch(Apply(w, st).log[p])
  {
    StepInOrder(w, st, p);
    LogAfter(w, st, p);
  }

  lemma OnceTransfers(w: World, w': World)
    requires InLogOnce(w)
    requires forall id, p, i :: Sits(w', id, p, i) <==> Sits(w, id, p, i)
    requires forall id :: Published(w', id) <==> Published(w, id)
    ensures InLogOnce(w')
  {
    forall id | Published(w', id) ensures exists p, i :: Sits(w', id, p, i) {
      var p, i :| Sits(w, id, p, i);
      assert Sits(w', id, p, i);
    }
  }

  lemma OnceGrows(w: World, w': World, added: nat, np: nat, ni: nat)
    requires InLogOnce(w) && !Published(w, added)
    requires forall id, p, i :: Sits(w', id, p, i) <==> Sits(w, id, p, i) || (id == added && p == np && i == ni)
    requires forall id :: Published(w', id) <==> Published(w, id) || id == added
    ensures InLogOnce(w')
  {
    assert Sits(w', added, np, ni);
    forall id | Published(w', id) && id != added ensures exists p, i :: Sits(w', id, p, i) {
      var p, i :| Sits(w, id, p, i);
      assert Sits(w', id, p, i);
    }
  }

  /** Publish on success: one more event at the end of the chosen partition. */
  lemma PublishAdds(w: World, st: Step)
    requires Enabled(w, st) && st.Publish? && Published(Apply(w, st), st.id)
    ensures st.where.Some? && !Published(w, st.id)
    ensures var p, i := st.where.value, |w.log[st.where.value].msgs|;
            forall id, q, j :: Sits(Apply(w, st), id, q, j) <==> Sits(w, id, q, j) || (id == st.id && q == p && j == i)
    ensures forall id :: Published(Apply(w, st), id) <==> Published(w, id) || id == st.id
  {
  }

  lemma FailedPublishAddsNothing(w: World, st: Step)
    requires Enabled(w, st) && st.Publish? && !Published(Apply(w, st), st.id)
    ensures Apply(w, st).log == w.log
    ensures forall id :: Published(Apply(w, st), id) <==> Published(w, id)
  {
  }

  lemma BookedStep(w: World, st: Step)
    requires Enabled(w, st) && Booked(w)
    ensures Booked(Apply(w, st))
  {
    var w' := Apply(w, st);
    KindsKept(w, st);
    forall p | 0 <= p < |w'.log| ensures FatesMatch(w'.log[p]) { FatesStayMatched(w, st, p); }
    if !st.Publish? {
      StaysPut(w, st);
      StaysPublished(w, st);
      OnceTransfers(w, w');
    } else if Published(w', st.id) {
      PublishAdds(w, st);
      OnceGrows(w, w', st.id, st.where.value, |w.log[st.where.value].msgs|);
    } else {
      FailedPublishAddsNothing(w, st);
      OnceTransfers(w, w');
    }
  }

  lemma {:induction false} AlwaysBooked(w0: World, tr: seq<Step>)
    requires Legal(w0, tr) && Booked(w0)
    ensures Booked(After(w0, tr))
  {
    if tr != [] {
      AlwaysBooked(w0, tr[..|tr| - 1]);
      BookedStep(After(w0, tr[..|tr| - 1]), tr[|tr| - 1]);
    }
  }

  lemma BookedAtFirst(partitions: nat, now: int)
    ensures Booked(Init(partitions, now)) && Undelivered(Init(partitions, now))
    ensures forall id :: !IsApplied(Init(partitions, now), id) && !IsDropped(Init(partitions, now), id)
  {
  }

  /** A heartbeat that returned nil is pending, applied or dropped, and only one of these;
      no other request is any of them. */
  lemma {:induction false} HeartbeatsAreConserved(partitions: nat, now: int, tr: seq<Step>, id: nat)
    requires Legal(Init(partitions, now), tr)
    ensures var w := After(Init(partitions, now), tr);
            && (Accepted(w, id) <==> IsPending(w, id) || IsApplied(w, id) || IsDropped(w, id))
            && !(IsPending(w, id) && IsApplied(w, id))
            && !(IsPending(w, id) && IsDropped(w, id))
            && !(IsApplied(w, id) && IsDropped(w, id))
  {
    BookedAtFirst(partitions, now);
    AlwaysBooked(Init(partitions, now), tr);
    var w := After(Init(partitions, now), tr);
    if Accepted(w, id) && w.calls[id].pc == Done(Acked(false)) {
      assert Published(w, id);
      var p, i :| Sits(w, id, p, i);
      assert i < |w.log[p].first| ==> FateIs(w, p, i, Applied) || FateIs(w, p, i, Dropped);
    }
  }

  /** Fates are written once, by the first delivery. */
  lemma FateIsWritten(w: World, st: Step, p: int, i: int, fate: Fate)
    requires Enabled(w, st) && Booked(w)
    requires FateIs(Apply(w, st), p, i, fate) && !FateIs(w, p, i, fate)
    ensures st.Handle? && st.p == p && i == w.log[p].fetched - 1 && fate == Outcome(Held(w.log[p]), st.ok)
  {
    SameLogLength(w, st);
    LogAfter(w, st, p);
  }

  /** The step ends the first delivery of the event that request `id` published. */
  predicate FirstDelivery(w: World, st: Step, id: nat) {
    && Enabled(w, st) && st.Handle? && Held(w.log[st.p]).Beat? && Held(w.log[st.p]).origin == id
    && w.log[st.p].fetched - 1 == |w.log[st.p].first|
  }

  /** It ends without a row, because the table was out of reach or the position did not fit. */
  predicate Refused(w: World, st: Step, id: nat) {
    FirstDelivery(w, st, id) && !(st.ok && Fits(Held(w.log[st.p]).s))
  }

  predicate Delivered(w: World, st: Step, id: nat) {
    FirstDelivery(w, st, id) && st.ok && Fits(Held(w.log[st.p]).s)
  }

  /** The fallback of request `id` writes its row. */
  predicate WritesDirectly(w: World, st: Step, id: nat) {
    Enabled(w, st) && st.Upsert? && st.id == id && w.calls[id].pc.BeatFallback? && st.ok && Fits(w.calls[id].obj.value)
  }

  /** No step takes a fate back. */
  lemma FateStays(w: World, st: Step, id: nat, fate: Fate)
    requires Enabled(w, st) && Booked(w) && HasFate(w, id, fate)
    ensures HasFate(Apply(w, st), id, fate)
  {
    var p, i :| Sits(w, id, p, i) && FateIs(w, p, i, fate);
    LogAfter(w, st, p);
    assert FatesMatch(w.log[p]);
    assert Sits(Apply(w, st), id, p, i) && FateIs(Apply(w, st), p, i, fate);
  }

  lemma FateComes(w: World, st: Step, id: nat, fate: Fate)
    requires Enabled(w, st) && Booked(w) && !HasFate(w, id, fate) && HasFate(Apply(w, st), id, fate)
    ensures FirstDelivery(w, st, id) && fate == Outcome(Held(w.log[st.p]), st.ok)
  {
    var p, i :| Sits(Apply(w, st), id, p, i) && FateIs(Apply(w, st), p, i, fate);
    LogAfter(w, st, p);
    SameLogLength(w, st);
    assert FatesMatch(w.log[p]);
    if FateIs(w, p, i, fate) {
      assert Sits(w, id, p, i);
    } else {
      FateIsWritten(w, st, p, i, fate);
    }
  }

  /** A first delivery finds its event without a fate and leaves it with one. */
  lemma FirstDeliveryDecides(w: World, st: Step, id: nat)
    requires Booked(w) && FirstDelivery(w, st, id)
    ensures forall fate :: !HasFate(w, id, fate)
    ensures HasFate(Apply(w, st), id, Outcome(Held(w.log[st.p]), st.ok))
  {
    var p, i := st.p, w.log[st.p].fetched - 1;
    assert Sits(w, id, p, i);
    assert Sits(Apply(w, st), id, p, i) && FateIs(Apply(w, st), p, i, Outcome(Held(w.log[p]), st.ok));
  }

  /** A heartbeat becomes dropped exactly by a first delivery whose upsert fails, and that
      leaves the table as it was. */
  lemma DroppedOnlyByFailedUpsert(w: World, st: Step, id: nat)
    requires Enabled(w, st) && Booked(w)
    ensures !IsDropped(w, id) && IsDropped(Apply(w, st), id) <==> Refused(w, st, id)
    ensures IsDropped(w, id) ==> IsDropped(Apply(w, st), id)
    ensures Refused(w, st, id) ==> Apply(w, st).table == w.table
  {
    if HasFate(w, id, Dropped) { FateStays(w, st, id, Dropped); }
    else if HasFate(Apply(w, st), id, Dropped) { FateComes(w, st, id, Dropped); }
    if FirstDelivery(w, st, id) { FirstDeliveryDecides(w, st, id); }
  }

  /** A heartbeat becomes applied exactly by a first delivery, or by its own fallback write,
      that leaves its session in its user's row. */
  lemma AppliedMeansWritten(w: World, st: Step, id: nat)
    requires Enabled(w, st) && Booked(w)
    ensures !IsApplied(w, id) && IsApplied(Apply(w, st), id) <==> Delivered(w, st, id) || WritesDirectly(w, st, id)
    ensures IsApplied(w, id) ==> IsApplied(Apply(w, st), id)
    ensures Delivered(w, st, id) ==> var s := Held(w.log[st.p]).s; Apply(w, st).table == w.table[s.user := Stored(s)]
    ensures WritesDirectly(w, st, id) ==>
              var s := w.calls[id].obj.value; Apply(w, st).table == w.table[s.user := Stored(s)]
  {
    if HasFate(w, id, Applied) { FateStays(w, st, id, Applied); }
    else if HasFate(Apply(w, st), id, Applied) { FateComes(w, st, id, Applied); }
    if FirstDelivery(w, st, id) { FirstDeliveryDecides(w, st, id); }
    DirectlyApplied(w, st, id);
  }

  /** An event in the log rules out a direct write, and the other way round. */
  lemma DirectlyApplied(w: World, st: Step, id: nat)
    requires Enabled(w, st) && Booked(w)
    ensures var now, before := id in Apply(w, st).calls && Apply(w, st).calls[id].pc == Done(Acked(true)),
                               id in w.calls && w.calls[id].pc == Done(Acked(true));
            (now <==> before || WritesDirectly(w, st, id)) && !(before && WritesDirectly(w, st, id))
    ensures WritesDirectly(w, st, id) || (id in w.calls && w.calls[id].pc == Done(Acked(true))) ==>
              !FirstDelivery(w, st, id) && forall fate :: !HasFate(w, id, fate)
  {
    if !By(st, id) { CallsAfter(w, st, id); }
    if FirstDelivery(w, st, id) { assert Sits(w, id, st.p, w.log[st.p].fetched - 1); }
    if id in w.calls { assert Kind(w.calls[id]); }
  }

  /** Every message has been handled. */
  ghost predicate Drained(w: World) {
    forall p :: 0 <= p < |w.log| ==> Past(w.log[p]) == |w.log[p].msgs|
  }

  /** The consumer's upserts all work. */
  ghost predicate HandlerWorks(w: World, st: Step)
    requires Enabled(w, st)
  {
    st.Handle? && Held(w.log[st.p]).Beat? ==> st.ok && Fits(Held(w.log[st.p]).s)
  }

  /** A heartbeat is dropped at the end of a run if and only if some step of the run was its
      first delivery and the upsert failed. */
  lemma {:induction false} DroppedIff(w0: World, tr: seq<Step>, id: nat)
    requires Legal(w0, tr) && Booked(w0) && !IsDropped(w0, id)
    ensures IsDropped(After(w0, tr), id) <==> Sometime(w0, tr, (w, st) => Refused(w, st, id))
  {
    if tr != [] {
      DroppedIff(w0, tr[..|tr| - 1], id);
      AlwaysBooked(w0, tr[..|tr| - 1]);
      DroppedOnlyByFailedUpsert(After(w0, tr[..|tr| - 1]), tr[|tr| - 1], id);
    }
  }

  /** And applied if and only if some step was a first delivery that was upserted, or its own
      fallback write. */
  lemma {:induction false} AppliedIff(w0: World, tr: seq<Step>, id: nat)
    requires Legal(w0, tr) && Booked(w0) && !IsApplied(w0, id)
    ensures IsApplied(After(w0, tr), id) <==>
            Sometime(w0, tr, (w, st) => Delivered(w, st, id) || WritesDirectly(w, st, id))
  {
    if tr != [] {
      AppliedIff(w0, tr[..|tr| - 1], id);
      AlwaysBooked(w0, tr[..|tr| - 1]);
      AppliedMeansWritten(After(w0, tr[..|tr| - 1]), tr[|tr| - 1], id);
    }
  }

  /** If none of the consumer's upserts fails, nothing accepted is ever lost, and once the log
      is drained everything accepted has been applied. */
  lemma {:induction false} NothingAcceptedIsLost(partitions: nat, now: int, tr: seq<Step>, id: nat)
    requires Legal(Init(partitions, now), tr)
    requires Always(Init(partitions, now), tr, (w, st) => Enabled(w, st) && HandlerWorks(w, st))
    ensures var w := After(Init(partitions, now), tr);
            && !IsDropped(w, id)
            && (Accepted(w, id) ==> IsPending(w, id) || IsApplied(w, id))
            && (Accepted(w, id) && Drained(w) ==> IsApplied(w, id))
    decreases |tr|
  {
    var w0 := Init(partitions, now);
    HeartbeatsAreConserved(partitions, now, tr, id);
    AlwaysBooked(w0, tr) by { BookedAtFirst(partitions, now); }
    if tr == [] {
    } else {
      var init, st := tr[..|tr| - 1], tr[|tr| - 1];
      NothingAcceptedIsLost(partitions, now, init, id);
      AlwaysBooked(w0, init) by { BookedAtFirst(partitions, now); }
      DroppedOnlyByFailedUpsert(After(w0, init), st, id);
    }
  }
}
