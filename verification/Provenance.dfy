/** Where the contents of the stores come from, over all interleavings. */
module Provenance {
  import opened Model
  import opened Machine
  import opened Frames
  import opened Requests
  import opened Sessions

  /** Step `i` of the run is a Start or Heartbeat of this user with this track and position. */
  ghost predicate Asks(tr: seq<Step>, i: int, s: Session) {
    && 0 <= i < |tr| && tr[i].Begin? && Validated(tr[i].op)
    && (tr[i].op.Start? || tr[i].op.Heartbeat?)
    && tr[i].op.user == s.user && tr[i].op.track == s.track && tr[i].op.position == s.position
  }

  /** User, track and position of `s` were all given by one request of the run. */
  ghost predicate FromOneRequest(tr: seq<Step>, s: Session) {
    exists i :: Asks(tr, i, s)
  }

  lemma FromLonger(tr: seq<Step>, st: Step, s: Session)
    requires FromOneRequest(tr, s)
    ensures FromOneRequest(tr + [st], s)
  {
    var i :| Asks(tr, i, s);
    assert Asks(tr + [st], i, s);
  }

  /** In every reachable state each session in the table, the cache, the log, a request or a
      pending warm carries the user, track and position of one single request of that user,
      even when a warm reads an object that Pause or Resume is assigning to. */
  lemma {:induction false} TriplesComeFromOneRequest(w0: World, tr: seq<Step>)
    requires Legal(w0, tr) && Everywhere(w0, s => false)
    ensures Everywhere(After(w0, tr), s => FromOneRequest(tr, s))
  {
    var q := s => FromOneRequest(tr, s);
    if tr == [] {
      Weaken(w0, s => false, q);
    } else {
      var init, st := tr[..|tr| - 1], tr[|tr| - 1];
      assert tr == init + [st];
      TriplesComeFromOneRequest(w0, init);
      forall s | FromOneRequest(init, s) ensures FromOneRequest(tr, s) { FromLonger(init, st, s); }
      Weaken(After(w0, init), s => FromOneRequest(init, s), q);
      assert Robust(q) by {
        forall s: Session, x, y | q(s) ensures q(Stored(s)) && q(s.(status := x, device := y)) {
          var i :| Asks(tr, i, s);
          assert Asks(tr, i, Stored(s)) && Asks(tr, i, s.(status := x, device := y));
        }
      }
      assert StampsOk(After(w0, init), st, q) by {
        if st.Begin? && (st.op.Start? || st.op.Heartbeat?) {
          assert Asks(tr, |tr| - 1, Fresh(st.op, After(w0, init).now));
        }
        if st.Assign? {
          var s := After(w0, init).calls[st.id].obj.value;
          var i :| Asks(tr, i, s);
          assert Asks(tr, i, s.(stamp := After(w0, init).now));
        }
      }
      StepKeeps(After(w0, init), st, q);
    }
  }

  /** The hypothesis above holds of the empty system. */
  lemma NothingAtFirst(partitions: nat, now: int)
    ensures Everywhere(Init(partitions, now), s => false)
  {
  }

  lemma TriplesFromTheStart(partitions: nat, now: int, tr: seq<Step>)
    requires Legal(Init(partitions, now), tr)
    ensures Everywhere(After(Init(partitions, now), tr), s => FromOneRequest(tr, s))
  {
    NothingAtFirst(partitions, now);
    TriplesComeFromOneRequest(Init(partitions, now), tr);
  }

  // ---------- Status and device ----------

  /** The request is one that gives its user's session this status. */
  predicate GivesStatus(op: Op, u: string, status: string) {
    op.user == u &&
    ((status == "playing" && (op.Start? || op.Heartbeat? || op.Resume?)) || (status == "paused" && op.Pause?))
  }

  predicate GivesDevice(op: Op, u: string, device: string) {
    op.user == u && !op.GetCurrent? && op.device == device
  }

  predicate Begins(tr: seq<Step>, i: int, op: Op) {
    0 <= i < |tr| && tr[i].Begin? && tr[i].op == op && Validated(op)
  }

  ghost predicate Begun(tr: seq<Step>, op: Op) {
    exists i :: Begins(tr, i, op)
  }

  ghost predicate StatusGiven(b: Op -> bool, u: string, status: string) {
    exists op :: b(op) && GivesStatus(op, u, status)
  }

  ghost predicate DeviceGiven(b: Op -> bool, u: string, device: string) {
    exists op :: b(op) && GivesDevice(op, u, device)
  }

  /** Status and device of `s` were each given by one of the requests `b` of its user. */
  ghost predicate FieldsGiven(b: Op -> bool, s: Session) {
    StatusGiven(b, s.user, s.status) && DeviceGiven(b, s.user, s.device)
  }

  /** What a warm has read of its object so far was given, too. */
  ghost predicate PartsGiven(b: Op -> bool, u: string, m: Warm) {
    match m
    case GotStatus(status) => StatusGiven(b, u, status)
    case GotDevice(status, device) => StatusGiven(b, u, status) && DeviceGiven(b, u, device)
    case _ => true
  }

  ghost predicate CallsBegun(w: World, b: Op -> bool) {
    forall id :: id in w.calls ==> b(w.calls[id].op)
  }

  ghost predicate WarmsGiven(w: World, b: Op -> bool) {
    forall id :: id in w.warms && id in w.calls ==> PartsGiven(b, w.calls[id].op.user, w.warms[id])
  }

  ghost predicate AllGiven(w: World, b: Op -> bool) {
    Everywhere(w, s => FieldsGiven(b, s)) && Kinds(w) && CallsBegun(w, b) && WarmsGiven(w, b)
  }

  lemma AssignGives(w: World, st: Step, b: Op -> bool)
    requires Enabled(w, st) && st.Assign? && AllGiven(w, b)
    ensures Apply(w, st).calls[st.id].obj.Some? && FieldsGiven(b, Apply(w, st).calls[st.id].obj.value)
  {
    var op, s := w.calls[st.id].op, w.calls[st.id].obj.value;
    assert Filed(op.user, s, s => FieldsGiven(b, s));
    assert b(op) && GivesDevice(op, s.user, op.device);
    assert GivesStatus(op, s.user, if op.Pause? then StatusPaused else StatusPlaying);
  }

  lemma BeginGives(op: Op, now: int, b: Op -> bool)
    requires b(op) && (op.Start? || op.Heartbeat?)
    ensures FieldsGiven(b, Fresh(op, now))
  {
    assert GivesStatus(op, op.user, Fresh(op, now).status) && GivesDevice(op, op.user, Fresh(op, now).device);
  }

  lemma WarmReadGives(w: World, st: Step, b: Op -> bool)
    requires Enabled(w, st) && st.WarmRead? && AllGiven(w, b)
    ensures PartsGiven(b, w.calls[st.id].op.user, Apply(w, st).warms[st.id])
    ensures Apply(w, st).warms[st.id].Marshalled? ==> FieldsGiven(b, Apply(w, st).warms[st.id].s)
  {
    assert Filed(w.calls[st.id].op.user, w.calls[st.id].obj.value, s => FieldsGiven(b, s));
    assert PartsGiven(b, w.calls[st.id].op.user, w.warms[st.id]);
  }

  lemma CallsBegunStep(w: World, st: Step, b: Op -> bool)
    requires Enabled(w, st) && CallsBegun(w, b) && (st.Begin? ==> b(st.op))
    ensures CallsBegun(Apply(w, st), b)
  {
    forall id | id in Apply(w, st).calls ensures b(Apply(w, st).calls[id].op) {
      CallsAfter(w, st, id);
      if st.Begin? && st.id == id { assert Apply(w, st).calls[id] == NewCall(st.op, w.now); }
    }
  }

  lemma WarmsGivenStep(w: World, st: Step, b: Op -> bool)
    requires Enabled(w, st) && AllGiven(w, b)
    ensures WarmsGiven(Apply(w, st), b)
  {
    var w' := Apply(w, st);
    forall id | id in w'.warms && id in w'.calls ensures PartsGiven(b, w'.calls[id].op.user, w'.warms[id]) {
      WarmsAfter(w, st, id);
      CallsAfter(w, st, id);
      if st.WarmRead? && st.id == id { WarmReadGives(w, st, b); }
    }
  }

  lemma GivenStep(w: World, st: Step, b: Op -> bool)
    requires Enabled(w, st) && AllGiven(w, b) && (st.Begin? ==> b(st.op))
    ensures AllGiven(Apply(w, st), b)
  {
    if st.Begin? && (st.op.Start? || st.op.Heartbeat?) { BeginGives(st.op, w.now, b); }
    if st.Assign? { AssignGives(w, st, b); }
    if st.WarmRead? { WarmReadGives(w, st, b); }
    StepKeepsNew(w, st, s => FieldsGiven(b, s));
    KindsKept(w, st);
    CallsBegunStep(w, st, b);
    WarmsGivenStep(w, st, b);
  }

  lemma MoreBegun(w: World, b: Op -> bool, b': Op -> bool)
    requires AllGiven(w, b) && forall op :: b(op) ==> b'(op)
    ensures AllGiven(w, b')
  {
    assert forall u, x :: StatusGiven(b, u, x) ==> StatusGiven(b', u, x);
    assert forall u, x :: DeviceGiven(b, u, x) ==> DeviceGiven(b', u, x);
    Weaken(w, s => FieldsGiven(b, s), s => FieldsGiven(b', s));
    forall id | id in w.warms && id in w.calls ensures PartsGiven(b', w.calls[id].op.user, w.warms[id]) {
      assert PartsGiven(b, w.calls[id].op.user, w.warms[id]);
    }
  }

  /** In every reachable state the device of each session anywhere was given by a validated request
      of its user, and its status is the one that such a request gives: "playing" by a Start,
      Heartbeat or Resume, "paused" by a Pause; also when a warm reads an object that is being
      assigned to. */
  lemma {:induction false} FieldsComeFromRequests(partitions: nat, now: int, tr: seq<Step>)
    requires Legal(Init(partitions, now), tr)
    ensures AllGiven(After(Init(partitions, now), tr), op => Begun(tr, op))
    decreases |tr|
  {
    var w0 := Init(partitions, now);
    if tr != [] {
      var init, st := tr[..|tr| - 1], tr[|tr| - 1];
      FieldsComeFromRequests(partitions, now, init);
      BegunLonger(init, tr);
      MoreBegun(After(w0, init), op => Begun(init, op), op => Begun(tr, op));
      assert st.Begin? ==> Begins(tr, |tr| - 1, st.op);
      GivenStep(After(w0, init), st, op => Begun(tr, op));
    }
  }

  lemma BegunLonger(init: seq<Step>, tr: seq<Step>)
    requires init <= tr
    ensures forall op :: Begun(init, op) ==> Begun(tr, op)
  {
    forall op | Begun(init, op) ensures Begun(tr, op) {
      var i :| Begins(init, i, op);
      assert Begins(tr, i, op);
    }
  }
  // ---------- Complete sessions ----------

  predicate Complete(s: Session) {
    s.user != "" && s.track != "" && s.device != "" && s.status in {"playing", "paused"}
  }

  lemma GivenIsComplete(tr: seq<Step>, s: Session)
    requires FromOneRequest(tr, s) && FieldsGiven(op => Begun(tr, op), s)
    ensures Complete(s)
  {
    var i :| Asks(tr, i, s);
    var op :| Begun(tr, op) && GivesStatus(op, s.user, s.status);
    var op' :| Begun(tr, op') && GivesDevice(op', s.user, s.device);
  }

  /** No session anywhere ever has an empty user, track or device, or another status. */
  lemma SessionsAreComplete(partitions: nat, now: int, tr: seq<Step>)
    requires Legal(Init(partitions, now), tr)
    ensures Everywhere(After(Init(partitions, now), tr), s => Complete(s))
  {
    var w := After(Init(partitions, now), tr);
    var q, r := s => FromOneRequest(tr, s), s => FieldsGiven(op => Begun(tr, op), s);
    TriplesFromTheStart(partitions, now, tr);
    FieldsComeFromRequests(partitions, now, tr);
    Both(w, q, r);
    forall s | q(s) && r(s) ensures Complete(s) { GivenIsComplete(tr, s); }
    Weaken(w, s => q(s) && r(s), s => Complete(s));
  }
}
