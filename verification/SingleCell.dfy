/**
  Forward simulation: while a user's requests do not overlap and the cache works, the service
  is one cell per user, whatever the consumer's lag, the table's failures and other users do.
 */
module SingleCell {
  import opened Model
  import opened Machine
  import opened Frames
  import opened Requests
  import opened Pending
  import opened Stamps

  // ---------- The specification ----------

  /** The session that Pause or Resume makes of `s`. */
  function Changed(s: Session, op: Op, now: int): Session
    requires Changes(op)
  {
    s.(status := if op.Pause? then StatusPaused else StatusPlaying, device := op.device, stamp := now)
  }

  /** Heartbeats take effect always, Start, Pause and Resume when they succeed. */
  predicate TakesEffect(c: Call) {
    c.op.Heartbeat? || (!c.op.GetCurrent? && c.pc == Done(Answered))
  }

  /** The cell of `u` changes when a request of `u` that takes effect returns. */
  function NextCell(w: World, st: Step, u: string, cell: Option<Session>): Option<Session>
    requires Enabled(w, st)
  {
    if OfCall(st) && w.calls[st.id].op.user == u && Apply(w, st).calls[st.id].pc.Done? &&
        TakesEffect(Apply(w, st).calls[st.id])
    then Apply(w, st).calls[st.id].obj
    else cell
  }

  ghost function Cell(w0: World, tr: seq<Step>, u: string): Option<Session>
    requires Legal(w0, tr)
  {
    if tr == [] then None
    else NextCell(After(w0, tr[..|tr| - 1]), tr[|tr| - 1], u, Cell(w0, tr[..|tr| - 1], u))
  }

  /** What a request may return when the cell holds `cell`, but for the stamp. */
  predicate MadeOf(c: Call, cell: Option<Session>)
    requires c.pc.Done?
  {
    match c.op
    case Start(_, _, _, _) => c.obj.Some? && c.obj.value == Fresh(c.op, c.obj.value.stamp)
    case Heartbeat(_, _, _, _) => c.obj.Some? && c.obj.value == Fresh(c.op, c.obj.value.stamp)
    case GetCurrent(_) =>
      if cell.Some? then c.pc == Done(Answered) && c.obj == cell
      else c.pc == Done(NotFound) || c.pc == Done(Internal)
    case _ =>
      if cell.Some? then
        || c.pc == Done(Internal)
        || (c.pc == Done(Answered) && c.obj.Some? && c.obj.value == Changed(cell.value, c.op, c.obj.value.stamp))
      else c.pc == Done(NotFound) || c.pc == Done(Internal)
  }

  /** What a request that began at `began` may return at `now`. */
  predicate Allowed(c: Call, cell: Option<Session>, began: int, now: int)
    requires c.pc.Done?
  {
    MadeOf(c, cell) && (OwnStamp(c) ==> InTime(c, began, now))
  }

  // ---------- The hypothesis ----------

  ghost predicate Smooth(w: World, st: Step, u: string) {
    && Enabled(w, st) && NoOverlap(w, st, u) && st != Evict(u) && st != Damage(u)
    && (st.CacheSet? && w.calls[st.id].op.user == u ==> st.ok && Encodable(w.calls[st.id].obj.value.stamp))
    && (st.CacheGet? && w.calls[st.id].op.user == u ==> st.ok && (u in w.cache ==> w.now < w.cache[u].expiry))
  }

  // ---------- The simulation relation ----------

  predicate CacheIs(w: World, u: string, cell: Option<Session>) {
    if cell.None? then u !in w.cache else u in w.cache && w.cache[u].content == Good(cell.value)
  }

  predicate MidBeat(pc: Pc) { pc.BeatPublish? || pc.BeatFallback? }

  /** The object of a request on its way, in terms of the cell. */
  predicate OnItsWay(c: Call, cell: Option<Session>) {
    match c.pc
    case SetStatus => cell.Some? && c.obj == cell
    case SetDevice => cell.Some? && Changes(c.op) &&
        c.obj == Some(Changed(cell.value, c.op, cell.value.stamp).(device := cell.value.device))
    case SetStamp => cell.Some? && Changes(c.op) && c.obj == Some(Changed(cell.value, c.op, cell.value.stamp))
    case ModUpsert | ModCache =>
      cell.Some? && Changes(c.op) && c.obj.Some? && c.obj.value == Changed(cell.value, c.op, c.obj.value.stamp)
    case ReadTable => cell.None?
    case ReadCache => true
    case _ => c.obj.Some? && (c.op.Start? || c.op.Heartbeat?) && c.obj.value == Fresh(c.op, c.obj.value.stamp)
  }

  ghost predicate NoMessages(w: World, u: string) {
    forall p, i :: 0 <= p < |w.log| && 0 <= i < |w.log[p].msgs| ==> !IsOf(w.log[p].msgs[i], u)
  }

  ghost predicate NoWarms(w: World, u: string) {
    forall id :: id in w.warms ==> id in w.calls && w.calls[id].op.user != u
  }

  ghost predicate Simulates(w: World, u: string, cell: Option<Session>) {
    && Sound(w) && OneActive(w, u) && NoWarms(w, u)
    && (forall id :: Active(w, id, u) ==>
          OnItsWay(w.calls[id], cell) && (MidBeat(w.calls[id].pc) ==> CacheIs(w, u, w.calls[id].obj)))
    && ((forall id :: Active(w, id, u) ==> !MidBeat(w.calls[id].pc)) ==> CacheIs(w, u, cell))
    && ((forall id :: Active(w, id, u) ==> !w.calls[id].pc.StartCache?) ==>
          u in w.cache || (u !in w.table && NoMessages(w, u)))
  }

  /** The step is not one of a request of `u`. */
  predicate Foreign(w: World, st: Step, u: string) {
    && (OfCall(st) && st.id in w.calls ==> w.calls[st.id].op.user != u)
    && (st.Begin? ==> st.op.user != u)
  }

  lemma ForeignCalls(w: World, st: Step, u: string, id: nat)
    requires Enabled(w, st) && Foreign(w, st, u)
    ensures Active(Apply(w, st), id, u) <==> Active(w, id, u)
    ensures Active(w, id, u) ==> Apply(w, st).calls[id] == w.calls[id]
  {
    if id in w.calls { CallsAfter(w, st, id); }
  }

  /** Nobody else writes the row of `u` unless there is a message of `u` to consume. */
  lemma ForeignLog(w: World, st: Step, u: string)
    requires Enabled(w, st) && Foreign(w, st, u) && Sound(w) && NoMessages(w, u)
    ensures NoMessages(Apply(w, st), u) && Row(Apply(w, st), u) == Row(w, u)
  {
    TableAfter(w, st);
    SameLogLength(w, st);
    forall p: nat | p < |w.log|
      ensures Apply(w, st).log[p].msgs == w.log[p].msgs + Arrives(w, st, p)
    {
      LogAfter(w, st, p);
    }
  }

  lemma ForeignCache(w: World, st: Step, u: string)
    requires Enabled(w, st) && Foreign(w, st, u) && Sound(w) && NoWarms(w, u) && st != Evict(u) && st != Damage(u)
    ensures Cached(Apply(w, st), u) == Cached(w, u)
  {
    CacheAfter(w, st, u);
  }

  lemma NoWarmsKept(w: World, st: Step, u: string)
    requires Enabled(w, st) && NoWarms(w, u)
    requires st.TableGet? && w.calls[st.id].op.user == u ==> u !in w.table
    ensures NoWarms(Apply(w, st), u)
  {
    forall id | id in Apply(w, st).warms ensures id in Apply(w, st).calls && Apply(w, st).calls[id].op.user != u {
      WarmsAfter(w, st, id);
      if id in w.calls { CallsAfter(w, st, id); }
    }
  }

  lemma ForeignStep(w: World, st: Step, u: string, cell: Option<Session>)
    requires Smooth(w, st, u) && Foreign(w, st, u) && Simulates(w, u, cell)
    ensures Simulates(Apply(w, st), u, cell) && NextCell(w, st, u, cell) == cell
  {
    SoundKept(w, st);
    OneActiveKept(w, st, u);
    NoWarmsKept(w, st, u);
    ForeignCache(w, st, u);
    if NoMessages(w, u) { ForeignLog(w, st, u); }
    forall id ensures (Active(Apply(w, st), id, u) <==> Active(w, id, u)) &&
                      (Active(w, id, u) ==> Apply(w, st).calls[id] == w.calls[id])
    {
      ForeignCalls(w, st, u, id);
    }
  }

  // ---------- The steps of the user's own requests ----------

  /** `Simulates`, when request `id` is the only one of `u` that can be active. */
  predicate CellConds(w: World, u: string, id: nat, cell: Option<Session>) {
    id in w.calls && w.calls[id].op.user == u &&
    var c := w.calls[id];
    && (!c.pc.Done? ==> OnItsWay(c, cell))
    && CacheIs(w, u, if MidBeat(c.pc) then c.obj else cell)
  }

  ghost predicate NoTrace(w: World, u: string) {
    u !in w.table && NoMessages(w, u)
  }

  ghost predicate SimulatesAt(w: World, u: string, id: nat, cell: Option<Session>) {
    && CellConds(w, u, id, cell)
    && (!w.calls[id].pc.StartCache? ==> u in w.cache || NoTrace(w, u))
  }

  lemma Focus(w: World, u: string, id: nat, cell: Option<Session>)
    requires Simulates(w, u, cell) && Active(w, id, u)
    ensures SimulatesAt(w, u, id, cell)
  {
  }

  lemma Unfocus(w: World, u: string, id: nat, cell: Option<Session>)
    requires Sound(w) && OneActive(w, u) && NoWarms(w, u) && SimulatesAt(w, u, id, cell)
    requires forall j :: Active(w, j, u) ==> j == id
    ensures Simulates(w, u, cell)
  {
    if MidBeat(w.calls[id].pc) || w.calls[id].pc.StartCache? { assert Active(w, id, u); }
  }

  lemma OwnUpsert(w: World, st: Step, u: string, cell: Option<Session>)
    requires Smooth(w, st, u) && st.Upsert? && Active(w, st.id, u) && Sound(w) && SimulatesAt(w, u, st.id, cell)
    ensures SimulatesAt(Apply(w, st), u, st.id, NextCell(w, st, u, cell))
  {
    TableAfter(w, st);
    assert Apply(w, st).log == w.log;
  }

  lemma OwnCacheSet(w: World, st: Step, u: string, cell: Option<Session>)
    requires Smooth(w, st, u) && st.CacheSet? && Active(w, st.id, u) && Sound(w) && SimulatesAt(w, u, st.id, cell)
    ensures SimulatesAt(Apply(w, st), u, st.id, NextCell(w, st, u, cell))
  {
    CacheAfter(w, st, u);
    assert Kind(w.calls[st.id]);
  }

  lemma OwnPublish(w: World, st: Step, u: string, cell: Option<Session>)
    requires Smooth(w, st, u) && st.Publish? && Active(w, st.id, u) && Sound(w) && SimulatesAt(w, u, st.id, cell)
    ensures SimulatesAt(Apply(w, st), u, st.id, NextCell(w, st, u, cell))
  {
    assert Kind(w.calls[st.id]);
  }

  lemma OwnRead(w: World, st: Step, u: string, cell: Option<Session>)
    requires Smooth(w, st, u) && (st.CacheGet? || st.TableGet?) && Active(w, st.id, u) && Sound(w)
    requires SimulatesAt(w, u, st.id, cell)
    ensures SimulatesAt(Apply(w, st), u, st.id, NextCell(w, st, u, cell))
    ensures st.TableGet? ==> u !in w.table
  {
    assert Kind(w.calls[st.id]);
  }

  lemma OwnAssign(w: World, st: Step, u: string, cell: Option<Session>)
    requires Smooth(w, st, u) && st.Assign? && Active(w, st.id, u) && Sound(w) && SimulatesAt(w, u, st.id, cell)
    ensures SimulatesAt(Apply(w, st), u, st.id, NextCell(w, st, u, cell))
  {
    assert Kind(w.calls[st.id]);
  }

  lemma OwnStep(w: World, st: Step, u: string, cell: Option<Session>)
    requires Smooth(w, st, u) && OfCall(st) && w.calls[st.id].op.user == u && Simulates(w, u, cell)
    ensures Simulates(Apply(w, st), u, NextCell(w, st, u, cell))
  {
    var w', cell' := Apply(w, st), NextCell(w, st, u, cell);
    assert Active(w, st.id, u);
    Focus(w, u, st.id, cell);
    SoundKept(w, st);
    OneActiveKept(w, st, u);
    if st.Upsert? { OwnUpsert(w, st, u, cell); }
    else if st.CacheSet? { OwnCacheSet(w, st, u, cell); }
    else if st.Publish? { OwnPublish(w, st, u, cell); }
    else if st.Assign? { OwnAssign(w, st, u, cell); }
    else { OwnRead(w, st, u, cell); }
    NoWarmsKept(w, st, u);
    forall j | Active(w', j, u) ensures j == st.id { ActiveBefore(w, st, j, u); }
    Unfocus(w', u, st.id, cell');
  }

  lemma BeginStep(w: World, st: Step, u: string, cell: Option<Session>)
    requires Smooth(w, st, u) && st.Begin? && st.op.user == u && Simulates(w, u, cell)
    ensures Simulates(Apply(w, st), u, cell) && NextCell(w, st, u, cell) == cell
  {
    var w' := Apply(w, st);
    SoundKept(w, st);
    OneActiveKept(w, st, u);
    NoWarmsKept(w, st, u);
    assert CacheIs(w, u, cell) && (u in w.cache || NoTrace(w, u));
    forall j | Active(w', j, u) ensures j == st.id { ActiveBefore(w, st, j, u); }
    assert NoMessages(w, u) ==> NoMessages(w', u);
    Unfocus(w', u, st.id, cell);
  }

  lemma SimulatesStep(w: World, st: Step, u: string, cell: Option<Session>)
    requires Smooth(w, st, u) && Simulates(w, u, cell)
    ensures Simulates(Apply(w, st), u, NextCell(w, st, u, cell))
  {
    if Foreign(w, st, u) { ForeignStep(w, st, u, cell); }
    else if st.Begin? { BeginStep(w, st, u, cell); }
    else { OwnStep(w, st, u, cell); }
  }

  /** The simulation holds along every such run. */
  lemma {:induction false} AlwaysSimulates(partitions: nat, now: int, tr: seq<Step>, u: string)
    requires Legal(Init(partitions, now), tr)
    requires Always(Init(partitions, now), tr, (w, st) => Smooth(w, st, u))
    ensures Simulates(After(Init(partitions, now), tr), u, Cell(Init(partitions, now), tr, u))
    decreases |tr|
  {
    var w0 := Init(partitions, now);
    if tr != [] {
      AlwaysSimulates(partitions, now, tr[..|tr| - 1], u);
      SimulatesStep(After(w0, tr[..|tr| - 1]), tr[|tr| - 1], u, Cell(w0, tr[..|tr| - 1], u));
    }
  }

  lemma ReadReturns(w: World, st: Step, u: string, cell: Option<Session>)
    requires Smooth(w, st, u) && (st.CacheGet? || st.TableGet?) && Active(w, st.id, u) && Sound(w)
    requires SimulatesAt(w, u, st.id, cell) && Apply(w, st).calls[st.id].pc.Done?
    ensures MadeOf(Apply(w, st).calls[st.id], cell)
  {
    assert Kind(w.calls[st.id]);
  }

  lemma WriteReturns(w: World, st: Step, u: string, cell: Option<Session>)
    requires Smooth(w, st, u) && OfCall(st) && !st.CacheGet? && !st.TableGet? && Active(w, st.id, u) && Sound(w)
    requires SimulatesAt(w, u, st.id, cell) && Apply(w, st).calls[st.id].pc.Done?
    ensures MadeOf(Apply(w, st).calls[st.id], cell)
  {
    assert Kind(w.calls[st.id]);
    assert !st.Assign? && Apply(w, st).calls[st.id].obj == w.calls[st.id].obj;
  }

  lemma ReturnStep(w: World, st: Step, u: string, cell: Option<Session>)
    requires Smooth(w, st, u) && OfCall(st) && Active(w, st.id, u) && Sound(w) && SimulatesAt(w, u, st.id, cell)
    requires Apply(w, st).calls[st.id].pc.Done?
    ensures MadeOf(Apply(w, st).calls[st.id], cell)
  {
    if st.CacheGet? || st.TableGet? {
      ReadReturns(w, st, u, cell);
    } else {
      WriteReturns(w, st, u, cell);
    }
  }

  /** Whatever a request of `u` returns is what the one-cell specification allows it to. */
  lemma ReturnsAreAllowed(partitions: nat, now: int, tr: seq<Step>, st: Step, u: string)
    requires Legal(Init(partitions, now), tr)
    requires Always(Init(partitions, now), tr, (w, st) => Smooth(w, st, u))
    requires Smooth(After(Init(partitions, now), tr), st, u)
    requires var w := After(Init(partitions, now), tr);
             OfCall(st) && w.calls[st.id].op.user == u && Apply(w, st).calls[st.id].pc.Done?
    ensures var w0 := Init(partitions, now);
            Allowed(Apply(After(w0, tr), st).calls[st.id], Cell(w0, tr, u), BeganAt(w0, tr, st.id), After(w0, tr).now)
  {
    var w, cell := After(Init(partitions, now), tr), Cell(Init(partitions, now), tr, u);
    ReturnsInTime(Init(partitions, now), tr, st);
    AlwaysSimulates(partitions, now, tr, u);
    assert Active(w, st.id, u);
    Focus(w, u, st.id, cell);
    ReturnStep(w, st, u, cell);
  }

  /** Between requests the cache holds the cell, and no warm of `u` was ever spawned. */
  lemma CacheIsTheCell(partitions: nat, now: int, tr: seq<Step>, u: string)
    requires Legal(Init(partitions, now), tr)
    requires Always(Init(partitions, now), tr, (w, st) => Smooth(w, st, u))
    requires Idle(After(Init(partitions, now), tr), u)
    ensures CacheIs(After(Init(partitions, now), tr), u, Cell(Init(partitions, now), tr, u))
    ensures NoWarms(After(Init(partitions, now), tr), u)
  {
    AlwaysSimulates(partitions, now, tr, u);
  }
}
