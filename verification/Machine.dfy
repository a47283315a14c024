/**
  The storage protocol as one step system: every store call, every field assignment on a
  fetched session and every field read of a cache warm is one atomic step, and the steps of
  concurrent requests, cache warms, the consumer and the environment interleave freely.
 */
module Machine {
  import opened Model

  // ---------- State ----------

  datatype Content = Good(s: Session) | Corrupt
  datatype Entry = Entry(content: Content, expiry: int)

  /** A heartbeat event, tagged with the request that published it, or bytes that do not decode. */
  datatype Message = Beat(origin: nat, s: Session) | Malformed

  /** What the first delivery of an offset came to. */
  datatype Fate = Applied | Dropped | Skipped

  /** `holding`: the message before `fetched` is still with the handler.
      `first`: for each offset whose handler has returned, the outcome of its first delivery. */
  datatype Partition = Partition(msgs: seq<Message>, fetched: nat, committed: nat,
                                 holding: bool, first: seq<Fate>)

  /** `direct` tells a heartbeat written to the table from one published to the log. */
  datatype Result = Answered | Acked(direct: bool) | NotFound | Internal

  datatype Pc =
    | StartUpsert | StartCache
    | BeatCache | BeatPublish | BeatFallback
    | ReadCache | ReadTable
    | SetStatus | SetDevice | SetStamp | ModUpsert | ModCache
    | Done(result: Result)

  /** A request in flight or finished. `obj` is the session object it points to, if any. */
  datatype Call = Call(op: Op, pc: Pc, obj: Option<Session>)

  /** A background warm of the object of the call of the same id, with the fields it has read. */
  datatype Warm =
    | Unread
    | GotStatus(status: string)
    | GotDevice(status: string, device: string)
    | Marshalled(s: Session)

  datatype World = World(table: map<string, Session>, cache: map<string, Entry>,
                         log: seq<Partition>, calls: map<nat, Call>,
                         warms: map<nat, Warm>, now: int)

  const EmptyPartition := Partition([], 0, 0, false, [])

  function Init(partitions: nat, now: int): World {
    World(map[], map[], seq(partitions, _ => EmptyPartition), map[], map[], now)
  }

  // ---------- Steps ----------

  datatype Step =
    | Begin(id: nat, op: Op)
    | Upsert(id: nat, ok: bool)
    | CacheSet(id: nat, ok: bool)
    | Publish(id: nat, where: Option<nat>)   // the partition the balancer chose, None on error
    | CacheGet(id: nat, ok: bool)
    | TableGet(id: nat, ok: bool)
    | Assign(id: nat)                        // the next field assignment of Pause or Resume
    | WarmRead(id: nat)                      // the next field read of a warm's json.Marshal
    | WarmSet(id: nat, ok: bool)
    | Fetch(p: nat)
    | Handle(p: nat, ok: bool)
    | Commit(p: nat)                         // a failed commit changes nothing and is no step
    | Restart(p: nat)                        // the partition is read again from the committed offset
    | Tick(time: int)
    | Evict(user: string)
    | Damage(user: string)
    | Poison(p: nat)                         // somebody else publishes undecodable bytes

  predicate OfCall(st: Step) {
    st.Upsert? || st.CacheSet? || st.Publish? || st.CacheGet? || st.TableGet? || st.Assign?
  }

  predicate OfConsumer(st: Step) {
    st.Fetch? || st.Handle? || st.Commit? || st.Restart?
  }

  ghost predicate ConsumerOnly(tr: seq<Step>) {
    forall i :: 0 <= i < |tr| ==> OfConsumer(tr[i])
  }

  predicate Enabled(w: World, st: Step) {
    match st
    case Begin(id, op) => id !in w.calls && Validated(op)
    case Upsert(id, _) => id in w.calls && HasObj(w, id)
                          && (w.calls[id].pc.StartUpsert? || w.calls[id].pc.BeatFallback? || w.calls[id].pc.ModUpsert?)
    case CacheSet(id, _) => id in w.calls && HasObj(w, id)
                            && (w.calls[id].pc.StartCache? || w.calls[id].pc.BeatCache? || w.calls[id].pc.ModCache?)
    case Publish(id, where) => id in w.calls && HasObj(w, id) && w.calls[id].pc.BeatPublish? &&
        (where.Some? ==> where.value < |w.log|)
    case CacheGet(id, _) => id in w.calls && w.calls[id].pc.ReadCache?
    case TableGet(id, _) => id in w.calls && w.calls[id].pc.ReadTable?
    case Assign(id) => id in w.calls && HasObj(w, id) && (w.calls[id].op.Pause? || w.calls[id].op.Resume?)
                       && (w.calls[id].pc.SetStatus? || w.calls[id].pc.SetDevice? || w.calls[id].pc.SetStamp?)
    case WarmRead(id) => id in w.warms && id in w.calls && HasObj(w, id) && !w.warms[id].Marshalled?
    case WarmSet(id, _) => id in w.warms && w.warms[id].Marshalled?
    case Fetch(p) => p < |w.log| && !w.log[p].holding && w.log[p].fetched < |w.log[p].msgs|
    case Handle(p, _) => p < |w.log| && w.log[p].holding && 0 < w.log[p].fetched <= |w.log[p].msgs|
    case Commit(p) => p < |w.log| && !w.log[p].holding
    case Restart(p) => p < |w.log|
    case Tick(time) => w.now <= time
    case Evict(user) => true
    case Damage(user) => user in w.cache
    case Poison(p) => p < |w.log|
  }

  predicate HasObj(w: World, id: nat)
    requires id in w.calls
  {
    w.calls[id].obj.Some?
  }

  function Apply(w: World, st: Step): World
    requires Enabled(w, st)
  {
    match st
    case Begin(id, op) => w.(calls := w.calls[id := NewCall(op, w.now)])
    case Upsert(id, ok) => AfterUpsert(w, id, ok)
    case CacheSet(id, ok) => AfterCacheSet(w, id, ok)
    case Publish(id, where) => AfterPublish(w, id, where)
    case CacheGet(id, ok) => AfterCacheGet(w, id, ok)
    case TableGet(id, ok) => AfterTableGet(w, id, ok)
    case Assign(id) => AfterAssign(w, id)
    case WarmRead(id) => w.(warms := w.warms[id := NextWarm(w.warms[id], w.calls[id].obj.value)])
    case WarmSet(id, ok) => PutCache(w, w.warms[id].s, ok).(warms := w.warms - {id})
    case Fetch(p) => SetPartition(w, p, w.log[p].(fetched := w.log[p].fetched + 1, holding := true))
    case Handle(p, ok) => AfterHandle(w, p, ok)
    case Commit(p) => SetPartition(w, p, w.log[p].(committed := w.log[p].fetched))
    case Restart(p) => SetPartition(w, p, w.log[p].(fetched := w.log[p].committed, holding := false))
    case Tick(time) => w.(now := time)
    case Evict(user) => w.(cache := w.cache - {user})
    case Damage(user) => w.(cache := w.cache[user := w.cache[user].(content := Corrupt)])
    case Poison(p) => Appended(w, p, Malformed)
  }

  // ---------- Effects on the stores ----------

  /** Repository.Upsert: the row is replaced whole, with no look at the stamp it had. */
  function PutTable(w: World, s: Session, ok: bool): World {
    if ok && Fits(s) then w.(table := w.table[s.user := Stored(s)]) else w
  }

  /** Repository.SetCache: marshal, then SET with the TTL. */
  function PutCache(w: World, s: Session, ok: bool): World {
    if ok && Encodable(s.stamp) then w.(cache := w.cache[s.user := Entry(Good(s), w.now + CACHE_TTL)]) else w
  }

  function SetPartition(w: World, p: nat, part: Partition): World
    requires p < |w.log|
  {
    w.(log := w.log[p := part])
  }

  function Appended(w: World, p: nat, m: Message): World
    requires p < |w.log|
  {
    SetPartition(w, p, w.log[p].(msgs := w.log[p].msgs + [m]))
  }

  // ---------- Requests ----------

  function NewCall(op: Op, now: int): Call {
    match op
    case Start(_, _, _, _) => Call(op, StartUpsert, Some(Fresh(op, now)))
    case Heartbeat(_, _, _, _) => Call(op, BeatCache, Some(Fresh(op, now)))
    case _ => Call(op, ReadCache, None)
  }

  function Goto(w: World, id: nat, pc: Pc): World
    requires id in w.calls
  {
    w.(calls := w.calls[id := w.calls[id].(pc := pc)])
  }

  function AfterUpsert(w: World, id: nat, ok: bool): World
    requires Enabled(w, Upsert(id, ok))
  {
    var s := w.calls[id].obj.value;
    var stored := ok && Fits(s);
    Goto(PutTable(w, s, ok), id,
         if stored then AfterUpsertPc(w.calls[id].pc) else Done(Internal))
  }

  function AfterUpsertPc(pc: Pc): Pc {
    match pc
    case StartUpsert => StartCache
    case BeatFallback => Done(Acked(true))
    case _ => ModCache
  }

  function AfterCacheSet(w: World, id: nat, ok: bool): World
    requires Enabled(w, CacheSet(id, ok))
  {
    Goto(PutCache(w, w.calls[id].obj.value, ok), id,
         if w.calls[id].pc.BeatCache? then BeatPublish else Done(Answered))
  }

  function AfterPublish(w: World, id: nat, where: Option<nat>): World
    requires Enabled(w, Publish(id, where))
  {
    var s := w.calls[id].obj.value;
    if !(Encodable(s.stamp) && Encodable(w.now)) then
      Goto(w, id, Done(Internal))            // NewEnvelope failed
    else if where.None? then
      Goto(w, id, BeatFallback)
    else
      Goto(Appended(w, where.value, Beat(id, s)), id, Done(Acked(false)))
  }

  predicate Hit(w: World, user: string) {
    user in w.cache && w.now < w.cache[user].expiry && w.cache[user].content.Good?
  }

  /** Repository.Get returned a session to the call. */
  function Got(w: World, id: nat, s: Session): World
    requires id in w.calls
  {
    var c := w.calls[id];
    w.(calls := w.calls[id := Call(c.op, if c.op.GetCurrent? then Done(Answered) else SetStatus, Some(s))])
  }

  function AfterCacheGet(w: World, id: nat, ok: bool): World
    requires Enabled(w, CacheGet(id, ok))
  {
    var user := w.calls[id].op.user;
    if ok && Hit(w, user) then Got(w, id, w.cache[user].content.s) else Goto(w, id, ReadTable)
  }

  function AfterTableGet(w: World, id: nat, ok: bool): World
    requires Enabled(w, TableGet(id, ok))
  {
    var user := w.calls[id].op.user;
    if !ok then Goto(w, id, Done(Internal))
    else if user !in w.table then Goto(w, id, Done(NotFound))
    else Got(w, id, w.table[user]).(warms := w.warms[id := Unread])
  }

  function AfterAssign(w: World, id: nat): World
    requires Enabled(w, Assign(id))
  {
    var c := w.calls[id];
    var s := c.obj.value;
    var c' := match c.pc
              case SetStatus => Call(c.op, SetDevice,
                  Some(s.(status := if c.op.Pause? then StatusPaused else StatusPlaying)))
              case SetDevice => Call(c.op, SetStamp, Some(s.(device := c.op.device)))
              case _ => Call(c.op, ModUpsert, Some(s.(stamp := w.now)));
    w.(calls := w.calls[id := c'])
  }

  function NextWarm(m: Warm, s: Session): Warm
    requires !m.Marshalled?
  {
    match m
    case Unread => GotStatus(s.status)
    case GotStatus(status) => GotDevice(status, s.device)
    case GotDevice(status, device) => Marshalled(s.(status := status, device := device))
  }

  // ---------- Consumer ----------

  /** The message with the handler. */
  function Held(part: Partition): Message
    requires 0 < part.fetched <= |part.msgs|
  {
    part.msgs[part.fetched - 1]
  }

  function Outcome(m: Message, ok: bool): Fate {
    if m.Malformed? then Skipped else if ok && Fits(m.s) then Applied else Dropped
  }

  /** The handler has returned; the outcome is kept if this was the first delivery. */
  function HandledPart(part: Partition, ok: bool): Partition
    requires part.holding && 0 < part.fetched <= |part.msgs|
  {
    part.(holding := false,
          first := if part.fetched - 1 == |part.first| then part.first + [Outcome(Held(part), ok)] else part.first)
  }

  /** HeartbeatConsumer.handle: malformed messages are skipped, an upsert error is only reported. */
  function AfterHandle(w: World, p: nat, ok: bool): World
    requires Enabled(w, Handle(p, ok))
  {
    var m := Held(w.log[p]);
    SetPartition(if m.Beat? then PutTable(w, m.s, ok) else w, p, HandledPart(w.log[p], ok))
  }

  // ---------- Runs ----------

  ghost predicate Legal(w0: World, tr: seq<Step>)
    decreases |tr|, 0
  {
    tr == [] || (Legal(w0, tr[..|tr| - 1]) && Enabled(After(w0, tr[..|tr| - 1]), tr[|tr| - 1]))
  }

  ghost function After(w0: World, tr: seq<Step>): World
    requires Legal(w0, tr)
    decreases |tr|, 1
  {
    if tr == [] then w0 else Apply(After(w0, tr[..|tr| - 1]), tr[|tr| - 1])
  }

  /** `hyp` held of every step of the run when it was taken. */
  ghost predicate Always(w0: World, tr: seq<Step>, hyp: (World, Step) -> bool)
    requires Legal(w0, tr)
  {
    tr == [] || (Always(w0, tr[..|tr| - 1], hyp) && hyp(After(w0, tr[..|tr| - 1]), tr[|tr| - 1]))
  }

  /** `p` held of some step of the run when it was taken. */
  ghost predicate Sometime(w0: World, tr: seq<Step>, p: (World, Step) -> bool)
    requires Legal(w0, tr)
  {
    tr != [] && (Sometime(w0, tr[..|tr| - 1], p) || p(After(w0, tr[..|tr| - 1]), tr[|tr| - 1]))
  }

  lemma {:induction false} AlwaysWeaken(w0: World, tr: seq<Step>, hyp: (World, Step) -> bool,
      hyp': (World, Step) -> bool)
    requires Legal(w0, tr) && Always(w0, tr, hyp)
    requires forall w, st :: hyp(w, st) ==> hyp'(w, st)
    ensures Always(w0, tr, hyp')
  {
    if tr != [] { AlwaysWeaken(w0, tr[..|tr| - 1], hyp, hyp'); }
  }

  /** A run and one more step. */
  lemma Extend(w0: World, tr: seq<Step>, st: Step)
    requires Legal(w0, tr) && Enabled(After(w0, tr), st)
    ensures (tr + [st])[..|tr|] == tr
    ensures Legal(w0, tr + [st]) && After(w0, tr + [st]) == Apply(After(w0, tr), st)
  {
    assert (tr + [st])[..|tr|] == tr;
  }

  lemma Longer(w0: World, tr: seq<Step>, tr': seq<Step>, st: Step)
    requires |tr'| == |tr| + 1 && tr'[..|tr|] == tr && tr'[|tr|] == st
    requires Legal(w0, tr) && Enabled(After(w0, tr), st)
    ensures Legal(w0, tr') && After(w0, tr') == Apply(After(w0, tr), st)
  {
  }

  lemma Shorter(w0: World, tr: seq<Step>, init: seq<Step>, st: Step)
    requires Legal(w0, tr) && tr != [] && init == tr[..|tr| - 1] && st == tr[|tr| - 1]
    ensures Legal(w0, init) && Enabled(After(w0, init), st) && After(w0, tr) == Apply(After(w0, init), st)
  {
  }

  lemma SumInit<T>(a: seq<T>, b: seq<T>)
    requires b != []
    ensures |a + b| == |a + b[..|b| - 1]| + 1
    ensures (a + b)[..|a + b[..|b| - 1]|] == a + b[..|b| - 1] && (a + b)[|a + b[..|b| - 1]|] == b[|b| - 1]
  {
  }

  /** Runs compose. */
  lemma {:induction false} Compose(w0: World, a: seq<Step>, b: seq<Step>)
    requires Legal(w0, a) && Legal(After(w0, a), b)
    ensures Legal(w0, a + b) && After(w0, a + b) == After(After(w0, a), b)
    decreases |b|
  {
    if b == [] {
      assert a + b == a;
    } else {
      var b', st := b[..|b| - 1], b[|b| - 1];
      Shorter(After(w0, a), b, b', st);
      Compose(w0, a, b');
      SumInit(a, b);
      Longer(w0, a + b', a + b, st);
    }
  }

  /** And come apart. */
  lemma {:induction false} Split(w0: World, a: seq<Step>, b: seq<Step>)
    requires Legal(w0, a + b)
    ensures Legal(w0, a) && Legal(After(w0, a), b) && After(After(w0, a), b) == After(w0, a + b)
    decreases |b|
  {
    if b == [] {
      assert a + b == a;
    } else {
      var b' := b[..|b| - 1];
      assert (a + b)[..|a + b| - 1] == a + b';
      Split(w0, a, b');
    }
  }

  predicate Active(w: World, id: nat, u: string) {
    id in w.calls && w.calls[id].op.user == u && !w.calls[id].pc.Done?
  }

  ghost predicate Idle(w: World, u: string) {
    forall id :: !Active(w, id, u)
  }

  /** The requests of `u` do not overlap: one begins only when the others have returned. */
  ghost predicate NoOverlap(w: World, st: Step, u: string) {
    st.Begin? && st.op.user == u ==> Idle(w, u)
  }

  ghost predicate OneActive(w: World, u: string) {
    forall i, j :: Active(w, i, u) && Active(w, j, u) ==> i == j
  }
}
