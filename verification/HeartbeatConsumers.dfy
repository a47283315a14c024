/** The consumer loop of internal/kafka/consumer.go with the handler of internal/session/consumer.go. */
module HeartbeatConsumers {
  import opened Model
  import opened Machine
  import opened Conservation
  import opened Event
  import opened Backend
  import opened SessionService

  datatype Fetched = Message(p: nat, text: string) | FetchError | Canceled

  /** What a turn of the loop meets: whether a fetch fails, an upsert and a commit get through. */
  datatype Turned = Turned(fetchFails: bool, tableWrite: bool, commit: bool)

  ghost predicate NoneHeld(w: World) {
    forall p :: 0 <= p < |w.log| ==> !w.log[p].holding && w.log[p].fetched <= |w.log[p].msgs|
  }

  ghost predicate AllFetched(w: World) {
    forall p :: 0 <= p < |w.log| ==> w.log[p].fetched == |w.log[p].msgs|
  }

  /** Consumer steps that lead from `w0` to `w`. */
  ghost predicate Consumes(w0: World, steps: seq<Step>, w: World) {
    Legal(w0, steps) && After(w0, steps) == w && ConsumerOnly(steps)
  }

  // ---------- The steps of the loop among those of everybody ----------

  function Taken(tr: seq<Step>): seq<Step> {
    if tr == [] then []
    else Taken(tr[..|tr| - 1]) + if OfConsumer(tr[|tr| - 1]) then [tr[|tr| - 1]] else []
  }

  lemma OneTaken(tr: seq<Step>, st: Step)
    requires OfConsumer(st)
    ensures Taken(tr + [st]) == Taken(tr) + [st]
  {
    assert (tr + [st])[..|tr|] == tr;
  }

  lemma Regrouped<T>(a: seq<T>, b: seq<T>, c: seq<T>)
    ensures a + b + c == a + (b + c)
  {
  }

  /** A message of `p` is fetched, handled and perhaps committed. */
  function TurnOf(p: nat, handled: bool, committed: bool): seq<Step> {
    [Fetch(p), Step.Handle(p, handled)] + if committed then [Commit(p)] else []
  }

  lemma OneTurn(p: nat, handled: bool, committed: bool)
    ensures [Fetch(p)] + ([Step.Handle(p, handled)] + if committed then [Commit(p)] else []) ==
            TurnOf(p, handled, committed)
  {
    Regrouped([Fetch(p)], [Step.Handle(p, handled)], if committed then [Commit(p)] else []);
    assert [Fetch(p)] + [Step.Handle(p, handled)] == [Fetch(p), Step.Handle(p, handled)];
  }

  lemma ConsumersJoin(a: seq<Step>, b: seq<Step>)
    requires ConsumerOnly(a) && ConsumerOnly(b)
    ensures ConsumerOnly(a + b)
  {
  }

  // ---------- Other goroutines meanwhile ----------

  /** Messages have arrived; no partition has been read or committed. */
  predicate Grown(log: seq<Partition>, log': seq<Partition>) {
    && |log'| == |log|
    && forall p :: 0 <= p < |log| ==> log[p].msgs <= log'[p].msgs && log'[p] == log[p].(msgs := log'[p].msgs)
  }

  lemma GrownKeepsHeld(w: World, w': World, p: nat)
    requires Grown(w.log, w'.log) && p < |w.log| && Enabled(w, Step.Handle(p, true)) && NoneHeld(LetGo(w, p))
    ensures p < |w'.log| && Enabled(w', Step.Handle(p, true)) && Held(w'.log[p]) == Held(w.log[p]) &&
            NoneHeld(LetGo(w', p))
  {
    forall q | 0 <= q < |w'.log|
      ensures !LetGo(w', p).log[q].holding && LetGo(w', p).log[q].fetched <= |LetGo(w', p).log[q].msgs|
    {
      assert !LetGo(w, p).log[q].holding && LetGo(w, p).log[q].fetched <= |LetGo(w, p).log[q].msgs|;
    }
  }

  lemma GrownKeepsNoneHeld(w: World, w': World)
    requires Grown(w.log, w'.log) && NoneHeld(w)
    ensures NoneHeld(w')
  {
  }

  function LetGo(w: World, p: nat): World
    requires p < |w.log|
  {
    SetPartition(w, p, w.log[p].(holding := false))
  }

  lemma FetchHolds(w: World, p: nat)
    requires NoneHeld(w) && Enabled(w, Fetch(p))
    ensures var w' := Apply(w, Fetch(p)); Enabled(w', Step.Handle(p, true)) && NoneHeld(LetGo(w', p))
  {
  }

  lemma HandleLetsGo(w: World, p: nat, ok: bool)
    requires Enabled(w, Step.Handle(p, ok)) && NoneHeld(LetGo(w, p))
    ensures NoneHeld(Apply(w, Step.Handle(p, ok))) && |Apply(w, Step.Handle(p, ok)).log| == |w.log|
  {
    assert LetGo(w, p).log[p].fetched == w.log[p].fetched;
    forall q | 0 <= q < |w.log|
      ensures !Apply(w, Step.Handle(p, ok)).log[q].holding
      ensures Apply(w, Step.Handle(p, ok)).log[q].fetched <= |Apply(w, Step.Handle(p, ok)).log[q].msgs|
    {
      assert !LetGo(w, p).log[q].holding;
    }
  }

  lemma HandleWrites(w: World, p: nat, ok: bool, text: string)
    requires Enabled(w, Step.Handle(p, ok)) && Carries(text, Held(w.log[p]))
    requires ok && Decode(text).Some? ==> Fits(Decode(text).value)
    ensures var w', v := Apply(w, Step.Handle(p, ok)), Decode(text);
            w'.table == (if ok && v.Some? then w.table[v.value.user := Stored(v.value)] else w.table) &&
            w'.cache == w.cache && w'.now == w.now
  {
  }

  lemma HandleKeepsLinks(topics: seq<Topic>, w: World, p: nat, ok: bool)
    requires Enabled(w, Step.Handle(p, ok)) && LogLinked(topics, w.log)
    ensures LogLinked(topics, Apply(w, Step.Handle(p, ok)).log)
  {
  }

  lemma FetchKeepsLinks(topics: seq<Topic>, w: World, p: nat)
    requires Enabled(w, Fetch(p)) && LogLinked(topics, w.log)
    ensures LogLinked(topics[p := topics[p].(fetched := topics[p].fetched + 1)], Apply(w, Fetch(p)).log)
    ensures Carries(topics[p].texts[topics[p].fetched], Held(Apply(w, Fetch(p)).log[p]))
  {
  }

  lemma CommitHoldsNothing(w: World, p: nat)
    requires NoneHeld(w) && p < |w.log|
    ensures Enabled(w, Commit(p)) && NoneHeld(Apply(w, Commit(p)))
  {
  }

  lemma CommitKeepsLinks(topics: seq<Topic>, w: World, p: nat)
    requires Enabled(w, Commit(p)) && LogLinked(topics, w.log)
    ensures LogLinked(topics[p := topics[p].(committed := topics[p].fetched)], Apply(w, Commit(p)).log)
  {
  }

  // ---------- Where the group stands ----------

  /** Messages have arrived, and `p` alone has been read up to `fetched` and committed up to
      `committed`. */
  predicate Stands(log: seq<Partition>, log': seq<Partition>, p: nat, fetched: nat, committed: nat) {
    && |log'| == |log|
    && forall q :: 0 <= q < |log| ==>
         && log[q].msgs <= log'[q].msgs
         && if q == p then log'[q].fetched == fetched && log'[q].committed == committed
            else log'[q].fetched == log[q].fetched && log'[q].committed == log[q].committed
  }

  lemma StandsOn(a: seq<Partition>, b: seq<Partition>, c: seq<Partition>, p: nat, f: nat, k: nat, f': nat, k': nat)
    requires Stands(a, b, p, f, k) && Stands(b, c, p, f', k')
    ensures Stands(a, c, p, f', k')
  {
    forall q | 0 <= q < |a| ensures a[q].msgs <= c[q].msgs {
      assert a[q].msgs <= b[q].msgs <= c[q].msgs;
    }
  }

  lemma GrownStands(log: seq<Partition>, log': seq<Partition>, p: nat)
    requires Grown(log, log') && p < |log|
    ensures Stands(log, log', p, log[p].fetched, log[p].committed)
  {
  }

  /** The group's offset of each partition that was read is where the reader is, if commits get
      through, and where it was, if they do not; that of any other partition is where it was. */
  predicate CommittedAll(log: seq<Partition>, log': seq<Partition>, commit: bool) {
    && |log'| == |log|
    && forall p :: 0 <= p < |log| ==>
         && log[p].fetched <= log'[p].fetched
         && log'[p].committed ==
            if commit && log[p].fetched < log'[p].fetched then log'[p].fetched else log[p].committed
  }

  /** The handler reports no error: the message is skipped or its upsert succeeds. */
  predicate Accepts(m: Machine.Message, up: bool) {
    m.Malformed? || (up && -2_147_483_648 <= m.s.position <= 2_147_483_647)
  }

  // ---------- What is left to do ----------

  function Rest(t: Topic): nat {
    if t.fetched <= |t.texts| then |t.texts| - t.fetched else 0
  }

  function Unfetched(topics: seq<Topic>): nat {
    if topics == [] then 0 else Unfetched(topics[..|topics| - 1]) + Rest(topics[|topics| - 1])
  }

  lemma {:induction false} OneFetched(topics: seq<Topic>, p: nat)
    requires p < |topics| && topics[p].fetched < |topics[p].texts|
    ensures Unfetched(topics[p := topics[p].(fetched := topics[p].fetched + 1)]) == Unfetched(topics) - 1
  {
    var topics' := topics[p := topics[p].(fetched := topics[p].fetched + 1)];
    if p == |topics| - 1 {
      assert topics'[..p] == topics[..p];
    } else {
      OneFetched(topics[..|topics| - 1], p);
      assert topics'[..|topics| - 1] == topics[..|topics| - 1][p := topics'[p]];
    }
  }

  lemma {:induction false} CommittedDoesNotCount(topics: seq<Topic>, p: nat, c: nat)
    requires p < |topics|
    ensures Unfetched(topics[p := topics[p].(committed := c)]) == Unfetched(topics)
  {
    var topics' := topics[p := topics[p].(committed := c)];
    if p == |topics| - 1 {
      assert topics'[..p] == topics[..p];
    } else {
      CommittedDoesNotCount(topics[..|topics| - 1], p, c);
      assert topics'[..|topics| - 1] == topics[..|topics| - 1][p := topics'[p]];
    }
  }

  /** The message of this text is with the handler, and no other message is. */
  ghost predicate Holding(w: World, p: nat, text: string) {
    && Enabled(w, Step.Handle(p, true)) && Carries(text, Held(w.log[p])) && NoneHeld(LetGo(w, p))
  }

  /** The reader has moved past the next message of `p`. */
  predicate Reads(log: seq<Partition>, log': seq<Partition>, p: nat) {
    p < |log| && Stands(log, log', p, log[p].fetched + 1, log[p].committed)
  }

  /** The group's offset of `p` has been moved to where the reader is, or not. */
  predicate Commits(log: seq<Partition>, log': seq<Partition>, p: nat, commit: bool) {
    p < |log| && Stands(log, log', p, log[p].fetched, if commit then log[p].fetched else log[p].committed)
  }

  /** The reader of the consumer group, which may still fail to fetch `errors` times while
      others may still publish `arrivals` messages. If `quiet`, nobody else runs. */
  class Reader {
    const sys: System
    var errors: nat
    ghost var arrivals: nat
    ghost const quiet: bool

    constructor (sys: System, errors: nat, ghost arrivals: nat, ghost quiet: bool)
      ensures this.sys == sys && this.errors == errors && this.arrivals == arrivals && this.quiet == quiet
    {
      this.sys, this.errors, this.arrivals, this.quiet := sys, errors, arrivals, quiet;
    }

    /** What the loop has still to fetch. */
    ghost function Left(): nat
      reads this, sys.broker
    {
      Unfetched(sys.broker.topics) + arrivals
    }

    /** How many turns it can still take at most. */
    ghost function Budget(): nat
      reads this, sys.broker
    {
      Left() + errors
    }

    /** Requests, warms and the environment run for a while, as `System.Interleave` has it; there
        is no other consumer. */
    method Meanwhile()
      requires sys.Valid()
      modifies this`arrivals, sys.Parts()
      ensures sys.Valid() && old(sys.trace) <= sys.trace && Taken(sys.trace) == Taken(old(sys.trace))
      ensures Grown(old(sys.world.log), sys.world.log) && Left() <= old(Left())
      ensures quiet ==> sys.trace == old(sys.trace)
    {
    }

    /** The next message of some partition, an error, or Canceled: at the end of the log the
        call blocks until the service shuts down. */
    method FetchMessage(fail: bool) returns (r: Fetched, ghost taken: seq<Step>)
      requires sys.Valid() && NoneHeld(sys.world)
      modifies this, sys.Parts()
      ensures sys.Valid() && old(sys.trace) <= sys.trace && Taken(sys.trace) == Taken(old(sys.trace)) + taken
      ensures quiet ==> sys.trace == old(sys.trace) + taken
      ensures !r.Message? ==> taken == [] && NoneHeld(sys.world) && Grown(old(sys.world.log), sys.world.log)
      ensures r.Canceled? ==> AllFetched(sys.world)
      ensures (r.FetchError? <==> fail && old(errors) > 0) && (!r.Canceled? ==> Budget() < old(Budget()))
      ensures r.Message? ==> taken == [Fetch(r.p)] && r.p < |sys.world.log|
      ensures r.Message? ==> Holding(sys.world, r.p, r.text) && Reads(old(sys.world.log), sys.world.log, r.p)
    {
      ghost var w := sys.world;
      Meanwhile();
      GrownKeepsNoneHeld(w, sys.world);
      taken := [];
      if fail && errors > 0 {
        errors := errors - 1;
        r := FetchError;
        return;
      }
      var topics := sys.broker.topics;
      if forall p :: 0 <= p < |topics| ==> topics[p].fetched >= |topics[p].texts| {
        r := Canceled;
        return;
      }
      var p :| 0 <= p < |topics| && topics[p].fetched < |topics[p].texts|;
      var text := TakeFrom(p, w.log);
      taken := [Fetch(p)];
      r := Message(p, text);
    }

    method TakeFrom(p: nat, ghost log0: seq<Partition>) returns (text: string)
      requires sys.Valid() && NoneHeld(sys.world) && Enabled(sys.world, Fetch(p)) && Grown(log0, sys.world.log)
      modifies sys, sys.broker
      ensures sys.Valid() && sys.trace == old(sys.trace) + [Fetch(p)] &&
              Taken(sys.trace) == Taken(old(sys.trace)) + [Fetch(p)]
      ensures p < |sys.world.log| && Holding(sys.world, p, text) && Left() < old(Left())
      ensures Reads(log0, sys.world.log, p)
    {
      var topics := sys.broker.topics;
      OneFetched(topics, p);
      OneTaken(sys.trace, Fetch(p));
      Taking(topics, sys.world, p, log0);
      text := topics[p].texts[topics[p].fetched];
      sys.broker.topics := topics[p := topics[p].(fetched := topics[p].fetched + 1)];
      sys.Record(Fetch(p));
    }

    /** The group's offset moves past the last message fetched from the partition, or stays. */
    method CommitMessages(p: nat, up: bool) returns (ok: bool, ghost taken: seq<Step>)
      requires sys.Valid() && NoneHeld(sys.world) && p < |sys.world.log|
      modifies sys, sys.broker
      ensures sys.Valid() && NoneHeld(sys.world) && Left() == old(Left())
      ensures ok == up && taken == if ok then [Commit(p)] else []
      ensures sys.trace == old(sys.trace) + taken && Taken(sys.trace) == Taken(old(sys.trace)) + taken
      ensures Commits(old(sys.world.log), sys.world.log, p, up)
    {
      ok := up;
      taken := [];
      if ok {
        MoveOffset(p);
        taken := [Commit(p)];
      }
    }

    method MoveOffset(p: nat)
      requires sys.Valid() && NoneHeld(sys.world) && p < |sys.world.log|
      modifies sys, sys.broker
      ensures sys.Valid() && NoneHeld(sys.world) && Left() == old(Left())
      ensures sys.trace == old(sys.trace) + [Commit(p)] && Taken(sys.trace) == Taken(old(sys.trace)) + [Commit(p)]
      ensures Commits(old(sys.world.log), sys.world.log, p, true)
    {
      var topics := sys.broker.topics;
      CommittedDoesNotCount(topics, p, topics[p].fetched);
      sys.broker.topics := topics[p := topics[p].(committed := topics[p].fetched)];
      OneTaken(sys.trace, Commit(p));
      CommitKeepsLinks(topics, sys.world, p);
      CommitHoldsNothing(sys.world, p);
      sys.Record(Commit(p));
    }
  }

  /** `taken` are the steps of reading the next message of `p`; it was handled, with or without
      an error, and then committed if the commit got through. */
  predicate ReadOne(log: seq<Partition>, log': seq<Partition>, p: nat, met: Turned, taken: seq<Step>) {
    && p < |log| == |log'| && log[p].fetched < |log'[p].msgs|
    && Stands(log, log', p, log[p].fetched + 1, if met.commit then log[p].fetched + 1 else log[p].committed)
    && taken == TurnOf(p, Accepts(log'[p].msgs[log[p].fetched], met.tableWrite), met.commit)
  }

  lemma FetchReads(log: seq<Partition>, w: World, p: nat)
    requires Grown(log, w.log) && Enabled(w, Fetch(p))
    ensures Reads(log, Apply(w, Fetch(p)).log, p)
  {
  }

  lemma Taking(topics: seq<Topic>, w: World, p: nat, log0: seq<Partition>)
    requires NoneHeld(w) && Enabled(w, Fetch(p)) && LogLinked(topics, w.log) && Grown(log0, w.log)
    ensures LogLinked(topics[p := topics[p].(fetched := topics[p].fetched + 1)], Apply(w, Fetch(p)).log)
    ensures Holding(Apply(w, Fetch(p)), p, topics[p].texts[topics[p].fetched])
    ensures Reads(log0, Apply(w, Fetch(p)).log, p)
  {
    FetchHolds(w, p);
    FetchKeepsLinks(topics, w, p);
    FetchReads(log0, w, p);
  }

  lemma HandleMoves(w: World, p: nat, ok: bool)
    requires Enabled(w, Step.Handle(p, ok))
    ensures Commits(w.log, Apply(w, Step.Handle(p, ok)).log, p, false)
  {
  }

  lemma ReadAndCommitted(log: seq<Partition>, read: seq<Partition>, log': seq<Partition>, p: nat, text: string,
                         met: Turned)
    requires Reads(log, read, p) && Commits(read, log', p, met.commit)
    requires read[p].fetched <= |read[p].msgs| && Carries(text, Held(read[p]))
    ensures ReadOne(log, log', p, met,
                    TurnOf(p, Decode(text).None? || (met.tableWrite && Fits(Decode(text).value)), met.commit))
  {
    StandsOn(log, read, log', p, read[p].fetched, read[p].committed, read[p].fetched,
        if met.commit then read[p].fetched else read[p].committed);
    assert log'[p].msgs[log[p].fetched] == Held(read[p]);
  }

  /** What a turn comes to: one message is read, or none. */
  ghost predicate TurnedTo(log: seq<Partition>, log': seq<Partition>, met: Turned, taken: seq<Step>) {
    if taken == [] then Grown(log, log') else exists p :: ReadOne(log, log', p, met, taken)
  }

  /** `n` turns that met `met` in turn have taken `steps` and led from `log0` to `log`. */
  ghost predicate Turns(steps: seq<Step>, met: nat -> Turned, n: nat, log0: seq<Partition>, log: seq<Partition>)
    decreases n, 1
  {
    if n == 0 then steps == [] && log == log0 else exists k, mid :: LastTurn(steps, met, n, log0, log, k, mid)
  }

  /** The last of them led from `mid` to `log` with the steps from the `k`-th on. */
  ghost predicate LastTurn(steps: seq<Step>, met: nat -> Turned, n: nat, log0: seq<Partition>, log: seq<Partition>,
                           k: nat, mid: seq<Partition>)
    requires n > 0
    decreases n, 0
  {
    k <= |steps| && Turns(steps[..k], met, n - 1, log0, mid) && TurnedTo(mid, log, met(n - 1), steps[k..])
  }

  lemma OneLessTurn(steps: seq<Step>, met: nat -> Turned, n: nat, log0: seq<Partition>, log: seq<Partition>)
    returns (before: seq<Step>, turn: seq<Step>, mid: seq<Partition>)
    requires Turns(steps, met, n, log0, log) && n > 0
    ensures Turns(before, met, n - 1, log0, mid) && TurnedTo(mid, log, met(n - 1), turn) && steps == before + turn
  {
    var k: nat, m :| LastTurn(steps, met, n, log0, log, k, m);
    before, turn, mid := steps[..k], steps[k..], m;
  }

  lemma OneMoreTurn(steps: seq<Step>, turn: seq<Step>, met: nat -> Turned, n: nat,
                    log0: seq<Partition>, mid: seq<Partition>, log: seq<Partition>)
    requires Turns(steps, met, n, log0, mid) && TurnedTo(mid, log, met(n), turn)
    ensures Turns(steps + turn, met, n + 1, log0, log)
  {
    assert (steps + turn)[..|steps|] == steps && (steps + turn)[|steps|..] == turn;
    assert LastTurn(steps + turn, met, n + 1, log0, log, |steps|, mid);
  }

  lemma TurnIsConsumers(log: seq<Partition>, log': seq<Partition>, met: Turned, turn: seq<Step>)
    requires TurnedTo(log, log', met, turn)
    ensures ConsumerOnly(turn)
  {
  }

  lemma {:induction false} TurnsAreConsumers(steps: seq<Step>, met: nat -> Turned, n: nat,
                                             log0: seq<Partition>, log: seq<Partition>)
    requires Turns(steps, met, n, log0, log)
    ensures ConsumerOnly(steps)
    decreases n
  {
    if n > 0 {
      var before, turn, mid := OneLessTurn(steps, met, n, log0, log);
      TurnsAreConsumers(before, met, n - 1, log0, mid);
      TurnIsConsumers(mid, log, met(n - 1), turn);
      ConsumersJoin(before, turn);
    }
  }

  lemma OneMoreCommitted(log0: seq<Partition>, log: seq<Partition>, log': seq<Partition>, met: Turned,
                         taken: seq<Step>)
    requires CommittedAll(log0, log, met.commit) && TurnedTo(log, log', met, taken)
    ensures CommittedAll(log0, log', met.commit)
  {
    if taken != [] {
      var p: nat :| ReadOne(log, log', p, met, taken);
    }
  }

  /** If commits get through, the loop leaves the group's offset where it has read to; if they
      do not, it leaves the offset alone. */
  lemma {:induction false} TurnsCommit(steps: seq<Step>, met: nat -> Turned, n: nat,
                                       log0: seq<Partition>, log: seq<Partition>, commit: bool)
    requires Turns(steps, met, n, log0, log) && forall i: nat :: i < n ==> met(i).commit == commit
    ensures CommittedAll(log0, log, commit)
    decreases n
  {
    if n > 0 {
      var before, turn, mid := OneLessTurn(steps, met, n, log0, log);
      TurnsCommit(before, met, n - 1, log0, mid, commit);
      OneMoreCommitted(log0, mid, log, met(n - 1), turn);
    }
  }

  /** Every message that the reader has moved past was given to the handler, with the outcome of
      its upsert, if upserts get through. */
  ghost predicate HandledAll(log0: seq<Partition>, log: seq<Partition>, steps: seq<Step>) {
    && |log| == |log0|
    && forall p, i :: 0 <= p < |log| && log0[p].fetched <= i < log[p].fetched <= |log[p].msgs| ==>
         Step.Handle(p, Accepts(log[p].msgs[i], true)) in steps
  }

  lemma OneMoreHandled(log0: seq<Partition>, mid: seq<Partition>, log: seq<Partition>, met: Turned,
                       before: seq<Step>, taken: seq<Step>)
    requires HandledAll(log0, mid, before) && TurnedTo(mid, log, met, taken) && met.tableWrite
    requires forall p :: 0 <= p < |mid| ==> mid[p].fetched <= |mid[p].msgs|
    ensures HandledAll(log0, log, before + taken)
  {
    forall p, i | 0 <= p < |log| && log0[p].fetched <= i < log[p].fetched <= |log[p].msgs|
      ensures Step.Handle(p, Accepts(log[p].msgs[i], true)) in before + taken
    {
      if i < mid[p].fetched {
        assert Step.Handle(p, Accepts(mid[p].msgs[i], true)) in before;
      } else {
        var q: nat :| ReadOne(mid, log, q, met, taken);
        assert TurnOf(q, Accepts(log[q].msgs[i], true), met.commit)[1] in taken;
      }
    }
  }

  lemma {:induction false} TurnsHandle(steps: seq<Step>, met: nat -> Turned, n: nat,
                                       log0: seq<Partition>, log: seq<Partition>)
    requires Turns(steps, met, n, log0, log) && forall i: nat :: i < n ==> met(i).tableWrite
    requires forall p :: 0 <= p < |log0| ==> log0[p].fetched <= |log0[p].msgs|
    ensures HandledAll(log0, log, steps)
    ensures |log| == |log0| && forall p :: 0 <= p < |log| ==> log[p].fetched <= |log[p].msgs|
    decreases n
  {
    if n > 0 {
      var before, turn, mid := OneLessTurn(steps, met, n, log0, log);
      TurnsHandle(before, met, n - 1, log0, mid);
      OneMoreHandled(log0, mid, log, met(n - 1), before, turn);
    }
  }

  class HeartbeatConsumer {
    const sys: System
    const reader: Reader
    const repo: Repository

    constructor (sys: System, reader: Reader, repo: Repository)
      requires reader.sys == sys && repo.sys == sys
      ensures Linked() && this.sys == sys && this.reader == reader
    {
      this.sys, this.reader, this.repo := sys, reader, repo;
    }

    predicate Linked() {
      reader.sys == sys && repo.sys == sys
    }

    /** Text that does not decode is skipped without an error; a decoded session replaces its
        user's row or is reported as failed. */
    method Handle(text: string, up: bool) returns (ok: bool)
      requires Linked()
      modifies sys.db
      ensures ok <==> Decode(text).None? || (up && Fits(Decode(text).value))
      ensures sys.db.rows ==
              if ok && Decode(text).Some?
              then old(sys.db.rows)[Decode(text).value.user := Stored(Decode(text).value)]
              else old(sys.db.rows)
    {
      var env := ParseEnvelope(text);
      if env.None? { return true; }
      var v := Unmarshal(env.value.payload);
      if v.None? { return true; }
      var sess := new PlaybackSession(v.value);
      ok := repo.Upsert(sess, up);
    }

    method HandleNow(p: nat, text: string, up: bool) returns (ok: bool)
      requires Linked() && sys.Valid() && Holding(sys.world, p, text)
      modifies sys, sys.db
      ensures sys.Valid() && NoneHeld(sys.world) && p < |sys.world.log| && reader.Left() == old(reader.Left())
      ensures ok <==> Decode(text).None? || (up && Fits(Decode(text).value))
      ensures sys.trace == old(sys.trace) + [Step.Handle(p, ok)] &&
              Taken(sys.trace) == Taken(old(sys.trace)) + [Step.Handle(p, ok)]
      ensures Commits(old(sys.world.log), sys.world.log, p, false)
    {
      ok := Handle(text, up);
      HandleLetsGo(sys.world, p, ok);
      HandleMoves(sys.world, p, ok);
      HandleWrites(sys.world, p, ok, text);
      HandleKeepsLinks(sys.broker.topics, sys.world, p, ok);
      OneTaken(sys.trace, Step.Handle(p, ok));
      sys.Record(Step.Handle(p, ok));
    }

    /** The handler, some time after the fetch. */
    method HandleFor(p: nat, text: string, up: bool) returns (ok: bool)
      requires Linked() && sys.Valid() && Holding(sys.world, p, text)
      modifies sys.Parts(), reader`arrivals
      ensures sys.Valid() && NoneHeld(sys.world) && p < |sys.world.log| && reader.Left() <= old(reader.Left())
      ensures ok <==> Decode(text).None? || (up && Fits(Decode(text).value))
      ensures old(sys.trace) <= sys.trace && Taken(sys.trace) == Taken(old(sys.trace)) + [Step.Handle(p, ok)]
      ensures reader.quiet ==> sys.trace == old(sys.trace) + [Step.Handle(p, ok)]
      ensures Commits(old(sys.world.log), sys.world.log, p, false)
    {
      ghost var w := sys.world;
      reader.Meanwhile();
      GrownKeepsHeld(w, sys.world, p);
      ghost var log := sys.world.log;
      ok := HandleNow(p, text, up);
      GrownStands(w.log, log, p);
      StandsOn(w.log, log, sys.world.log, p, log[p].fetched, log[p].committed, log[p].fetched, log[p].committed);
    }

    /** The commit, some time after the handler. */
    method CommitFor(p: nat, up: bool) returns (ok: bool, ghost taken: seq<Step>)
      requires Linked() && sys.Valid() && NoneHeld(sys.world) && p < |sys.world.log|
      modifies sys.Parts(), reader`arrivals
      ensures sys.Valid() && NoneHeld(sys.world) && reader.Left() <= old(reader.Left())
      ensures ok == up && taken == if ok then [Commit(p)] else []
      ensures old(sys.trace) <= sys.trace && Taken(sys.trace) == Taken(old(sys.trace)) + taken
      ensures reader.quiet ==> sys.trace == old(sys.trace) + taken
      ensures Commits(old(sys.world.log), sys.world.log, p, up)
    {
      ghost var w := sys.world;
      reader.Meanwhile();
      GrownKeepsNoneHeld(w, sys.world);
      ghost var log := sys.world.log;
      ok, taken := reader.CommitMessages(p, up);
      GrownStands(w.log, log, p);
      StandsOn(w.log, log, sys.world.log, p, log[p].fetched, log[p].committed, log[p].fetched,
          if up then log[p].fetched else log[p].committed);
    }

    /** The rest of a turn of the loop: the offset is committed whatever the handler said. */
    method HandleAndCommit(p: nat, text: string, up: bool, commit: bool)
      returns (handled: bool, committed: bool, ghost taken: seq<Step>)
      requires Linked() && sys.Valid() && Holding(sys.world, p, text)
      modifies sys.Parts(), reader`arrivals
      ensures sys.Valid() && NoneHeld(sys.world) && reader.Left() <= old(reader.Left())
      ensures taken == [Step.Handle(p, handled)] + if committed then [Commit(p)] else []
      ensures (handled <==> Decode(text).None? || (up && Fits(Decode(text).value))) && committed == commit
      ensures old(sys.trace) <= sys.trace && Taken(sys.trace) == Taken(old(sys.trace)) + taken
      ensures reader.quiet ==> sys.trace == old(sys.trace) + taken
      ensures Commits(old(sys.world.log), sys.world.log, p, commit)
    {
      ghost var last;
      ghost var before := sys.world.log;
      handled := HandleFor(p, text, up);
      ghost var log := sys.world.log;
      committed, last := CommitFor(p, commit);
      StandsOn(before, log, sys.world.log, p, log[p].fetched, log[p].committed, log[p].fetched,
          if commit then log[p].fetched else log[p].committed);
      taken := [Step.Handle(p, handled)] + last;
      Regrouped(Taken(old(sys.trace)), [Step.Handle(p, handled)], last);
      Regrouped(old(sys.trace), [Step.Handle(p, handled)], last);
    }

    /** One turn of the loop; `more` is false when the context was cancelled. The message that is
        read, if any, is the next one of its partition. */
    method Turn(met: Turned) returns (more: bool, ghost taken: seq<Step>)
      requires Linked() && sys.Valid() && NoneHeld(sys.world)
      modifies sys.Parts(), reader
      ensures sys.Valid() && NoneHeld(sys.world)
      ensures TurnedTo(old(sys.world.log), sys.world.log, met, taken)
      ensures more && taken == [] <==> met.fetchFails && old(reader.errors) > 0
      ensures old(sys.trace) <= sys.trace && Taken(sys.trace) == Taken(old(sys.trace)) + taken
      ensures reader.quiet ==> sys.trace == old(sys.trace) + taken
      ensures more ==> reader.Budget() < old(reader.Budget())
      ensures !more ==> AllFetched(sys.world)
    {
      var r;
      r, taken := reader.FetchMessage(met.fetchFails);
      more := !r.Canceled?;
      if r.Message? {
        taken := FinishTurn(r.p, r.text, met, old(sys.trace), old(sys.world.log));
      }
    }

    /** What is left of a turn that began at `t0` and `log0` with a fetch. */
    method FinishTurn(p: nat, text: string, met: Turned, ghost t0: seq<Step>, ghost log0: seq<Partition>)
      returns (ghost taken: seq<Step>)
      requires Linked() && sys.Valid() && Holding(sys.world, p, text) && Reads(log0, sys.world.log, p)
      requires t0 <= sys.trace && Taken(sys.trace) == Taken(t0) + [Fetch(p)] &&
               (reader.quiet ==> sys.trace == t0 + [Fetch(p)])
      modifies sys.Parts(), reader`arrivals
      ensures sys.Valid() && NoneHeld(sys.world) && reader.Budget() <= old(reader.Budget())
      ensures taken == TurnOf(p, Decode(text).None? || (met.tableWrite && Fits(Decode(text).value)), met.commit)
      ensures t0 <= sys.trace && Taken(sys.trace) == Taken(t0) + taken && (reader.quiet ==> sys.trace == t0 + taken)
      ensures TurnedTo(log0, sys.world.log, met, taken) && taken != []
    {
      ghost var log := sys.world.log;
      var handled, committed, rest := HandleAndCommit(p, text, met.tableWrite, met.commit);
      taken := [Fetch(p)] + rest;
      Regrouped(Taken(t0), [Fetch(p)], rest);
      Regrouped(t0, [Fetch(p)], rest);
      OneTurn(p, handled, committed);
      ReadAndCommitted(log0, log, sys.world.log, p, text, met);
    }

    /** The loop stands after `n` turns of the steps `taken`, having begun at `t0` and `log0`. */
    ghost predicate Ran(met: nat -> Turned, n: nat, t0: seq<Step>, log0: seq<Partition>, taken: seq<Step>)
      reads sys, reader
    {
      && Turns(taken, met, n, log0, sys.world.log)
      && t0 <= sys.trace && Taken(sys.trace) == Taken(t0) + taken && (reader.quiet ==> sys.trace == t0 + taken)
    }

    /** The loop ends, whatever mix of undecodable text, failed upserts, failed commits and
        fetch errors it meets and whatever others write meanwhile, once finitely many messages
        have arrived; and then every message has been given to the handler. If commits get
        through, the group's offset is then at the end of every partition that was read. */
    method Run(met: nat -> Turned) returns (ghost taken: seq<Step>, ghost turns: nat)
      requires Linked() && sys.Valid() && NoneHeld(sys.world)
      modifies sys.Parts(), reader
      ensures sys.Valid() && Drained(sys.world) && AllFetched(sys.world)
      ensures old(sys.trace) <= sys.trace && Taken(sys.trace) == Taken(old(sys.trace)) + taken
      ensures Turns(taken, met, turns, old(sys.world.log), sys.world.log)
      ensures (forall n :: met(n).commit) ==> CommittedAll(old(sys.world.log), sys.world.log, true)
      ensures (forall n :: !met(n).commit) ==> CommittedAll(old(sys.world.log), sys.world.log, false)
      ensures (forall n :: met(n).tableWrite) ==> HandledAll(old(sys.world.log), sys.world.log, taken)
      ensures reader.quiet ==> Consumes(old(sys.world), taken, sys.world)
    {
      ghost var t0, log0 := sys.trace, sys.world.log;
      taken := [];
      var n, more := 0, true;
      while more
        invariant sys.Valid() && NoneHeld(sys.world) && Ran(met, n, t0, log0, taken)
        invariant !more ==> AllFetched(sys.world)
        decreases more, reader.Budget()
      {
        more, taken := TurnAfter(met, n, t0, log0, taken);
        n := n + 1;
      }
      turns := n;
      RanToTheEnd(met, n, t0, log0, taken);
    }

    lemma RanToTheEnd(met: nat -> Turned, n: nat, t0: seq<Step>, log0: seq<Partition>, taken: seq<Step>)
      requires Linked() && sys.Valid() && NoneHeld(sys.world) && AllFetched(sys.world)
      requires Ran(met, n, t0, log0, taken) && forall p :: 0 <= p < |log0| ==> log0[p].fetched <= |log0[p].msgs|
      ensures Drained(sys.world)
      ensures (forall n :: met(n).commit) ==> CommittedAll(log0, sys.world.log, true)
      ensures (forall n :: !met(n).commit) ==> CommittedAll(log0, sys.world.log, false)
      ensures (forall n :: met(n).tableWrite) ==> HandledAll(log0, sys.world.log, taken)
      ensures reader.quiet ==> Legal(sys.origin, t0) && Consumes(After(sys.origin, t0), taken, sys.world)
    {
      var log := sys.world.log;
      TurnsAreConsumers(taken, met, n, log0, log);
      if forall n :: met(n).commit { TurnsCommit(taken, met, n, log0, log, true); }
      if forall n :: !met(n).commit { TurnsCommit(taken, met, n, log0, log, false); }
      if forall n :: met(n).tableWrite { TurnsHandle(taken, met, n, log0, log); }
      if reader.quiet { Split(sys.origin, t0, taken); }
    }

    /** A turn, as the continuation of those already taken since `t0` and `log0`. */
    method TurnAfter(met: nat -> Turned, n: nat, ghost t0: seq<Step>, ghost log0: seq<Partition>,
                     ghost before: seq<Step>)
      returns (more: bool, ghost taken: seq<Step>)
      requires Linked() && sys.Valid() && NoneHeld(sys.world) && Ran(met, n, t0, log0, before)
      modifies sys.Parts(), reader
      ensures sys.Valid() && NoneHeld(sys.world) && Ran(met, n + 1, t0, log0, taken)
      ensures more ==> reader.Budget() < old(reader.Budget())
      ensures !more ==> AllFetched(sys.world)
    {
      ghost var turn, log := [], sys.world.log;
      more, turn := Turn(met(n));
      taken := before + turn;
      OneMoreTurn(before, turn, met, n, log0, log, sys.world.log);
      Regrouped(Taken(t0), before, turn);
      Regrouped(t0, before, turn);
    }
  }
}
