/** Does the order in which the partitions are read matter? Exactly when one user's last
    messages in different partitions ask for different rows. */
module Confluence {
  import opened Model
  import opened Machine
  import opened Frames
  import opened Requests
  import opened Offsets
  import opened Conservation
  import opened Replay

  /** The last messages that can give `u` a row, in the partitions that have any, agree. */
  ghost predicate Agree(f: seq<Stretch>, u: string) {
    forall p, q :: 0 <= p < |f| && 0 <= q < |f| && Goal(f[p], u) >= 0 && Goal(f[q], u) >= 0 ==>
      GoalRow(f[p], u) == GoalRow(f[q], u)
  }

  /** A run after which the log is `f`, all of it handled: no request has written the row of `u`
      meanwhile, the last messages that can give `u` a row were upserted when delivered, and no
      restart has brought back what had been handled before the run. */
  ghost predicate DrainsTo(w0: World, tr: seq<Step>, f: seq<Stretch>, u: string) {
    && Legal(w0, tr) && |After(w0, tr).log| == |w0.log| && Stretches(w0, After(w0, tr)) == f
    && Always(w0, tr, (w, st) => Undisturbed(w, st, f, u)) && Drained(After(w0, tr))
    && Always(w0, tr, (w, st) => RestartsWithin(w, st, f))
  }

  /** Whatever else goes on in two runs, requests that publish included: if they end with the same
      log, and the last messages of `u` in it agree, they end with the same row. */
  lemma AgreeingRunsEndAlike(w0: World, tr: seq<Step>, tr': seq<Step>, f: seq<Stretch>, u: string)
    requires Sound(w0) && AllInOrder(w0) && DrainsTo(w0, tr, f, u) && DrainsTo(w0, tr', f, u) && Agree(f, u)
    ensures Row(After(w0, tr), u) == Row(After(w0, tr'), u)
  {
    DrainedRowIsAGoal(w0, tr, f, u);
    DrainedRowIsAGoal(w0, tr', f, u);
  }

  /** From committed offsets on, restarts need no condition. */
  lemma ResumedDrainsTo(w0: World, tr: seq<Step>, f: seq<Stretch>, u: string)
    requires Resumed(w0) && Legal(w0, tr) && |After(w0, tr).log| == |w0.log| && Stretches(w0, After(w0, tr)) == f
    requires Always(w0, tr, (w, st) => Undisturbed(w, st, f, u)) && Drained(After(w0, tr))
    ensures DrainsTo(w0, tr, f, u)
  {
    ResumedRestartsWithin(w0, tr, f);
  }

  // ---------- Building a drain that reads partition `p` last ----------

  predicate Consuming(w: World, st: Step) {
    Enabled(w, st) && OfConsumer(st) && !st.Restart? && (st.Handle? ==> st.ok)
  }

  ghost predicate Fine(w: World, tr: seq<Step>) {
    Legal(w, tr) && Always(w, tr, Consuming)
  }

  lemma FineExtends(w: World, tr: seq<Step>, st: Step)
    requires Fine(w, tr) && Enabled(After(w, tr), st) && Consuming(After(w, tr), st)
    ensures Fine(w, tr + [st]) && After(w, tr + [st]) == Apply(After(w, tr), st)
  {
    Extend(w, tr, st);
  }

  /** Rounds of fetch and handle. */
  function Rounds(p: nat, n: nat): seq<Step> {
    if n == 0 then [] else Rounds(p, n - 1) + [Fetch(p), Handle(p, true)]
  }

  predicate Ready(w: World, p: nat) {
    p < |w.log| && w.log[p].fetched <= |w.log[p].msgs| && (w.log[p].holding ==> w.log[p].fetched > 0)
  }

  /** The messages of partition `p` that are still to be fetched. */
  function Left(w: World, p: nat): nat
    requires Ready(w, p)
  {
    |w.log[p].msgs| - w.log[p].fetched
  }

  function ToRead(w: World, p: nat): Stretch
    requires p < |w.log|
  {
    Stretch(w.log[p].msgs, Next(w.log[p]))
  }

  /** `w'` differs from `w` in how far partition `p` has been read, and in the table. */
  predicate OnlyRead(w: World, w': World, p: int) {
    && |w'.log| == |w.log|
    && (forall q :: 0 <= q < |w.log| ==> w'.log[q].msgs == w.log[q].msgs)
    && (forall q :: 0 <= q < |w.log| && q != p ==> w'.log[q] == w.log[q])
  }

  /** After the message with the handler, if any, and `n` more messages of partition `p`. */
  predicate ReadSoFar(w: World, w': World, p: nat, n: nat, u: string) {
    && p < |w.log| && OnlyRead(w, w', p) && w'.log[p].fetched == w.log[p].fetched + n && !w'.log[p].holding
    && (0 <= Goal(ToRead(w, p), u) < w.log[p].fetched + n ==> Row(w', u) == Some(GoalRow(ToRead(w, p), u)))
  }

  lemma OneRound(w: World, v: World, p: nat, n: nat, u: string)
    requires Ready(w, p) && ReadSoFar(w, v, p, n, u) && n < Left(w, p)
    ensures Enabled(v, Fetch(p)) && Enabled(Apply(v, Fetch(p)), Handle(p, true))
    ensures ReadSoFar(w, Apply(Apply(v, Fetch(p)), Handle(p, true)), p, n + 1, u)
  {
    var v1 := Apply(v, Fetch(p));
    assert v1.log[p].msgs == w.log[p].msgs && v1.table == v.table;
    TableAfter(v1, Handle(p, true));
  }

  lemma RoundExtends(w: World, a: seq<Step>, p: nat)
    requires Fine(w, a) && Enabled(After(w, a), Fetch(p)) && Enabled(Apply(After(w, a), Fetch(p)), Handle(p, true))
    ensures var b := a + [Fetch(p), Handle(p, true)];
            Fine(w, b) && After(w, b) == Apply(Apply(After(w, a), Fetch(p)), Handle(p, true))
  {
    FineExtends(w, a, Fetch(p));
    FineExtends(w, a + [Fetch(p)], Handle(p, true));
    assert a + [Fetch(p), Handle(p, true)] == a + [Fetch(p)] + [Handle(p, true)];
  }

  /** The message with the handler first, if there is one. */
  function LetGo(w: World, p: nat): seq<Step>
    requires p < |w.log|
  {
    if w.log[p].holding then [Handle(p, true)] else []
  }

  lemma LetGoWorks(w: World, p: nat, u: string)
    requires Ready(w, p)
    ensures Fine(w, LetGo(w, p)) && ReadSoFar(w, After(w, LetGo(w, p)), p, 0, u)
  {
    if w.log[p].holding {
      FineExtends(w, [], Handle(p, true));
      assert [] + [Handle(p, true)] == LetGo(w, p);
      TableAfter(w, Handle(p, true));
    }
  }

  function DrainOne(w: World, p: nat, n: nat): seq<Step>
    requires p < |w.log|
  {
    LetGo(w, p) + Rounds(p, n)
  }

  lemma OneMoreRound(w: World, p: nat, n: nat)
    requires p < |w.log| && n > 0
    ensures DrainOne(w, p, n) == DrainOne(w, p, n - 1) + [Fetch(p), Handle(p, true)]
  {
    assert LetGo(w, p) + (Rounds(p, n - 1) + [Fetch(p), Handle(p, true)]) ==
           LetGo(w, p) + Rounds(p, n - 1) + [Fetch(p), Handle(p, true)];
  }

  lemma {:induction false} DrainOneWorks(w: World, p: nat, n: nat, u: string)
    requires Ready(w, p) && n <= Left(w, p)
    ensures Fine(w, DrainOne(w, p, n)) && ReadSoFar(w, After(w, DrainOne(w, p, n)), p, n, u)
  {
    if n == 0 {
      LetGoWorks(w, p, u);
      assert LetGo(w, p) + [] == LetGo(w, p);
    } else {
      DrainOneWorks(w, p, n - 1, u);
      var a := DrainOne(w, p, n - 1);
      OneRound(w, After(w, a), p, n - 1, u);
      RoundExtends(w, a, p);
      OneMoreRound(w, p, n);
    }
  }

  /** Partitions 0 to k - 1 except `p`. */
  ghost function DrainOthers(w: World, k: nat, p: nat): seq<Step>
    requires k <= |w.log| && AllInOrder(w)
  {
    if k == 0 then [] else
      AllReady(w);
      DrainOthers(w, k - 1, p) + if k - 1 == p then [] else DrainOne(w, k - 1, Left(w, k - 1))
  }

  lemma AllReady(w: World)
    requires AllInOrder(w)
    ensures forall p: nat :: p < |w.log| ==> Ready(w, p)
  {
    assert forall p: nat :: p < |w.log| ==> InOrder(w.log[p]);
  }

  lemma {:induction false} FineComposes(w: World, a: seq<Step>, b: seq<Step>)
    requires Fine(w, a) && Fine(After(w, a), b)
    ensures Fine(w, a + b) && After(w, a + b) == After(After(w, a), b)
    decreases |b|
  {
    Compose(w, a, b);
    if b == [] {
      assert a + b == a;
    } else {
      var b' := b[..|b| - 1];
      FineComposes(w, a, b');
      assert (a + b)[..|a + b| - 1] == a + b';
    }
  }

  predicate OthersRead(w: World, w': World, k: nat, p: nat) {
    && |w'.log| == |w.log|
    && (forall q :: 0 <= q < |w.log| ==> w'.log[q].msgs == w.log[q].msgs)
    && (forall q :: 0 <= q < |w.log| && q < k && q != p ==> Past(w'.log[q]) == |w.log[q].msgs|)
    && (forall q :: 0 <= q < |w.log| && (k <= q || q == p) ==> w'.log[q] == w.log[q])
  }

  lemma OneMoreRead(w: World, v: World, v': World, k: nat, p: nat, u: string)
    requires k < |w.log| && k != p && OthersRead(w, v, k, p) && Ready(v, k) && ReadSoFar(v, v', k, Left(v, k), u)
    ensures OthersRead(w, v', k + 1, p)
  {
  }

  ghost predicate OthersDrained(w: World, tr: seq<Step>, k: nat, p: nat) {
    Fine(w, tr) && OthersRead(w, After(w, tr), k, p)
  }

  lemma DrainNext(w: World, a: seq<Step>, k: nat, p: nat, u: string)
    requires k < |w.log| && k != p && Ready(w, k) && OthersDrained(w, a, k, p)
    ensures OthersDrained(w, a + DrainOne(w, k, Left(w, k)), k + 1, p)
  {
    var v, n := After(w, a), Left(w, k);
    assert v.log[k] == w.log[k] && Left(v, k) == n && DrainOne(v, k, n) == DrainOne(w, k, n);
    DrainOneWorks(v, k, n, u);
    FineComposes(w, a, DrainOne(w, k, n));
    OneMoreRead(w, v, After(v, DrainOne(w, k, n)), k, p, u);
  }

  lemma NothingToSkip(w: World)
    ensures forall p :: OthersDrained(w, [], 0, p)
  {
  }

  lemma SkipNext(w: World, a: seq<Step>, p: nat)
    requires OthersDrained(w, a, p, p)
    ensures OthersDrained(w, a, p + 1, p)
  {
  }

  lemma {:induction false} DrainOthersWorks(w: World, k: nat, p: nat, u: string)
    requires k <= |w.log| && p <= |w.log| && AllInOrder(w)
    ensures OthersDrained(w, DrainOthers(w, k, p), k, p)
  {
    if k == 0 {
      NothingToSkip(w);
    } else {
      DrainOthersWorks(w, k - 1, p, u);
      AllReady(w);
      var a := DrainOthers(w, k - 1, p);
      if k - 1 != p {
        DrainNext(w, a, k - 1, p, u);
      } else {
        assert a + [] == a;
        SkipNext(w, a, p);
      }
    }
  }

  predicate AllRead(w: World, w': World) {
    && |w'.log| == |w.log|
    && forall q :: 0 <= q < |w.log| ==> w'.log[q].msgs == w.log[q].msgs && Past(w'.log[q]) == |w.log[q].msgs|
  }

  lemma LastRead(w: World, v: World, v': World, p: nat, u: string)
    requires p < |w.log| && OthersRead(w, v, |w.log|, p) && Ready(v, p) && ReadSoFar(v, v', p, Left(v, p), u)
    ensures AllRead(w, v')
  {
  }

  lemma FineDrains(w0: World, tr: seq<Step>, u: string)
    requires Fine(w0, tr) && AllRead(w0, After(w0, tr))
    ensures DrainsTo(w0, tr, Stretches(w0, w0), u)
  {
    var w, f := After(w0, tr), Stretches(w0, w0);
    assert Stretches(w0, w) == f;
    AlwaysWeaken(w0, tr, Consuming, (w, st) => Undisturbed(w, st, f, u));
    AlwaysWeaken(w0, tr, Consuming, (w, st) => RestartsWithin(w, st, f));
  }

  /** Every last message that can give `u` a row can be the one that ends up in the table, and
      the consumer alone can bring that about. */
  lemma AnyFinalCanWin(w0: World, p: nat, u: string) returns (tr: seq<Step>)
    requires AllInOrder(w0) && p < |w0.log| && Goal(ToRead(w0, p), u) >= 0
    ensures DrainsTo(w0, tr, Stretches(w0, w0), u) && Row(After(w0, tr), u) == Some(GoalRow(ToRead(w0, p), u))
  {
    AllReady(w0);
    DrainOthersWorks(w0, |w0.log|, p, u);
    var a := DrainOthers(w0, |w0.log|, p);
    var v, n := After(w0, a), Left(w0, p);
    assert v.log[p] == w0.log[p];
    DrainOneWorks(v, p, n, u);
    FineComposes(w0, a, DrainOne(v, p, n));
    tr := a + DrainOne(v, p, n);
    LastRead(w0, v, After(w0, tr), p, u);
    FineDrains(w0, tr, u);
  }

  /** There is a drain at all. */
  lemma SomeDrain(w0: World, u: string) returns (tr: seq<Step>)
    requires AllInOrder(w0)
    ensures DrainsTo(w0, tr, Stretches(w0, w0), u)
  {
    DrainOthersWorks(w0, |w0.log|, |w0.log|, u);
    tr := DrainOthers(w0, |w0.log|, |w0.log|);
    FineDrains(w0, tr, u);
  }

  /** The row of `u` is the same after every two drains of the log, whatever else goes on, if and
      only if the last messages that can give `u` a row agree. */
  lemma RowIsConfluentIff(w0: World, u: string)
    requires Sound(w0) && AllInOrder(w0)
    ensures Agree(Stretches(w0, w0), u) <==>
            forall tr, tr' | DrainsTo(w0, tr, Stretches(w0, w0), u) && DrainsTo(w0, tr', Stretches(w0, w0), u) ::
              Row(After(w0, tr), u) == Row(After(w0, tr'), u)
  {
    var f := Stretches(w0, w0);
    if Agree(f, u) {
      forall tr, tr' | DrainsTo(w0, tr, f, u) && DrainsTo(w0, tr', f, u)
        ensures Row(After(w0, tr), u) == Row(After(w0, tr'), u)
      {
        AgreeingRunsEndAlike(w0, tr, tr', f, u);
      }
    } else {
      var p, q :| 0 <= p < |f| && 0 <= q < |f| && Goal(f[p], u) >= 0 && Goal(f[q], u) >= 0 &&
          GoalRow(f[p], u) != GoalRow(f[q], u);
      assert f[p] == ToRead(w0, p) && f[q] == ToRead(w0, q);
      var tr := AnyFinalCanWin(w0, p, u);
      var tr' := AnyFinalCanWin(w0, q, u);
    }
  }

  /** What the balancer would have to supply: with the messages of each user in one partition,
      every two runs that drain the same log leave the same table. */
  lemma OnePartitionPerUserIsConfluent(w0: World, tr: seq<Step>, tr': seq<Step>, f: seq<Stretch>)
    requires Sound(w0) && AllInOrder(w0) && forall u :: DrainsTo(w0, tr, f, u) && DrainsTo(w0, tr', f, u)
    requires forall u, p, q :: 0 <= p < |f| && 0 <= q < |f| && Goal(f[p], u) >= 0 && Goal(f[q], u) >= 0 ==> p == q
    ensures Legal(w0, tr) && Legal(w0, tr') && After(w0, tr).table == After(w0, tr').table
  {
    assert DrainsTo(w0, tr, f, "") && DrainsTo(w0, tr', f, "");
    forall u ensures Lookup(After(w0, tr).table, u) == Lookup(After(w0, tr').table, u) {
      assert Agree(f, u);
      AgreeingRunsEndAlike(w0, tr, tr', f, u);
    }
    SameRowsSameTable(After(w0, tr).table, After(w0, tr').table);
  }
}
