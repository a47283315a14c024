/**
  The stores as the Go code sees them, holding rows and text, and the ghost record of the steps
  taken on them. `Valid` says that the record is a legal run of the step system and that the
  stores hold what the run leaves there.
 */
module Backend {
  import opened Model
  import opened Machine
  import opened Frames
  import opened Event

  class Postgres {
    var rows: map<string, Session>

    constructor ()
      ensures rows == map[]
    {
      rows := map[];
    }
  }

  datatype Value = Value(data: string, expiry: int)

  class Redis {
    var values: map<string, Value>

    constructor ()
      ensures values == map[]
    {
      values := map[];
    }
  }

  /** A partition of the topic with the reader's position and the group's committed offset. */
  datatype Topic = Topic(texts: seq<string>, fetched: nat, committed: nat)

  class Broker {
    var topics: seq<Topic>

    constructor (partitions: nat)
      ensures topics == seq(partitions, _ => Topic([], 0, 0))
    {
      topics := seq(partitions, _ => Topic([], 0, 0));
    }
  }

  class Clock {
    var now: int

    constructor (start: int)
      ensures now == start
    {
      now := start;
    }
  }

  /** Which store calls of a request get through, and the partition its event is sent to. */
  datatype Outcomes = Outcomes(cacheRead: bool, tableRead: bool, tableWrite: bool, cacheWrite: bool, sent: Option<nat>)

  // ---------- What the text in the stores stands for ----------

  ghost predicate Holds(data: string, c: Content) {
    Unmarshal(data) == if c.Good? then Some(c.s) else None
  }

  ghost predicate Carries(text: string, m: Message) {
    Decode(text) == if m.Beat? then Some(m.s) else None
  }

  ghost predicate CacheLinked(values: map<string, Value>, cache: map<string, Entry>) {
    && values.Keys == cache.Keys
    && forall k :: k in cache ==> values[k].expiry == cache[k].expiry && Holds(values[k].data, cache[k].content)
  }

  ghost predicate PartLinked(topic: Topic, part: Partition) {
    && topic.fetched == part.fetched && topic.committed == part.committed && |topic.texts| == |part.msgs|
    && forall i :: 0 <= i < |part.msgs| ==> Carries(topic.texts[i], part.msgs[i])
  }

  ghost predicate LogLinked(topics: seq<Topic>, log: seq<Partition>) {
    |topics| == |log| && forall p :: 0 <= p < |log| ==> PartLinked(topics[p], log[p])
  }

  lemma LinkAppends(topics: seq<Topic>, log: seq<Partition>, where: Option<nat>, text: string, m: Message)
    requires LogLinked(topics, log) && Carries(text, m) && (where.Some? ==> where.value < |log|)
    ensures where.Some? ==>
              var p := where.value;
              LogLinked(topics[p := topics[p].(texts := topics[p].texts + [text])],
                  log[p := log[p].(msgs := log[p].msgs + [m])])
  {
  }

  lemma LinkCaches(values: map<string, Value>, cache: map<string, Entry>, u: string, v: Value, e: Entry)
    requires CacheLinked(values, cache) && v.expiry == e.expiry && Holds(v.data, e.content)
    ensures CacheLinked(values[u := v], cache[u := e])
  {
  }

  class System {
    const db: Postgres
    const cache: Redis
    const broker: Broker
    const clock: Clock
    ghost const origin: World
    ghost var world: World
    ghost var trace: seq<Step>

    constructor (partitions: nat, start: int)
      ensures Valid() && fresh(Parts())
      ensures world == Init(partitions, start) && trace == []
    {
      db := new Postgres();
      cache := new Redis();
      broker := new Broker(partitions);
      clock := new Clock(start);
      origin := Init(partitions, start);
      world := Init(partitions, start);
      trace := [];
    }

    ghost function Parts(): set<object> {
      {this, db, cache, broker, clock}
    }

    ghost predicate Recorded()
      reads this
    {
      Legal(origin, trace) && After(origin, trace) == world
    }

    ghost predicate Valid()
      reads Parts()
    {
      && Recorded()
      && world.table == db.rows && world.now == clock.now
      && CacheLinked(cache.values, world.cache) && LogLinked(broker.topics, world.log)
    }

    /** The entry of the user stands for `s` and has the whole TTL ahead of it. */
    ghost predicate Caches(userID: string, s: Session)
      reads cache, clock
    {
      && userID in cache.values && Holds(cache.values[userID].data, Good(s))
      && cache.values[userID].expiry == clock.now + CACHE_TTL
    }

    ghost function NewEntry(s: Session): Entry
      reads clock
    {
      Entry(Good(s), clock.now + CACHE_TTL)
    }

    /** After the steps `tr` request `me` stood as `c`. */
    ghost predicate Stood(tr: seq<Step>, me: nat, c: Call) {
      Legal(origin, tr) && me in After(origin, tr).calls && After(origin, tr).calls[me] == c
    }

    /** Request `me` stood as `c` at some point of the record. */
    ghost predicate Passed(me: nat, c: Call)
      reads this
    {
      exists n :: 0 <= n <= |trace| && Stood(trace[..n], me, c)
    }

    ghost method Record(st: Step)
      requires Recorded() && Enabled(world, st)
      modifies this`world, this`trace
      ensures Recorded() && world == Apply(old(world), st) && trace == old(trace) + [st]
    {
      Extend(origin, trace, st);
      world := Apply(world, st);
      trace := trace + [st];
    }

    /** A step that touches no store. */
    ghost method Note(st: Step)
      requires Valid() && Enabled(world, st)
      requires st.Begin? || st.CacheGet? || st.TableGet? || st.Assign? || st.WarmRead? ||
               (st.Publish? && st.where.None?)
      modifies this`world, this`trace
      ensures Valid() && world == Apply(old(world), st) && trace == old(trace) + [st]
    {
      Record(st);
    }

    /** Request `me` and its object are as they were, and it took none of the new steps. */
    twostate predicate Others(me: nat)
      reads this
    {
      && old(trace) <= trace && old(world.now) <= world.now && |world.log| == |old(world.log)|
      && (me in world.calls <==> me in old(world.calls))
      && (me in world.calls ==> world.calls[me] == old(world.calls[me]))
      && forall i :: |old(trace)| <= i < |trace| ==> !By(trace[i], me)
    }

    /** Other requests, warms, the consumer and the environment run for a while. Callers know
        only that the record is still that of a legal run, so every interleaving is covered. */
    method Interleave(me: nat)
      requires Valid()
      modifies Parts()
      ensures Valid() && Others(me)
    {
    }
  }
}
