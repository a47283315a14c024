/** What a Pause or Resume does to the last write when it has to read the table. */
module Undo {
  import opened Model
  import opened Machine
  import opened Frames
  import opened Requests
  import opened Regression
  import opened LastWrite
  import opened Degraded
  import opened SingleCell

  predicate Mutating(pc: Pc) {
    pc.SetStatus? || pc.SetDevice? || pc.SetStamp? || pc.ModUpsert? || pc.ModCache?
  }

  predicate Finishing(pc: Pc) {
    pc.ModUpsert? || pc.ModCache? || pc.Done?
  }

  /** The Pause or Resume has read `s` and is changing it, or has done so. */
  predicate CarriesOn(c: Call, s: Session) {
    && Changes(c.op)
    && if c.pc.Done? then c.obj.Some? && c.obj.value == Changed(s, c.op, c.obj.value.stamp)
       else Mutating(c.pc) && OnItsWay(c, Some(s))
  }

  lemma CarriesOnStep(w: World, st: Step, id: nat, s: Session)
    requires Enabled(w, st) && id in w.calls && CarriesOn(w.calls[id], s)
    ensures id in Apply(w, st).calls && CarriesOn(Apply(w, st).calls[id], s)
  {
    CallsAfter(w, st, id);
    if By(st, id) && st.Assign? { assert Mutating(w.calls[id].pc); }
  }

  lemma {:induction false} AlwaysCarriesOn(w: World, tr: seq<Step>, id: nat, s: Session)
    requires Legal(w, tr) && id in w.calls && CarriesOn(w.calls[id], s)
    ensures id in After(w, tr).calls && CarriesOn(After(w, tr).calls[id], s)
  {
    if tr != [] {
      AlwaysCarriesOn(w, tr[..|tr| - 1], id, s);
      CarriesOnStep(After(w, tr[..|tr| - 1]), tr[|tr| - 1], id, s);
    }
  }

  predicate SamePlace(s: Session, t: Session) {
    s.user == t.user && s.track == t.track && s.position == t.position
  }

  /** The request, a Pause or Resume of `u`, gets through to the table and finds a row. */
  predicate FallsBack(w: World, id: nat, u: string) {
    Enabled(w, TableGet(id, true)) && w.calls[id].op.user == u && Changes(w.calls[id].op) && u in w.table
  }

  /** The request has changed the row `read`, which is the last accepted write if and only if that
      was current, and an older session otherwise; so a current write keeps its place. */
  predicate BuildsOnLastIff(c: Call, read: Session, last: Write, current: bool) {
    && Changes(c.op) && c.obj.Some? && c.obj.value == Changed(read, c.op, c.obj.value.stamp)
    && (read == Stored(last.s) <==> current)
    && (!current ==> read.stamp < Micro(last.s.stamp))
    && (current ==> SamePlace(c.obj.value, last.s))
  }

  lemma RowAgainstLast(w: World, u: string, last: Write)
    requires Shown(w, u, Some(last)) && u in w.table
    ensures |w.log| == 1 && (Current(w, u, last) <==> w.table[u] == Stored(last.s))
    ensures !Current(w, u, last) ==> w.table[u].stamp < Micro(last.s.stamp)
  {
  }

  lemma PlaceFollows(c: Call, read: Session, last: Write, current: bool)
    requires CarriesOn(c, read) && Finishing(c.pc)
    requires (current <==> read == Stored(last.s)) && (!current ==> read.stamp < Micro(last.s.stamp))
    ensures BuildsOnLastIff(c, read, last, current)
  {
  }

  /** A Pause or Resume that falls back to the table changes the last accepted write if and only
      if that is current in the row at the moment of the read; otherwise it changes an older
      session, and puts that one's track and position over the last write. */
  lemma ChangeBuildsOnLastIff(w0: World, now: int, tr: seq<Step>, w: World, id: nat, u: string, last: Write,
                            tr': seq<Step>, v: World)
    requires w0 == Init(1, now) && Legal(w0, tr) && Always(w0, tr, (w, st) => Steady(w, st, u))
    requires w == After(w0, tr) && FallsBack(w, id, u)
    requires Legal(Apply(w, TableGet(id, true)), tr') && v == After(Apply(w, TableGet(id, true)), tr')
    ensures |w.log| == 1 && id in v.calls
    ensures Latest(w0, tr, u) == Some(last) && Finishing(v.calls[id].pc) ==>
              BuildsOnLastIff(v.calls[id], w.table[u], last, Current(w, u, last))
  {
    AlwaysShown(now, tr, u);
    ReadCarriesOn(w, id, u);
    AlwaysCarriesOn(Apply(w, TableGet(id, true)), tr', id, w.table[u]);
    if Latest(w0, tr, u) == Some(last) && Finishing(v.calls[id].pc) {
      RowAgainstLast(w, u, last);
      PlaceFollows(v.calls[id], w.table[u], last, Current(w, u, last));
    }
  }

  lemma ReadCarriesOn(w: World, id: nat, u: string)
    requires FallsBack(w, id, u)
    ensures var w' := Apply(w, TableGet(id, true)); id in w'.calls && CarriesOn(w'.calls[id], w.table[u])
  {
  }

  /** And that is what it then leaves in the row and in the cache. */
  lemma ChangeIsWritten(v: World, st: Step, id: nat, u: string, read: Session)
    requires Sound(v) && Enabled(v, st) && id in v.calls && v.calls[id].op.user == u && CarriesOn(v.calls[id], read)
    ensures st == Upsert(id, true) && Fits(v.calls[id].obj.value) ==>
              Row(Apply(v, st), u) == Some(Stored(v.calls[id].obj.value))
    ensures st == CacheSet(id, true) && Encodable(v.calls[id].obj.value.stamp) ==>
              CacheHas(Apply(v, st), u, v.calls[id].obj.value)
    ensures v.calls[id].obj.Some? && SamePlace(v.calls[id].obj.value, read)
  {
    TableAfter(v, st);
    CacheAfter(v, st, u);
  }
}
