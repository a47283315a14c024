/** The two layers of a heartbeat event: the session as JSON, inside an envelope as JSON. */
module Event {
  import opened Model
  import opened Text
  import opened Json

  datatype Envelope = Envelope(kind: string, version: int, timestamp: int, payload: string)

  // ---------- Writing ----------

  function SessionMembers(s: Session): seq<Member>
    requires Encodable(s.stamp)
  {
    [Member("user_id", Quote(s.user)), Member("track_id", Quote(s.track)), Member("position_sec", IntText(s.position)),
     Member("status", Quote(s.status)), Member("device_id", Quote(s.device)), Member("updated_at", TimeQuote(s.stamp))]
  }

  /** A timestamp has no characters that need escaping. */
  function TimeQuote(stamp: nat): string {
    "\"" + TimeText(stamp) + "\""
  }

  /** json.Marshal of a session: it fails on a time outside the years 0 to 9999. */
  function Marshal(s: Session): Option<string> {
    if Encodable(s.stamp) then Some(ObjectText(SessionMembers(s))) else None
  }

  function EnvelopeMembers(e: Envelope): seq<Member>
    requires Encodable(e.timestamp)
  {
    [Member("type", Quote(e.kind)), Member("version", IntText(e.version)),
     Member("timestamp", TimeQuote(e.timestamp)), Member("payload", e.payload)]
  }

  /** `now` is the reading of the clock for the envelope's own timestamp. */
  function NewEnvelope(kind: string, version: int, s: Session, now: int): Option<string> {
    var raw := Marshal(s);
    if raw.None? || !Encodable(now) then None
    else Some(ObjectText(EnvelopeMembers(Envelope(kind, version, now, raw.value))))
  }

  // ---------- Reading ----------

  /** The raw text of the last member with the key. */
  function Lookup(ms: seq<Member>, key: string): Option<string> {
    if ms == [] then None
    else if ms[|ms| - 1].key == key then Some(ms[|ms| - 1].raw)
    else Lookup(ms[..|ms| - 1], key)
  }

  /** A field keeps its zero value when the member is missing or null. */
  predicate Absent(raw: Option<string>) {
    raw.None? || raw.value == "null"
  }

  function StringOf(raw: Option<string>): Option<string> {
    if Absent(raw) then Some("")
    else if raw.value == "" || raw.value[0] != '"' then None
    else match Unescape(raw.value[1..])
         case Got(v, rest) => if rest == "" then Some(v) else None
         case Fail => None
  }

  function IntOf(raw: Option<string>): Option<int> {
    if Absent(raw) then Some(0) else ParseInt(raw.value)
  }

  /** The zero time.Time is the first instant of year 1. */
  const ZERO_TIME: int := 366 * DAY

  function TimeOf(raw: Option<string>): Option<int> {
    if Absent(raw) then Some(ZERO_TIME)
    else if |raw.value| < 2 || raw.value[0] != '"' || raw.value[|raw.value| - 1] != '"' then None
    else ParseTime(raw.value[1..|raw.value| - 1])
  }

  /** json.Unmarshal into a PlaybackSession. */
  function Unmarshal(t: string): Option<Session> {
    var ms := ParseObject(t);
    if ms.None? then None else
      var user, track := StringOf(Lookup(ms.value, "user_id")), StringOf(Lookup(ms.value, "track_id"));
      var position, status := IntOf(Lookup(ms.value, "position_sec")), StringOf(Lookup(ms.value, "status"));
      var device, stamp := StringOf(Lookup(ms.value, "device_id")), TimeOf(Lookup(ms.value, "updated_at"));
      if user.None? || track.None? || position.None? || status.None? || device.None? || stamp.None? then None
      else Some(Session(user.value, track.value, position.value, status.value, device.value, stamp.value))
  }

  function ParseEnvelope(t: string): Option<Envelope> {
    var ms := ParseObject(t);
    if ms.None? then None else
      var kind, version := StringOf(Lookup(ms.value, "type")), IntOf(Lookup(ms.value, "version"));
      var timestamp, payload := TimeOf(Lookup(ms.value, "timestamp")), Lookup(ms.value, "payload");
      if kind.None? || version.None? || timestamp.None? then None
      else Some(Envelope(kind.value, version.value, timestamp.value, if payload.None? then "" else payload.value))
  }

  /** What HeartbeatConsumer.handle makes of the bytes of a message. */
  function Decode(t: string): Option<Session> {
    var e := ParseEnvelope(t);
    if e.None? then None else Unmarshal(e.value.payload)
  }

  // ---------- Round trips ----------

  lemma StringOfQuote(s: string)
    ensures IsValue(Quote(s)) && StringOf(Some(Quote(s))) == Some(s)
  {
    QuotedIsValue(s);
    StringRoundTrip(s, "");
    assert Quote(s)[1..] == Escape(s) + "\"" + "";
  }

  lemma IntOfText(n: int)
    ensures IsValue(IntText(n)) && IntOf(Some(IntText(n))) == Some(n)
  {
    IntIsValue(n);
    IntRoundTrip(n);
    DigitsValue(if n < 0 then -n else n);
    assert IntText(n)[0] != 'n';
  }

  predicate TimeChar(c: char) {
    IsDigit(c) || c == '-' || c == 'T' || c == ':' || c == '.' || c == 'Z'
  }

  predicate Plain(t: string) {
    forall i :: 0 <= i < |t| ==> TimeChar(t[i])
  }

  lemma {:induction false} PlainIsUnescaped(t: string)
    requires Plain(t)
    ensures Escape(t) == t
  {
    if t != "" { PlainIsUnescaped(t[1..]); }
  }

  lemma PlainLayout(y: string, m: string, d: string, hh: string, mm: string, ss: string, fraction: string)
    requires Plain(y) && Plain(m) && Plain(d) && Plain(hh) && Plain(mm) && Plain(ss) && Plain(fraction)
    ensures Plain(Layout(y, m, d, hh, mm, ss, fraction))
  {
    var date := y + "-" + m + "-" + d;
    assert Plain(date);
    var time := "T" + hh + ":" + mm + ":" + ss;
    assert Plain(time);
    assert Layout(y, m, d, hh, mm, ss, fraction) == date + time + fraction + "Z";
  }

  lemma {:induction false} PlainPad(n: nat, width: nat)
    ensures Plain(Pad(n, width))
  {
    if width > 0 { PlainPad(n / 10, width - 1); }
  }

  lemma PlainTime(stamp: nat)
    ensures Plain(TimeText(stamp))
  {
    var date, sec := DateOf(stamp / DAY), stamp % DAY / SECOND;
    PlainPad(date.year, 4);
    PlainPad(date.month, 2);
    PlainPad(date.day, 2);
    PlainPad(sec / 3600, 2);
    PlainPad(sec / 60 % 60, 2);
    PlainPad(sec % 60, 2);
    PlainFraction(stamp % SECOND);
    PlainLayout(Pad(date.year, 4), Pad(date.month, 2), Pad(date.day, 2),
                Pad(sec / 3600, 2), Pad(sec / 60 % 60, 2), Pad(sec % 60, 2), FractionText(stamp % SECOND));
  }

  lemma PlainFraction(nanos: nat)
    ensures Plain(FractionText(nanos))
  {
    var p := Pad(nanos, 9);
    PlainPad(nanos, 9);
    TrimmedZeros(p);
    assert forall i :: 0 <= i < |TrimZeros(p)| ==> TrimZeros(p)[i] == p[i];
  }

  lemma TimeOfQuote(stamp: int)
    requires Encodable(stamp)
    ensures IsValue(TimeQuote(stamp)) && TimeOf(Some(TimeQuote(stamp))) == Some(stamp)
  {
    PlainTime(stamp);
    PlainIsUnescaped(TimeText(stamp));
    assert TimeQuote(stamp) == Quote(TimeText(stamp));
    QuotedIsValue(TimeText(stamp));
    TimeRoundTrip(stamp);
    assert TimeQuote(stamp)[1..|TimeQuote(stamp)| - 1] == TimeText(stamp);
  }

  lemma {:induction false} LookupIs(ms: seq<Member>, i: nat, key: string)
    requires key != "" && i < |ms| && ms[i].key == key
    requires forall j :: i < j < |ms| ==> ms[j].key != "" && (|ms[j].key| != |key| || ms[j].key[0] != key[0])
    ensures Lookup(ms, key) == Some(ms[i].raw)
  {
    if i < |ms| - 1 { LookupIs(ms[..|ms| - 1], i, key); }
  }

  /** The last members of the six names have the texts of the fields. */
  predicate HasFields(ms: seq<Member>, s: Session)
    requires Encodable(s.stamp)
  {
    && Lookup(ms, "user_id") == Some(Quote(s.user)) && Lookup(ms, "track_id") == Some(Quote(s.track))
    && Lookup(ms, "position_sec") == Some(IntText(s.position)) && Lookup(ms, "status") == Some(Quote(s.status))
    && Lookup(ms, "device_id") == Some(Quote(s.device)) && Lookup(ms, "updated_at") == Some(TimeQuote(s.stamp))
  }

  lemma SessionLookups(s: Session)
    requires Encodable(s.stamp)
    ensures HasFields(SessionMembers(s), s)
  {
    var ms := SessionMembers(s);
    LookupIs(ms, 0, "user_id");
    LookupIs(ms, 1, "track_id");
    LookupIs(ms, 2, "position_sec");
    LookupIs(ms, 3, "status");
    LookupIs(ms, 4, "device_id");
    LookupIs(ms, 5, "updated_at");
  }

  lemma TimeIsValue(stamp: int)
    requires Encodable(stamp)
    ensures IsValue(TimeQuote(stamp))
  {
    TimeOfQuote(stamp);
  }

  lemma SessionValues(s: Session)
    requires Encodable(s.stamp)
    ensures AllValues(SessionMembers(s))
  {
    QuotedIsValue(s.user);
    QuotedIsValue(s.track);
    IntIsValue(s.position);
    QuotedIsValue(s.status);
    QuotedIsValue(s.device);
    TimeIsValue(s.stamp);
  }

  lemma FieldsDecode(t: string, ms: seq<Member>, s: Session)
    requires Encodable(s.stamp) && ParseObject(t) == Some(ms) && HasFields(ms, s)
    ensures Unmarshal(t) == Some(s)
  {
    StringOfQuote(s.user);
    StringOfQuote(s.track);
    IntOfText(s.position);
    StringOfQuote(s.status);
    StringOfQuote(s.device);
    TimeOfQuote(s.stamp);
  }

  /** The text, if there is one, is one JSON value and unmarshals to the session. */
  ghost predicate Restores(t: Option<string>, s: Session) {
    t.Some? ==> Unmarshal(t.value) == Some(s) && IsValue(t.value)
  }

  /** Any session with a time in the years 0 to 9999 survives json.Marshal and json.Unmarshal,
      field for field; with any other time json.Marshal fails. */
  lemma SessionRoundTrip(s: Session)
    ensures Encodable(s.stamp) <==> Marshal(s).Some?
    ensures Restores(Marshal(s), s)
  {
    if Encodable(s.stamp) {
      SessionValues(s);
      ObjectRoundTrip(SessionMembers(s));
      ObjectIsValue(SessionMembers(s));
      SessionLookups(s);
      FieldsDecode(Marshal(s).value, SessionMembers(s), s);
    }
  }

  lemma EnvelopeLookups(e: Envelope)
    requires Encodable(e.timestamp)
    ensures var ms := EnvelopeMembers(e);
            && Lookup(ms, "type") == Some(Quote(e.kind)) && Lookup(ms, "version") == Some(IntText(e.version))
            && Lookup(ms, "timestamp") == Some(TimeQuote(e.timestamp)) && Lookup(ms, "payload") == Some(e.payload)
  {
    var ms := EnvelopeMembers(e);
    LookupIs(ms, 0, "type");
    LookupIs(ms, 1, "version");
    LookupIs(ms, 2, "timestamp");
    LookupIs(ms, 3, "payload");
  }

  lemma EnvelopeValues(e: Envelope)
    requires Encodable(e.timestamp) && IsValue(e.payload)
    ensures AllValues(EnvelopeMembers(e))
  {
    QuotedIsValue(e.kind);
    IntIsValue(e.version);
    TimeIsValue(e.timestamp);
  }

  lemma EnvelopeDecodes(t: string, e: Envelope)
    requires Encodable(e.timestamp) && ParseObject(t) == Some(EnvelopeMembers(e))
    ensures ParseEnvelope(t) == Some(e)
  {
    EnvelopeLookups(e);
    StringOfQuote(e.kind);
    IntOfText(e.version);
    TimeOfQuote(e.timestamp);
  }

  lemma EnvelopeReadsBack(e: Envelope)
    requires Encodable(e.timestamp) && IsValue(e.payload)
    ensures ParseEnvelope(ObjectText(EnvelopeMembers(e))) == Some(e)
  {
    EnvelopeValues(e);
    ObjectRoundTrip(EnvelopeMembers(e));
    EnvelopeDecodes(ObjectText(EnvelopeMembers(e)), e);
  }

  lemma DecodesThrough(t: string, e: Envelope, s: Session)
    requires ParseEnvelope(t) == Some(e) && Unmarshal(e.payload) == Some(s)
    ensures Decode(t) == Some(s)
  {
  }

  lemma Wraps(kind: string, version: int, s: Session, now: int)
    requires Encodable(s.stamp) && Encodable(now)
    ensures NewEnvelope(kind, version, s, now) ==
            Some(ObjectText(EnvelopeMembers(Envelope(kind, version, now, Marshal(s).value))))
  {
  }

  /** The text, if there is one, parses to an envelope with the payload byte for byte, and
      decodes to the session. */
  ghost predicate Unwraps(t: Option<string>, kind: string, version: int, s: Session, now: int) {
    t.Some? ==> Marshal(s).Some? && ParseEnvelope(t.value) == Some(Envelope(kind, version, now, Marshal(s).value)) &&
                Decode(t.value) == Some(s)
  }

  /** The envelope of any session is restored, and so is the session in it; the envelope cannot
      be built exactly when one of the two times does not encode. */
  lemma EnvelopeRoundTrip(kind: string, version: int, s: Session, now: int)
    ensures NewEnvelope(kind, version, s, now).Some? <==> Encodable(s.stamp) && Encodable(now)
    ensures Unwraps(NewEnvelope(kind, version, s, now), kind, version, s, now)
  {
    SessionRoundTrip(s);
    if Encodable(s.stamp) && Encodable(now) {
      var e := Envelope(kind, version, now, Marshal(s).value);
      Wraps(kind, version, s, now);
      EnvelopeReadsBack(e);
      DecodesThrough(NewEnvelope(kind, version, s, now).value, e, s);
    }
  }

  /** The part of it that the consumer relies on. */
  lemma EventDecodes(kind: string, version: int, s: Session, now: int)
    ensures NewEnvelope(kind, version, s, now).Some? <==> Encodable(s.stamp) && Encodable(now)
    ensures Encodable(s.stamp) && Encodable(now) ==> Decode(NewEnvelope(kind, version, s, now).value) == Some(s)
  {
    EnvelopeRoundTrip(kind, version, s, now);
  }
}
