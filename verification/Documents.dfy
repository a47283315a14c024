/** What the codec writes, character for character, and what it refuses or puts up with. */
module Documents {
  import opened Model
  import opened Text
  import opened Json
  import opened Event

  // ---------- Strings ----------

  /** A character stands for itself exactly if JSON and HTML leave it alone. */
  lemma OnlyTheseAreEscaped(c: char)
    ensures EscapeChar(c) == [c] <==>
            !(c as int < 32 || c as int in {34, 38, 60, 62, 92, 0x2028, 0x2029})
    ensures |EscapeChar(c)| == 1 || (EscapeChar(c)[0] == '\\' && |EscapeChar(c)| in {2, 6})
    ensures |EscapeChar(c)| == 2 <==> c as int in {8, 9, 10, 12, 13, 34, 92}
  {
  }

  /** The hexadecimal digits are written in lower case and read in either. */
  lemma HexDigitsAre(c: char)
    ensures HexValue(c).Some? <==> c in "0123456789abcdefABCDEF"
    ensures 'a' <= c <= 'f' ==> HexValue(c) == HexValue(c - 32 as char) == Some(c as int - 87)
    ensures (forall n :: 0 <= n < 16 ==> HexDigit(n) in "0123456789abcdef")
  {
    assert "0123456789abcdefABCDEF" == "0123456789abcdef" + "ABCDEF";
  }

  lemma EscapesWrittenOut()
    ensures Escape("<") == "\\u003c" && Escape(">") == "\\u003e" && Escape("&") == "\\u0026"
    ensures EscapeChar(0x1F as char) == "\\u001f" && EscapeChar(0x2028 as char) == "\\u2028"
  {
    assert EscapeChar('<') == EscapeChar(0x3C as char) && EscapeChar('>') == EscapeChar(0x3E as char);
    assert EscapeChar('&') == EscapeChar(0x26 as char);
  }

  /** A raw control character cannot be part of a string. */
  lemma {:induction false} ControlsAreRefused(s: string, c: char, t: string)
    requires c < ' ' && forall i :: 0 <= i < |s| ==> s[i] >= ' ' && s[i] != '"' && s[i] != '\\'
    ensures Unescape(s + [c] + t) == Fail
  {
    if s != "" {
      ControlsAreRefused(s[1..], c, t);
      assert (s + [c] + t)[1..] == s[1..] + [c] + t;
    }
  }

  /** A string must be closed. */
  lemma {:induction false} OpenStringsAreRefused(s: string)
    requires forall i :: 0 <= i < |s| ==> s[i] >= ' ' && s[i] != '"' && s[i] != '\\'
    ensures Unescape(s) == Fail
  {
    if s != "" { OpenStringsAreRefused(s[1..]); }
  }

  lemma ShortEscapes(t: string)
    ensures Unescape("\\/" + t) == Prepend('/', Unescape(t)) && Unescape("\\b" + t) == Prepend(8 as char, Unescape(t))
    ensures Unescape("\\f" + t) == Prepend(12 as char, Unescape(t)) && Unescape("\\x" + t) == Fail
  {
    assert ("\\/" + t)[2..] == t && ("\\b" + t)[2..] == t && ("\\f" + t)[2..] == t;
    assert ("\\x" + t)[1] == 'x';
  }

  /** Two halves of a pair make one character, and half a pair is replaced. */
  lemma PairsAreJoined(hi: int, lo: int, t: string)
    requires 0xD800 <= hi < 0xDC00 && 0xDC00 <= lo < 0xE000
    ensures ReadUnicode("\\u" + Hex4(hi) + "\\u" + Hex4(lo) + t) ==
            Some((((hi - 0xD800) * 1024 + (lo - 0xDC00) + 65536) as char, 12))
  {
    var u := "\\u" + Hex4(hi) + "\\u" + Hex4(lo) + t;
    assert u[2..] == Hex4(hi) + ("\\u" + Hex4(lo) + t) && u[8..] == Hex4(lo) + t;
    HexRoundTrip(hi, "\\u" + Hex4(lo) + t);
    HexRoundTrip(lo, t);
  }

  lemma HalvesAreReplaced(half: int, t: string)
    requires Surrogate(half) && (t == "" || t[0] != '\\')
    ensures ReadUnicode("\\u" + Hex4(half) + t) == Some((0xFFFD as char, 6))
  {
    var u := "\\u" + Hex4(half) + t;
    assert u[2..] == Hex4(half) + t;
    HexRoundTrip(half, t);
    if t != "" { assert u[6] == t[0]; }
  }

  // ---------- Numbers ----------

  predicate StandsFor(t: string, n: int) {
    t == IntText(n) || (n == 0 && t == "-0")
  }

  /** Leading zeros, fractions and signs other than minus make no integer. */
  lemma IntegersArePlain(t: string)
    ensures ParseInt(t).Some? <==> exists n :: StandsFor(t, n)
  {
    if ParseInt(t).Some? {
      IntegerStandsFor(t);
    } else {
      forall n ensures !StandsFor(t, n) { IntRoundTrip(n); MinusZero(); }
    }
  }

  lemma IntegerStandsFor(t: string)
    requires ParseInt(t).Some?
    ensures StandsFor(t, ParseInt(t).value)
  {
    if t[0] == '-' {
      DigitsOfValue(t[1..]);
      assert t == "-" + t[1..];
    } else {
      DigitsOfValue(t);
    }
  }

  lemma MinusZero()
    ensures ParseInt("-0") == Some(0)
  {
    assert "-0"[1..] == "0" && NatValue("0") == 0;
  }

  /** Digits without a leading zero are the digits of their value. */
  lemma {:induction false} DigitsOfValue(t: string)
    requires t != "" && AllDigits(t) && (t[0] == '0' ==> |t| == 1)
    ensures Digits(NatValue(t)) == t && (NatValue(t) == 0 <==> t == "0")
  {
    var init, c := t[..|t| - 1], t[|t| - 1];
    assert IsDigit(c) && t == init + [c];
    if init == "" {
      assert NatValue(t) == (c - '0') as int;
    } else {
      DigitsOfValue(init);
      assert init != "0";
      var n, digit := NatValue(init), (c - '0') as int;
      assert (n * 10 + digit) / 10 == n && (n * 10 + digit) % 10 == digit;
    }
  }

  // ---------- Objects ----------

  /** Nothing but spaces may follow a document, and anything else makes it unreadable. */
  lemma TrailingText(ms: seq<Member>, rest: string)
    requires ms != [] && AllValues(ms)
    ensures ParseObject(ObjectText(ms) + rest) == if SkipSpaces(rest) == "" then Some(ms) else None
  {
    ObjectRead(ms, rest);
    assert (ObjectText(ms) + rest)[0] == '{';
  }

  /** A document that does not begin as an object is refused. */
  lemma OnlyObjects(t: string)
    requires SkipSpaces(t) == "" || SkipSpaces(t)[0] != '{'
    ensures Unmarshal(t) == None && ParseEnvelope(t) == None && Decode(t) == None
  {
  }

  lemma EmptyObject()
    ensures ParseObject("{}") == Some([])
  {
    assert "{}"[1..] == "}" && "}"[1..] == "";
  }

  /** Fields that are missing keep their zero values, the time that of year 1. */
  lemma MissingFieldsAreZero()
    ensures Unmarshal("{}") == Some(Session("", "", 0, "", "", 31_622_400 * SECOND))
    ensures ParseEnvelope("{}") == Some(Envelope("", 0, 31_622_400 * SECOND, "")) && Decode("{}") == None
  {
    EmptyObject();
  }

  /** So do fields that are null, and nothing else stands for nothing. */
  lemma NullsAreZero(raw: string)
    ensures raw == "null" ==>
              StringOf(Some(raw)) == Some("") && IntOf(Some(raw)) == Some(0) && TimeOf(Some(raw)) == TimeOf(None)
    ensures raw != "null" && StringOf(Some(raw)).Some? ==> raw != "" && raw[0] == '"'
    ensures raw != "null" && IntOf(Some(raw)).Some? ==> ParseInt(raw) == IntOf(Some(raw))
    ensures raw != "null" && TimeOf(Some(raw)).Some? ==> |raw| >= 2 && raw[0] == '"' == raw[|raw| - 1]
  {
  }

  /** A string is one literal. */
  lemma OneLiteral(x: string, t: string)
    ensures StringOf(Some(Quote(x) + t)) == if t == "" then Some(x) else None
  {
    StringRoundTrip(x, t);
    AfterQuote(Escape(x), t);
    LiteralIs(Quote(x) + t, x, t);
  }

  lemma LiteralIs(raw: string, x: string, t: string)
    requires raw != "" && raw[0] == '"' && Unescape(raw[1..]) == Got(x, t)
    ensures StringOf(Some(raw)) == if t == "" then Some(x) else None
  {
    assert raw != "null";
  }

  lemma {:induction false} LookupAfter(ms: seq<Member>, ms': seq<Member>, key: string)
    ensures Lookup(ms + ms', key) == if Lookup(ms', key).Some? then Lookup(ms', key) else Lookup(ms, key)
  {
    if ms' == [] {
      assert ms + ms' == ms;
    } else {
      assert (ms + ms')[..|ms + ms'| - 1] == ms + ms'[..|ms'| - 1];
      LookupAfter(ms, ms'[..|ms'| - 1], key);
    }
  }

  lemma FieldsAfter(ms: seq<Member>, ms': seq<Member>, s: Session)
    requires Encodable(s.stamp) && HasFields(ms', s)
    ensures HasFields(ms + ms', s)
  {
    LookupAfter(ms, ms', "user_id");
    LookupAfter(ms, ms', "track_id");
    LookupAfter(ms, ms', "position_sec");
    LookupAfter(ms, ms', "status");
    LookupAfter(ms, ms', "device_id");
    LookupAfter(ms, ms', "updated_at");
  }

  lemma ValuesJoin(ms: seq<Member>, ms': seq<Member>)
    requires AllValues(ms) && AllValues(ms')
    ensures AllValues(ms + ms')
  {
  }

  /** Whatever members come first, known or not, the last one of each name counts. */
  lemma LastMembersCount(ms: seq<Member>, ms': seq<Member>, s: Session)
    requires AllValues(ms) && AllValues(ms') && ms' != [] && Encodable(s.stamp) && HasFields(ms', s)
    ensures Unmarshal(ObjectText(ms + ms')) == Some(s)
  {
    ValuesJoin(ms, ms');
    ObjectRoundTrip(ms + ms');
    FieldsAfter(ms, ms', s);
    FieldsDecode(ObjectText(ms + ms'), ms + ms', s);
  }

  /** In particular those that Marshal writes. */
  lemma MarshalledMembersCount(ms: seq<Member>, s: Session)
    requires AllValues(ms) && Encodable(s.stamp)
    ensures Unmarshal(ObjectText(ms + SessionMembers(s))) == Some(s)
  {
    SessionValues(s);
    SessionLookups(s);
    LastMembersCount(ms, SessionMembers(s), s);
  }

  // ---------- Types ----------

  lemma ANumberIsNoString(n: int)
    ensures StringOf(Some(IntText(n))) == None && TimeOf(Some(IntText(n))) == None
  {
    IntSkipped(n, "");
    DigitsValue(if n < 0 then -n else n);
  }

  lemma AStringIsNoNumber(x: string)
    ensures IntOf(Some(Quote(x))) == None
  {
    assert Quote(x)[0] == '"';
  }

  /** A time must be quoted and be a timestamp. */
  lemma AnyStringIsNoTime(x: string)
    requires ParseTime(x).None?
    ensures TimeOf(Some("\"" + x + "\"")) == None
  {
    var raw := "\"" + x + "\"";
    assert raw[1..|raw| - 1] == x;
  }

  /** One field of the wrong type makes the whole document unreadable. */
  lemma SessionsAreTyped(t: string, ms: seq<Member>)
    requires ParseObject(t) == Some(ms)
    ensures Unmarshal(t).Some? <==>
            && StringOf(Lookup(ms, "user_id")).Some? && StringOf(Lookup(ms, "track_id")).Some?
            && IntOf(Lookup(ms, "position_sec")).Some? && StringOf(Lookup(ms, "status")).Some?
            && StringOf(Lookup(ms, "device_id")).Some? && TimeOf(Lookup(ms, "updated_at")).Some?
  {
  }

  lemma EnvelopesAreTyped(t: string, ms: seq<Member>)
    requires ParseObject(t) == Some(ms)
    ensures ParseEnvelope(t).Some? <==>
            && StringOf(Lookup(ms, "type")).Some? && IntOf(Lookup(ms, "version")).Some?
            && TimeOf(Lookup(ms, "timestamp")).Some?
  {
  }

  // ---------- The text of a session ----------

  /** Members follow each other with a comma and nothing else between them. */
  lemma {:induction false} MembersAreJoined(ms: seq<Member>, m: Member)
    ensures MembersText([m]) == "\"" + Escape(m.key) + "\":" + m.raw
    ensures ms != [] ==> MembersText(ms + [m]) == MembersText(ms) + ",\"" + Escape(m.key) + "\":" + m.raw
  {
    assert MembersText([m]) == MemberText(m) == "\"" + Escape(m.key) + "\":" + m.raw;
    if |ms| == 1 {
      assert (ms + [m])[1..] == [m];
      Joined(MemberText(ms[0]), Escape(m.key), m.raw);
    } else if ms != [] {
      assert (ms + [m])[1..] == ms[1..] + [m] && (ms + [m])[0] == ms[0];
      MembersAreJoined(ms[1..], m);
      JoinedLater(MemberText(ms[0]), MembersText(ms[1..]), Escape(m.key), m.raw);
    }
  }

  lemma Joined(a: string, key: string, raw: string)
    ensures a + "," + ("\"" + key + "\":" + raw) == a + ",\"" + key + "\":" + raw
  {
  }

  lemma JoinedLater(a: string, b: string, key: string, raw: string)
    ensures a + "," + (b + ",\"" + key + "\":" + raw) == a + "," + b + ",\"" + key + "\":" + raw
  {
  }

  /** The members of a session, in the order of the Go struct. */
  lemma SessionText(s: Session)
    requires Encodable(s.stamp)
    ensures Marshal(s) == Some("{" + MembersText(
              [Member("user_id", Quote(s.user)), Member("track_id", Quote(s.track)),
               Member("position_sec", IntText(s.position)), Member("status", Quote(s.status)),
               Member("device_id", Quote(s.device)), Member("updated_at", Quote(TimeText(s.stamp)))]) + "}")
  {
    PlainTime(s.stamp);
    PlainIsUnescaped(TimeText(s.stamp));
  }
  /** An envelope has four members, the last of them the session's own text, unquoted. */
  lemma EnvelopeText(kind: string, version: int, s: Session, now: int)
    requires Encodable(s.stamp) && Encodable(now)
    ensures NewEnvelope(kind, version, s, now) == Some("{" + MembersText(
              [Member("type", Quote(kind)), Member("version", IntText(version)),
               Member("timestamp", Quote(TimeText(now))), Member("payload", Marshal(s).value)]) + "}")
  {
    PlainTime(now);
    PlainIsUnescaped(TimeText(now));
  }
}
