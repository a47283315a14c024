/** JSON objects: values are kept as raw text, as json.RawMessage does, and decoded one by one. */
module Json {
  import opened Model
  import opened Text

  datatype Member = Member(key: string, raw: string)

  // ---------- Reading (RFC 8259) ----------

  predicate IsSpace(c: char) {
    c == ' ' || c == '\t' || c == '\n' || c == '\r'
  }

  function SkipSpaces(t: string): (r: string)
    ensures |r| <= |t|
  {
    if t != "" && IsSpace(t[0]) then SkipSpaces(t[1..]) else t
  }

  function SkipDigits(t: string): (r: string)
    ensures |r| <= |t|
  {
    if t != "" && IsDigit(t[0]) then SkipDigits(t[1..]) else t
  }

  predicate StartsDigit(t: string) {
    t != "" && IsDigit(t[0])
  }

  function SkipFraction(t: string): (r: Option<string>)
    ensures r.Some? ==> |r.value| <= |t|
  {
    if t == "" || t[0] != '.' then Some(t)
    else if StartsDigit(t[1..]) then Some(SkipDigits(t[1..])) else None
  }

  function SkipExponent(t: string): (r: Option<string>)
    ensures r.Some? ==> |r.value| <= |t|
  {
    if t == "" || (t[0] != 'e' && t[0] != 'E') then Some(t) else
      var u := if |t| > 1 && (t[1] == '+' || t[1] == '-') then t[2..] else t[1..];
      if StartsDigit(u) then Some(SkipDigits(u)) else None
  }

  function SkipUnsigned(u: string): (r: Option<string>)
    ensures r.Some? ==> |r.value| < |u|
  {
    if !StartsDigit(u) then None else
      var v := SkipFraction(if u[0] == '0' then u[1..] else SkipDigits(u[1..]));
      if v.None? then None else SkipExponent(v.value)
  }

  /** What follows a number literal. */
  function SkipNumber(t: string): (r: Option<string>)
    ensures r.Some? ==> |r.value| < |t|
  {
    if t != "" && t[0] == '-' then SkipUnsigned(t[1..]) else SkipUnsigned(t)
  }

  /** What follows a value. */
  function SkipValue(t: string): (r: Option<string>)
    ensures r.Some? ==> |r.value| < |t|
    decreases |t|, 2
  {
    if t == "" then None
    else if t[0] == '"' then
      var r := Unescape(t[1..]);
      if r.Fail? then None else Some(r.rest)
    else if t[0] == '{' then
      var r := ReadObject(t);
      if r.Fail? then None else Some(r.rest)
    else if t[0] == '[' then SkipArray(t)
    else if "true" <= t || "null" <= t then Some(t[4..])
    else if "false" <= t then Some(t[5..])
    else SkipNumber(t)
  }

  function SkipArray(t: string): (r: Option<string>)
    requires t != "" && t[0] == '['
    ensures r.Some? ==> |r.value| < |t|
    decreases |t|, 1
  {
    var u := SkipSpaces(t[1..]);
    if u != "" && u[0] == ']' then Some(u[1..]) else SkipElements(u)
  }

  function SkipElements(t: string): (r: Option<string>)
    ensures r.Some? ==> |r.value| < |t|
    decreases |t|, 3
  {
    var v := SkipValue(t);
    if v.None? then None else
      var u := SkipSpaces(v.value);
      if u == "" then None
      else if u[0] == ']' then Some(u[1..])
      else if u[0] == ',' then SkipElements(SkipSpaces(u[1..]))
      else None
  }

  /** An object as its members, values raw. */
  function ReadObject(t: string): (r: Scan<seq<Member>>)
    requires t != "" && t[0] == '{'
    ensures r.Got? ==> |r.rest| < |t|
    decreases |t|, 1
  {
    var u := SkipSpaces(t[1..]);
    if u != "" && u[0] == '}' then Got([], u[1..]) else ReadMembers(u)
  }

  function ReadMembers(t: string): (r: Scan<seq<Member>>)
    ensures r.Got? ==> |r.rest| < |t|
    decreases |t|, 4
  {
    var m := ReadMember(t);
    if m.Fail? then Fail else
      var x := SkipSpaces(m.rest);
      if x == "" then Fail
      else if x[0] == '}' then Got([m.value], x[1..])
      else if x[0] != ',' then Fail
      else
        var more := ReadMembers(SkipSpaces(x[1..]));
        if more.Fail? then Fail else Got([m.value] + more.value, more.rest)
  }

  function ReadMember(t: string): (r: Scan<Member>)
    ensures r.Got? ==> |r.rest| < |t|
    decreases |t|, 3
  {
    if t == "" || t[0] != '"' then Fail else
      var key := Unescape(t[1..]);
      if key.Fail? then Fail else
        var u := SkipSpaces(key.rest);
        if u == "" || u[0] != ':' then Fail else
          var v := SkipSpaces(u[1..]);
          var after := SkipValue(v);
          if after.None? then Fail else Got(Member(key.value, v[..|v| - |after.value|]), after.value)
  }

  /** json.Unmarshal of a whole text that must be one object. */
  function ParseObject(t: string): Option<seq<Member>> {
    var u := SkipSpaces(t);
    if u == "" || u[0] != '{' then None else
      var r := ReadObject(u);
      if r.Got? && SkipSpaces(r.rest) == "" then Some(r.value) else None
  }

  // ---------- Writing ----------

  function MemberText(m: Member): string {
    Quote(m.key) + ":" + m.raw
  }

  function MembersText(ms: seq<Member>): string
    requires ms != []
  {
    if |ms| == 1 then MemberText(ms[0]) else MemberText(ms[0]) + "," + MembersText(ms[1..])
  }

  function ObjectText(ms: seq<Member>): string
    requires ms != []
  {
    "{" + MembersText(ms) + "}"
  }

  // ---------- What is written is read back ----------

  /** Text that may follow a value inside an object or array or at the end. */
  predicate Delimits(t: string) {
    t == "" || t[0] == ',' || t[0] == '}' || t[0] == ']' || IsSpace(t[0])
  }

  /** `v` is the text of one value, whatever follows. */
  ghost predicate IsValue(v: string) {
    && v != "" && !IsSpace(v[0])
    && forall rest :: Delimits(rest) ==> SkipValue(v + rest) == Some(rest)
  }

  lemma AfterQuote(e: string, rest: string)
    ensures ("\"" + e + "\"" + rest)[1..] == e + "\"" + rest
    ensures ("\"" + e + "\"" + rest)[0] == '"'
  {
  }

  lemma QuoteSkipped(s: string, rest: string)
    ensures SkipValue(Quote(s) + rest) == Some(rest)
  {
    StringRoundTrip(s, rest);
    AfterQuote(Escape(s), rest);
  }

  lemma QuotedIsValue(s: string)
    ensures IsValue(Quote(s))
  {
    forall rest | Delimits(rest) ensures SkipValue(Quote(s) + rest) == Some(rest) { QuoteSkipped(s, rest); }
  }

  lemma {:induction false} DigitsSkipped(t: string, rest: string)
    requires AllDigits(t) && (rest == "" || !IsDigit(rest[0]))
    ensures SkipDigits(t + rest) == rest
  {
    if t == "" {
      assert t + rest == rest;
    } else {
      DigitsSkipped(t[1..], rest);
      assert (t + rest)[1..] == t[1..] + rest;
    }
  }

  lemma DelimiterEndsNumber(c: char)
    requires Delimits([c])
    ensures !IsDigit(c) && c != '.' && c != 'e' && c != 'E'
  {
  }

  lemma DigitsAreUnsigned(n: nat, rest: string)
    requires Delimits(rest)
    ensures SkipUnsigned(Digits(n) + rest) == Some(rest) && IsDigit(Digits(n)[0])
  {
    var d := Digits(n);
    DigitsValue(n);
    if rest != "" { DelimiterEndsNumber(rest[0]); }
    assert (d + rest)[1..] == d[1..] + rest;
    assert AllDigits(d[1..]);
    DigitsSkipped(d[1..], rest);
    if d[0] == '0' {
      assert d == "0" && d[1..] + rest == rest;
    }
  }

  lemma NegativeSkipped(d: string, rest: string)
    requires SkipUnsigned(d + rest) == Some(rest)
    ensures SkipNumber("-" + d + rest) == Some(rest)
  {
    assert ("-" + d + rest)[1..] == d + rest;
  }

  lemma PositiveSkipped(d: string, rest: string)
    requires d != "" && d[0] != '-' && SkipUnsigned(d + rest) == Some(rest)
    ensures SkipNumber(d + rest) == Some(rest)
  {
    assert (d + rest)[0] == d[0];
  }

  lemma IntSkipped(n: int, rest: string)
    requires Delimits(rest)
    ensures SkipNumber(IntText(n) + rest) == Some(rest)
    ensures IntText(n)[0] == '-' || IsDigit(IntText(n)[0])
  {
    DigitsAreUnsigned(if n < 0 then -n else n, rest);
    if n < 0 { NegativeSkipped(Digits(-n), rest); } else { PositiveSkipped(Digits(n), rest); }
  }

  lemma NotALiteral(t: string, literal: string)
    requires t != "" && literal != "" && t[0] != literal[0]
    ensures !(literal <= t)
  {
  }

  lemma NumberIsSkipped(t: string)
    requires t != "" && (t[0] == '-' || IsDigit(t[0]))
    ensures SkipValue(t) == SkipNumber(t)
  {
    NotALiteral(t, "true");
    NotALiteral(t, "null");
    NotALiteral(t, "false");
  }

  lemma IntIsValue(n: int)
    ensures IsValue(IntText(n))
  {
    forall rest | Delimits(rest) ensures SkipValue(IntText(n) + rest) == Some(rest) {
      IntSkipped(n, rest);
      assert (IntText(n) + rest)[0] == IntText(n)[0];
      NumberIsSkipped(IntText(n) + rest);
    }
    IntSkipped(n, "");
  }

  lemma KeyRead(m: Member, rest: string)
    ensures var t := MemberText(m) + rest;
            t != "" && t[0] == '"' && Unescape(t[1..]) == Got(m.key, ":" + m.raw + rest)
  {
    var t := MemberText(m) + rest;
    assert t[1..] == Escape(m.key) + "\"" + (":" + m.raw + rest);
    StringRoundTrip(m.key, ":" + m.raw + rest);
  }

  lemma ColonRead(raw: string, rest: string)
    requires IsValue(raw)
    ensures var u := ":" + raw + rest;
            u != "" && u[0] == ':' && SkipSpaces(u) == u && SkipSpaces(u[1..]) == raw + rest
    ensures (raw + rest)[..|raw|] == raw
  {
    assert (":" + raw + rest)[1..] == raw + rest;
  }

  lemma MemberRead(m: Member, rest: string)
    requires IsValue(m.raw) && Delimits(rest)
    ensures ReadMember(MemberText(m) + rest) == Got(m, rest)
  {
    KeyRead(m, rest);
    ColonRead(m.raw, rest);
  }

  lemma LastMemberRead(m: Member, rest: string)
    requires IsValue(m.raw)
    ensures ReadMembers(MemberText(m) + ("}" + rest)) == Got([m], rest)
  {
    MemberRead(m, "}" + rest);
    assert ("}" + rest)[1..] == rest && SkipSpaces("}" + rest) == "}" + rest;
  }

  lemma NextMemberRead(m: Member, more: string, ms: seq<Member>, rest: string)
    requires IsValue(m.raw) && more != "" && !IsSpace(more[0]) && ReadMembers(more) == Got(ms, rest)
    ensures ReadMembers(MemberText(m) + ("," + more)) == Got([m] + ms, rest)
  {
    MemberRead(m, "," + more);
    assert ("," + more)[1..] == more && SkipSpaces(more) == more && SkipSpaces("," + more) == "," + more;
  }

  ghost predicate AllValues(ms: seq<Member>) {
    forall i :: 0 <= i < |ms| ==> IsValue(ms[i].raw)
  }

  lemma Regrouped(a: string, b: string, c: string, d: string)
    ensures a + b + c + d == a + (b + (c + d))
  {
  }

  lemma MembersTextStep(ms: seq<Member>, rest: string)
    requires |ms| > 1
    ensures MembersText(ms) + rest == MemberText(ms[0]) + ("," + (MembersText(ms[1..]) + rest))
  {
    Regrouped(MemberText(ms[0]), ",", MembersText(ms[1..]), rest);
  }

  lemma {:induction false} MembersRead(ms: seq<Member>, rest: string)
    requires ms != [] && AllValues(ms)
    ensures ReadMembers(MembersText(ms) + ("}" + rest)) == Got(ms, rest)
  {
    var m := ms[0];
    if |ms| == 1 {
      LastMemberRead(m, rest);
      assert ms == [m];
    } else {
      var more := MembersText(ms[1..]) + ("}" + rest);
      MembersRead(ms[1..], rest);
      StartsWithQuote(ms[1..], "}" + rest);
      NextMemberRead(m, more, ms[1..], rest);
      MembersTextStep(ms, "}" + rest);
      assert ms == [m] + ms[1..];
    }
  }

  lemma StartsWithQuote(ms: seq<Member>, rest: string)
    requires ms != []
    ensures (MembersText(ms) + rest)[0] == '"'
  {
  }

  lemma ObjectRead(ms: seq<Member>, rest: string)
    requires ms != [] && AllValues(ms)
    ensures ReadObject(ObjectText(ms) + rest) == Got(ms, rest)
  {
    var t := ObjectText(ms) + rest;
    assert t[1..] == MembersText(ms) + ("}" + rest);
    StartsWithQuote(ms, "}" + rest);
    MembersRead(ms, rest);
  }

  lemma ObjectIsValue(ms: seq<Member>)
    requires ms != [] && AllValues(ms)
    ensures IsValue(ObjectText(ms))
  {
    forall rest | Delimits(rest) ensures SkipValue(ObjectText(ms) + rest) == Some(rest) { ObjectRead(ms, rest); }
  }

  /** An object written from any members whose raw texts are values reads back as those members. */
  lemma ObjectRoundTrip(ms: seq<Member>)
    requires ms != [] && AllValues(ms)
    ensures ParseObject(ObjectText(ms)) == Some(ms)
  {
    ObjectRead(ms, "");
    assert ObjectText(ms) + "" == ObjectText(ms);
  }
}
