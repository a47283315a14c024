/** JSON as anybody may write it: any white space, any other members, any values. */
module Grammar {
  import opened Model
  import opened Text
  import opened Json
  import opened Event

  predicate AllSpaces(t: string) {
    forall i :: 0 <= i < |t| ==> IsSpace(t[i])
  }

  /** Tab, line feed, carriage return and space (section 2 of RFC 8259). */
  lemma SpacesAre(c: char)
    ensures IsSpace(c) <==> c as int in {9, 10, 13, 32}
  {
  }

  lemma {:induction false} SpacesSkipped(sp: string, t: string)
    requires AllSpaces(sp) && (t == "" || !IsSpace(t[0]))
    ensures SkipSpaces(sp + t) == t
  {
    if sp == "" {
      assert sp + t == t;
    } else {
      SpacesSkipped(sp[1..], t);
      assert (sp + t)[1..] == sp[1..] + t;
    }
  }

  // ---------- Literals and numbers ----------

  lemma LiteralsAreValues()
    ensures IsValue("true") && IsValue("false") && IsValue("null")
  {
    forall rest | Delimits(rest)
      ensures SkipValue("true" + rest) == SkipValue("false" + rest) == SkipValue("null" + rest) == Some(rest)
    {
      assert "true" <= "true" + rest && "null" <= "null" + rest && "false" <= "false" + rest;
      NotALiteral("false" + rest, "true");
      NotALiteral("false" + rest, "null");
    }
  }

  predicate IsWhole(t: string) {
    t != "" && AllDigits(t) && (t[0] == '0' ==> |t| == 1)
  }

  predicate IsFractionPart(t: string) {
    t == "" || (|t| > 1 && t[0] == '.' && AllDigits(t[1..]))
  }

  predicate IsExponent(t: string) {
    t == "" || (|t| > 1 && (t[0] == 'e' || t[0] == 'E') &&
                (AllDigits(t[1..]) || (|t| > 2 && (t[1] == '+' || t[1] == '-') && AllDigits(t[2..]))))
  }

  lemma ExponentSkipped(e: string, rest: string)
    requires IsExponent(e) && Delimits(rest)
    ensures SkipExponent(e + rest) == Some(rest)
  {
    var t := e + rest;
    if e == "" {
      assert t == rest;
    } else if AllDigits(e[1..]) {
      assert t[1..] == e[1..] + rest && IsDigit(e[1..][0]) && t[1] == e[1];
      DigitsSkipped(e[1..], rest);
    } else {
      assert t[2..] == e[2..] + rest && IsDigit(e[2..][0]);
      DigitsSkipped(e[2..], rest);
    }
  }

  lemma FractionSkipped(f: string, rest: string)
    requires IsFractionPart(f) && (rest == "" || (!IsDigit(rest[0]) && rest[0] != '.'))
    ensures SkipFraction(f + rest) == Some(rest)
  {
    var t := f + rest;
    if f == "" {
      assert t == rest;
    } else {
      assert t[1..] == f[1..] + rest && IsDigit(f[1..][0]);
      DigitsSkipped(f[1..], rest);
    }
  }

  lemma WholeSkipped(d: string, rest: string)
    requires IsWhole(d) && (rest == "" || !IsDigit(rest[0]))
    ensures var t := d + rest; StartsDigit(t) && (if t[0] == '0' then t[1..] else SkipDigits(t[1..])) == rest
  {
    assert (d + rest)[1..] == d[1..] + rest;
    DigitsSkipped(d[1..], rest);
    if d[0] == '0' { assert d[1..] + rest == rest; }
  }

  lemma UnsignedSkipped(d: string, f: string, e: string, rest: string)
    requires IsWhole(d) && IsFractionPart(f) && IsExponent(e) && Delimits(rest)
    ensures SkipUnsigned(d + (f + (e + rest))) == Some(rest)
  {
    ExponentSkipped(e, rest);
    FractionSkipped(f, e + rest);
    WholeSkipped(d, f + (e + rest));
  }

  lemma SignSkipped(minus: bool, u: string, rest: string)
    requires StartsDigit(u) && SkipUnsigned(u) == Some(rest)
    ensures SkipValue((if minus then "-" else "") + u) == Some(rest)
  {
    var t := (if minus then "-" else "") + u;
    if minus { assert t[1..] == u; } else { assert t == u; }
    NumberIsSkipped(t);
  }

  /** A number may have a sign, decimals and an exponent. */
  lemma NumbersAreValues(minus: bool, d: string, f: string, e: string)
    requires IsWhole(d) && IsFractionPart(f) && IsExponent(e)
    ensures IsValue((if minus then "-" else "") + (d + f + e))
  {
    var sign := if minus then "-" else "";
    var n := sign + (d + f + e);
    assert n[0] == if minus then '-' else d[0];
    forall rest | Delimits(rest) ensures SkipValue(n + rest) == Some(rest) {
      UnsignedSkipped(d, f, e, rest);
      SignSkipped(minus, d + (f + (e + rest)), rest);
      NumberText(sign, d, f, e, rest);
    }
  }

  lemma NumberText(sign: string, d: string, f: string, e: string, rest: string)
    ensures sign + (d + f + e) + rest == sign + (d + (f + (e + rest)))
  {
  }

  // ---------- Arrays ----------

  /** A value with the white space around it. */
  datatype Item = Item(before: string, raw: string, after: string)

  ghost predicate IsItem(x: Item) {
    AllSpaces(x.before) && IsValue(x.raw) && AllSpaces(x.after)
  }

  function ItemText(x: Item): string {
    x.before + x.raw + x.after
  }

  function ItemsText(xs: seq<Item>): string
    requires xs != []
  {
    if |xs| == 1 then ItemText(xs[0]) else ItemText(xs[0]) + "," + ItemsText(xs[1..])
  }

  ghost predicate AllItems(xs: seq<Item>) {
    forall i :: 0 <= i < |xs| ==> IsItem(xs[i])
  }

  /** An item, read up to what follows it. */
  lemma ItemRead(x: Item, rest: string)
    requires IsItem(x) && rest != "" && Delimits(rest) && !IsSpace(rest[0])
    ensures var t := SkipSpaces(ItemText(x) + rest);
            t == x.raw + (x.after + rest) && SkipValue(t) == Some(x.after + rest) && SkipSpaces(x.after + rest) == rest
  {
    assert ItemText(x) + rest == x.before + (x.raw + (x.after + rest));
    SpacesSkipped(x.before, x.raw + (x.after + rest));
    SpacesSkipped(x.after, rest);
  }

  lemma LastItemRead(x: Item, rest: string)
    requires IsItem(x)
    ensures SkipElements(SkipSpaces(ItemText(x) + ("]" + rest))) == Some(rest)
  {
    ItemRead(x, "]" + rest);
    assert ("]" + rest)[1..] == rest;
  }

  lemma NextItemRead(x: Item, more: string, rest: string)
    requires IsItem(x) && SkipElements(SkipSpaces(more)) == Some(rest)
    ensures SkipElements(SkipSpaces(ItemText(x) + ("," + more))) == Some(rest)
  {
    ItemRead(x, "," + more);
    assert ("," + more)[1..] == more;
  }

  lemma {:induction false} ItemsRead(xs: seq<Item>, rest: string)
    requires xs != [] && AllItems(xs)
    ensures SkipElements(SkipSpaces(ItemsText(xs) + ("]" + rest))) == Some(rest)
  {
    if |xs| == 1 {
      LastItemRead(xs[0], rest);
    } else {
      var more := ItemsText(xs[1..]) + ("]" + rest);
      ItemsRead(xs[1..], rest);
      NextItemRead(xs[0], more, rest);
      Regrouped(ItemText(xs[0]), ",", ItemsText(xs[1..]), "]" + rest);
    }
  }

  lemma ItemBegins(x: Item, rest: string)
    requires IsItem(x)
    ensures SkipSpaces(ItemText(x) + rest) == x.raw + (x.after + rest)
  {
    assert ItemText(x) + rest == x.before + (x.raw + (x.after + rest));
    SpacesSkipped(x.before, x.raw + (x.after + rest));
  }

  lemma ItemsBegin(xs: seq<Item>, rest: string)
    requires xs != [] && AllItems(xs)
    ensures var u := SkipSpaces(ItemsText(xs) + rest); u != "" && u[0] == xs[0].raw[0]
  {
    var tail := if |xs| == 1 then "" else "," + ItemsText(xs[1..]);
    assert ItemsText(xs) + rest == ItemText(xs[0]) + (tail + rest);
    ItemBegins(xs[0], tail + rest);
  }

  lemma NoValueIsABracket(raw: string)
    requires IsValue(raw)
    ensures raw[0] != ']'
  {
    if raw[0] == ']' {
      assert SkipValue(raw + "") == Some("");
      NotALiteral(raw + "", "true");
      NotALiteral(raw + "", "null");
      NotALiteral(raw + "", "false");
      assert false;
    }
  }

  /** Arrays of values, with white space around each of them. */
  lemma ArraysAreValues(xs: seq<Item>)
    requires xs != [] && AllItems(xs)
    ensures IsValue("[" + ItemsText(xs) + "]")
  {
    var v := "[" + ItemsText(xs) + "]";
    NoValueIsABracket(xs[0].raw);
    forall rest | Delimits(rest) ensures SkipValue(v + rest) == Some(rest) {
      assert (v + rest)[1..] == ItemsText(xs) + ("]" + rest);
      ItemsBegin(xs, "]" + rest);
      ItemsRead(xs, rest);
    }
  }

  lemma EmptyArraysAreValues(sp: string)
    requires AllSpaces(sp)
    ensures IsValue("[" + sp + "]")
  {
    var v := "[" + sp + "]";
    forall rest | Delimits(rest) ensures SkipValue(v + rest) == Some(rest) {
      assert (v + rest)[1..] == sp + ("]" + rest) && ("]" + rest)[1..] == rest;
      SpacesSkipped(sp, "]" + rest);
    }
  }

  // ---------- Objects ----------

  /** A member with the white space before its name and before its colon. */
  datatype Field = Field(before: string, key: string, between: string, item: Item)

  ghost predicate IsField(x: Field) {
    AllSpaces(x.before) && AllSpaces(x.between) && IsItem(x.item)
  }

  function FieldText(x: Field): string {
    x.before + (Quote(x.key) + (x.between + (":" + ItemText(x.item))))
  }

  function FieldsText(xs: seq<Field>): string
    requires xs != []
  {
    if |xs| == 1 then FieldText(xs[0]) else FieldText(xs[0]) + "," + FieldsText(xs[1..])
  }

  ghost predicate AllFields(xs: seq<Field>) {
    forall i :: 0 <= i < |xs| ==> IsField(xs[i])
  }

  function MembersOf(xs: seq<Field>): seq<Member> {
    seq(|xs|, i requires 0 <= i < |xs| => Member(xs[i].key, xs[i].item.raw))
  }

  lemma FieldBegins(x: Field, rest: string)
    requires IsField(x)
    ensures SkipSpaces(FieldText(x) + rest) == Quote(x.key) + (x.between + (":" + (ItemText(x.item) + rest)))
  {
    var t := Quote(x.key) + (x.between + (":" + (ItemText(x.item) + rest)));
    assert FieldText(x) + rest == x.before + t;
    SpacesSkipped(x.before, t);
  }

  lemma FieldRead(x: Field, rest: string)
    requires IsField(x) && rest != "" && Delimits(rest) && !IsSpace(rest[0])
    ensures ReadMember(SkipSpaces(FieldText(x) + rest)) == Got(Member(x.key, x.item.raw), x.item.after + rest)
  {
    var v := ItemText(x.item) + rest;
    FieldBegins(x, rest);
    AfterQuote(Escape(x.key), x.between + (":" + v));
    StringRoundTrip(x.key, x.between + (":" + v));
    SpacesSkipped(x.between, ":" + v);
    ItemRead(x.item, rest);
    MemberIs(SkipSpaces(FieldText(x) + rest), x.key, x.between + (":" + v), v, x.item.raw, x.item.after + rest);
  }

  lemma MemberIs(t: string, key: string, afterKey: string, v: string, raw: string, after: string)
    requires t != "" && t[0] == '"' && Unescape(t[1..]) == Got(key, afterKey) && SkipSpaces(afterKey) == ":" + v
    requires SkipSpaces(v) == raw + after && SkipValue(raw + after) == Some(after)
    ensures ReadMember(t) == Got(Member(key, raw), after)
  {
    assert (":" + v)[1..] == v;
    assert (raw + after)[..|raw|] == raw;
  }

  lemma LastFieldRead(x: Field, rest: string)
    requires IsField(x)
    ensures ReadMembers(SkipSpaces(FieldText(x) + ("}" + rest))) == Got([Member(x.key, x.item.raw)], rest)
  {
    FieldRead(x, "}" + rest);
    SpacesSkipped(x.item.after, "}" + rest);
    assert ("}" + rest)[1..] == rest;
  }

  lemma NextFieldRead(x: Field, more: string, ms: seq<Member>, rest: string)
    requires IsField(x) && ReadMembers(SkipSpaces(more)) == Got(ms, rest)
    ensures ReadMembers(SkipSpaces(FieldText(x) + ("," + more))) == Got([Member(x.key, x.item.raw)] + ms, rest)
  {
    FieldRead(x, "," + more);
    SpacesSkipped(x.item.after, "," + more);
    assert ("," + more)[1..] == more;
  }

  lemma MembersAfterFirst(xs: seq<Field>)
    requires xs != []
    ensures MembersOf(xs) == [Member(xs[0].key, xs[0].item.raw)] + MembersOf(xs[1..])
  {
  }

  lemma FieldsAfterFirst(xs: seq<Field>, rest: string)
    requires |xs| > 1
    ensures FieldsText(xs) + rest == FieldText(xs[0]) + ("," + (FieldsText(xs[1..]) + rest))
  {
    Regrouped(FieldText(xs[0]), ",", FieldsText(xs[1..]), rest);
  }

  lemma {:induction false} FieldsRead(xs: seq<Field>, rest: string)
    requires xs != [] && AllFields(xs)
    ensures ReadMembers(SkipSpaces(FieldsText(xs) + ("}" + rest))) == Got(MembersOf(xs), rest)
  {
    MembersAfterFirst(xs);
    if |xs| == 1 {
      LastFieldRead(xs[0], rest);
      assert MembersOf(xs) == [Member(xs[0].key, xs[0].item.raw)];
    } else {
      FieldsRead(xs[1..], rest);
      NextFieldRead(xs[0], FieldsText(xs[1..]) + ("}" + rest), MembersOf(xs[1..]), rest);
      FieldsAfterFirst(xs, "}" + rest);
    }
  }

  lemma FieldsBegin(xs: seq<Field>, rest: string)
    requires xs != [] && AllFields(xs)
    ensures var u := SkipSpaces(FieldsText(xs) + rest); u != "" && u[0] == '"'
  {
    var tail := if |xs| == 1 then "" else "," + FieldsText(xs[1..]);
    assert FieldsText(xs) + rest == FieldText(xs[0]) + (tail + rest);
    FieldBegins(xs[0], tail + rest);
  }

  lemma FieldsObjectRead(xs: seq<Field>, rest: string)
    requires xs != [] && AllFields(xs)
    ensures ReadObject("{" + FieldsText(xs) + "}" + rest) == Got(MembersOf(xs), rest)
  {
    var t := "{" + FieldsText(xs) + "}" + rest;
    assert t[1..] == FieldsText(xs) + ("}" + rest);
    FieldsBegin(xs, "}" + rest);
    FieldsRead(xs, rest);
  }

  /** So are objects, which makes any JSON document a value. */
  lemma ObjectsAreValues(xs: seq<Field>)
    requires xs != [] && AllFields(xs)
    ensures IsValue("{" + FieldsText(xs) + "}")
  {
    var v := "{" + FieldsText(xs) + "}";
    forall rest | Delimits(rest) ensures SkipValue(v + rest) == Some(rest) { FieldsObjectRead(xs, rest); }
  }

  lemma EmptyObjectsAreValues(sp: string)
    requires AllSpaces(sp)
    ensures IsValue("{" + sp + "}")
  {
    var v := "{" + sp + "}";
    forall rest | Delimits(rest) ensures SkipValue(v + rest) == Some(rest) {
      assert (v + rest)[1..] == sp + ("}" + rest) && ("}" + rest)[1..] == rest;
      SpacesSkipped(sp, "}" + rest);
    }
  }

  /** White space around a document and inside it does not count. */
  lemma SpacedObjects(before: string, xs: seq<Field>, after: string)
    requires xs != [] && AllFields(xs) && AllSpaces(before) && AllSpaces(after)
    ensures ParseObject(before + ("{" + FieldsText(xs) + "}" + after)) == Some(MembersOf(xs))
  {
    SpacesSkipped(before, "{" + FieldsText(xs) + "}" + after);
    FieldsObjectRead(xs, after);
    SpacesSkipped(after, "");
    assert after + "" == after;
  }

  /** A session is found in every document, however it is laid out and whatever else is in it, in
      which the last members of the six names have the texts of its fields. */
  lemma SessionsAreFound(before: string, xs: seq<Field>, after: string, s: Session)
    requires xs != [] && AllFields(xs) && AllSpaces(before) && AllSpaces(after)
    requires Encodable(s.stamp) && HasFields(MembersOf(xs), s)
    ensures Unmarshal(before + ("{" + FieldsText(xs) + "}" + after)) == Some(s)
  {
    SpacedObjects(before, xs, after);
    FieldsDecode(before + ("{" + FieldsText(xs) + "}" + after), MembersOf(xs), s);
  }

  // ---------- What is refused ----------

  /** Something other than a comma or the end after a member. */
  lemma MembersNeedCommas(m: Member, sp: string, c: char, rest: string)
    requires IsValue(m.raw) && sp != "" && AllSpaces(sp) && !IsSpace(c) && c != ',' && c != '}'
    ensures ReadMembers(MemberText(m) + (sp + ([c] + rest))) == Fail
  {
    MemberRead(m, sp + ([c] + rest));
    SpacesSkipped(sp, [c] + rest);
  }

  /** A whole number does not go on after a leading zero, so that `01` is no value. */
  lemma LeadingZerosEnd(t: string)
    requires StartsDigit(t)
    ensures SkipValue("0" + t) == Some(t)
  {
    assert ("0" + t)[1..] == t && ("0" + t)[0] == '0';
    NumberIsSkipped("0" + t);
  }

  /** A name that is not quoted, or without a colon after it. */
  lemma NamesAreQuoted(t: string)
    requires t == "" || t[0] != '"'
    ensures ReadMember(t) == Fail && ReadMembers(t) == Fail
  {
  }

  lemma NamesNeedColons(key: string, c: char, rest: string)
    requires c != ':' && !IsSpace(c)
    ensures ReadMember(Quote(key) + ([c] + rest)) == Fail
  {
    var t := Quote(key) + ([c] + rest);
    assert t[1..] == Escape(key) + "\"" + ([c] + rest);
    StringRoundTrip(key, [c] + rest);
  }
}
