/**
 * The part of `JSON.stringify` the app relies on: strings and flat string
 * dictionaries written in compact form, together with a reader for exactly
 * that form, so that what is written can be shown to be read back unchanged.
 */
module Json {
  import opened Wrappers
  import opened Record

  function HexDigit(n: nat): (c: char)
    requires n < 16
  {
    "0123456789abcdef"[n]
  }

  function HexValue(c: char): (o: Option<nat>)
    ensures o.Some? ==> o.value < 16
  {
    if '0' <= c <= '9' then Some(c as int - '0' as int)
    else if 'a' <= c <= 'f' then Some(c as int - 'a' as int + 10)
    else if 'A' <= c <= 'F' then Some(c as int - 'A' as int + 10)
    else None
  }

  lemma HexRoundTrip(n: nat)
    requires n < 16
    ensures HexValue(HexDigit(n)) == Some(n)
  {
  }

  /**
   * How JSON.stringify writes one character inside a string literal: the quote
   * and the backslash are escaped, the control characters with a short escape
   * have it, the other control characters become \u00XX, all else is kept.
   */
  function EscapeChar(c: char): (e: string)
    ensures 1 <= |e| <= 6
  {
    var n := c as int;
    if c == '"' then ['\\', '"']
    else if c == '\\' then ['\\', '\\']
    else if n == 0x08 then ['\\', 'b']
    else if n == 0x09 then ['\\', 't']
    else if n == 0x0A then ['\\', 'n']
    else if n == 0x0C then ['\\', 'f']
    else if n == 0x0D then ['\\', 'r']
    else if n < 0x20 then ['\\', 'u', '0', '0', HexDigit(n / 16), HexDigit(n % 16)]
    else [c]
  }

  function EscapeBody(s: string): (e: string) {
    if s == [] then [] else EscapeChar(s[0]) + EscapeBody(s[1..])
  }

  /** `JSON.stringify(s)` for a string s. */
  function Quote(s: string): (t: string)
    ensures |t| >= 2
  {
    ['"'] + EscapeBody(s) + ['"']
  }

  /** A character that may stand unescaped inside a JSON string literal. */
  predicate PlainChar(c: char) {
    c != '"' && c != '\\' && c as int >= 0x20
  }

  /**
   * Reads the rest of a JSON string literal (the text after its opening quote):
   * the decoded content and how many characters were read, closing quote
   * included; None when the literal is malformed or unterminated.
   */
  function ReadStringBody(t: string): (o: Option<(string, nat)>)
    ensures o.Some? ==> 0 < o.value.1 <= |t|
    decreases |t|
  {
    if t == [] then None
    else if t[0] == '"' then Some(([], 1))
    else if t[0] == '\\' then
      if |t| < 2 then None
      else
        var d := ReadEscape(t);
        if d.None? then None
        else
          var (c, used) := d.value;
          match ReadStringBody(t[used..])
          case None => None
          case Some((rest, m)) => Some(([c] + rest, used + m))
    else if t[0] as int < 0x20 then None
    else
      match ReadStringBody(t[1..])
      case None => None
      case Some((rest, m)) => Some(([t[0]] + rest, 1 + m))
  }

  /** Decodes the escape sequence at the head of t: the character and its length. */
  function ReadEscape(t: string): (o: Option<(char, nat)>)
    requires |t| >= 2 && t[0] == '\\'
    ensures o.Some? ==> 2 <= o.value.1 <= |t|
  {
    var e := t[1];
    if e == '"' then Some(('"', 2))
    else if e == '\\' then Some(('\\', 2))
    else if e == '/' then Some(('/', 2))
    else if e == 'b' then Some((0x08 as char, 2))
    else if e == 'f' then Some((0x0C as char, 2))
    else if e == 'n' then Some(('\n', 2))
    else if e == 'r' then Some(('\r', 2))
    else if e == 't' then Some(('\t', 2))
    else if e == 'u' && |t| >= 6 then
      var h0, h1, h2, h3 := HexValue(t[2]), HexValue(t[3]), HexValue(t[4]), HexValue(t[5]);
      if h0.None? || h1.None? || h2.None? || h3.None? then None
      else
        var v := ((h0.value * 16 + h1.value) * 16 + h2.value) * 16 + h3.value;
        // a lone surrogate half is not a character; pairs are not read here
        if 0xD800 <= v < 0xE000 then None else Some((v as char, 6))
    else None
  }

  /** Reads back the escape JSON.stringify writes for one character. */
  lemma ReadEscapeChar(c: char, u: string)
    requires !PlainChar(c)
    ensures |EscapeChar(c)| >= 2 && (EscapeChar(c) + u)[0] == '\\'
    ensures ReadEscape(EscapeChar(c) + u) == Some((c, |EscapeChar(c)|))
  {
    var n := c as int;
    var t := EscapeChar(c) + u;
    if c != '"' && c != '\\' && n < 0x20 && n != 0x08 && n != 0x09 && n != 0x0A && n != 0x0C && n != 0x0D {
      assert t[..6] == ['\\', 'u', '0', '0', HexDigit(n / 16), HexDigit(n % 16)];
      HexRoundTrip(n / 16);
      HexRoundTrip(n % 16);
      assert t[4] == HexDigit(n / 16) && t[5] == HexDigit(n % 16);
      var v := ((0 * 16 + 0) * 16 + n / 16) * 16 + n % 16;
      assert v == n;
    }
  }

  /** Reading one escaped character, then the rest. */
  lemma {:induction false} ReadStringBodyCons(c: char, u: string)
    ensures ReadStringBody(EscapeChar(c) + u) ==
      match ReadStringBody(u)
      case None => None
      case Some((rest, m)) => Some(([c] + rest, |EscapeChar(c)| + m))
  {
    var t := EscapeChar(c) + u;
    if PlainChar(c) {
      assert t[0] == c && t[1..] == u;
    } else {
      ReadEscapeChar(c, u);
      assert t[|EscapeChar(c)|..] == u;
    }
  }

  /** Round trip: the body JSON.stringify writes for s, then the closing quote, reads back as s. */
  lemma {:induction false} ReadEscapedBody(s: string, u: string)
    ensures ReadStringBody(EscapeBody(s) + ['"'] + u) == Some((s, |EscapeBody(s)| + 1))
  {
    if s == [] {
      assert EscapeBody(s) + ['"'] + u == ['"'] + u;
    } else {
      var tail := EscapeBody(s[1..]) + ['"'] + u;
      ReadEscapedBody(s[1..], u);
      assert EscapeBody(s) + ['"'] + u == EscapeChar(s[0]) + tail;
      ReadStringBodyCons(s[0], tail);
      assert [s[0]] + s[1..] == s;
    }
  }

  /** Reads a JSON string literal at the head of t: its content and its length. */
  function ReadString(t: string): (o: Option<(string, nat)>)
    ensures o.Some? ==> 0 < o.value.1 <= |t|
  {
    if t == [] || t[0] != '"' then None
    else
      match ReadStringBody(t[1..])
      case None => None
      case Some((s, m)) => Some((s, m + 1))
  }

  /** `JSON.parse(JSON.stringify(s)) === s`, with anything after the literal left unread. */
  lemma ReadQuote(s: string, u: string)
    ensures ReadString(Quote(s) + u) == Some((s, |Quote(s)|))
  {
    var t := Quote(s) + u;
    assert t[1..] == EscapeBody(s) + ['"'] + u;
    ReadEscapedBody(s, u);
  }

  /** Nothing JSON.stringify writes for a string spans a line: no raw newline, no raw control character. */
  lemma {:induction false} EscapeBodyPrintable(s: string)
    ensures forall i :: 0 <= i < |EscapeBody(s)| ==> EscapeBody(s)[i] as int >= 0x20
  {
    if s != [] {
      EscapeBodyPrintable(s[1..]);
      var e, rest := EscapeChar(s[0]), EscapeBody(s[1..]);
      forall i | 0 <= i < |e + rest| ensures (e + rest)[i] as int >= 0x20 {
        if i >= |e| { assert (e + rest)[i] == rest[i - |e|]; }
      }
    }
  }

  /** Escaping introduces no character absent from s other than `\`, `"`, the escape letters and hex digits. */
  lemma {:induction false} EscapeBodyNoBacktick(s: string)
    requires '`' !in s
    ensures '`' !in EscapeBody(s)
  {
    if s != [] {
      assert s[0] != '`';
      EscapeBodyNoBacktick(s[1..]);
    }
  }

  // ---------------------------------------------------------------------------
  // String dictionaries

  function Member(e: Entry): (t: string)
    ensures |t| >= 5
  {
    Quote(e.key) + [':'] + Quote(e.value)
  }

  function Members(r: Record): (t: string)
    requires r != []
    ensures |t| >= 5
  {
    if |r| == 1 then Member(r[0]) else Member(r[0]) + [','] + Members(r[1..])
  }

  /** `JSON.stringify(r)` for a string dictionary: its entries in key order, compact. */
  function StringifyRecord(r: Record): (t: string)
    ensures |t| >= 2 && t[0] == '{' && t[|t| - 1] == '}'
  {
    if r == [] then ['{', '}'] else ['{'] + Members(r) + ['}']
  }

  /** Reads `"key":"value"` at the head of t: the entry and its length. */
  function ReadMember(t: string): (o: Option<(Entry, nat)>)
    ensures o.Some? ==> 0 < o.value.1 <= |t|
  {
    match ReadString(t)
    case None => None
    case Some((k, n)) =>
      if n >= |t| || t[n] != ':' then None
      else
        match ReadString(t[n + 1..])
        case None => None
        case Some((v, m)) => Some((Entry(k, v), n + 1 + m))
  }

  /** Reads the members of a compact object up to and including its closing brace, which must end t. */
  function ReadMembers(t: string): (o: Option<Record>)
    decreases |t|
  {
    match ReadMember(t)
    case None => None
    case Some((e, n)) =>
      if n >= |t| then None
      else if t[n] == '}' && n + 1 == |t| then Some([e])
      else if t[n] == ',' then
        match ReadMembers(t[n + 1..])
        case None => None
        case Some(rest) => Some([e] + rest)
      else None
  }

  /** Reads a compact JSON object of strings, the whole of t. */
  function ReadRecord(t: string): Option<Record> {
    if t == ['{', '}'] then Some([])
    else if |t| >= 2 && t[0] == '{' then ReadMembers(t[1..])
    else None
  }

  lemma ReadMemberParts(e: Entry, t: string, n: nat, m: nat)
    requires n < |t| && t[n] == ':'
    requires ReadString(t) == Some((e.key, n))
    requires ReadString(t[n + 1..]) == Some((e.value, m))
    ensures ReadMember(t) == Some((e, n + 1 + m))
  {
  }

  lemma ReadMemberAt(k: string, v: string, q1: string, q2: string, u: string)
    requires ReadString(q1 + ([':'] + q2 + u)) == Some((k, |q1|))
    requires ReadString(q2 + u) == Some((v, |q2|))
    ensures ReadMember(q1 + ([':'] + q2 + u)) == Some((Entry(k, v), |q1| + 1 + |q2|))
  {
    var t := q1 + ([':'] + q2 + u);
    var n := |q1|;
    assert t[n + 1..] == q2 + u;
    assert t[n] == ':';
    ReadMemberParts(Entry(k, v), t, n, |q2|);
  }

  lemma ReadMemberOf(k: string, v: string, u: string)
    ensures ReadMember(Quote(k) + ([':'] + Quote(v) + u)) == Some((Entry(k, v), |Quote(k)| + 1 + |Quote(v)|))
  {
    var q1, q2 := Quote(k), Quote(v);
    ReadQuote(k, [':'] + q2 + u);
    ReadQuote(v, u);
    ReadMemberAt(k, v, q1, q2, u);
  }

  lemma ReadMemberThen(e: Entry, u: string)
    ensures ReadMember(Member(e) + u) == Some((e, |Member(e)|))
  {
    assert Member(e) + u == Quote(e.key) + ([':'] + Quote(e.value) + u);
    ReadMemberOf(e.key, e.value, u);
  }

  lemma ReadLastMember(e: Entry)
    ensures ReadMembers(Member(e) + ['}']) == Some([e])
  {
    var t := Member(e) + ['}'];
    var n := |Member(e)|;
    assert ReadMember(t) == Some((e, n)) by {
      ReadMemberThen(e, ['}']);
    }
    assert t[n] == '}' && n + 1 == |t|;
  }

  lemma ReadNextMember(e: Entry, tail: string, rest: Record)
    requires ReadMembers(tail) == Some(rest)
    ensures ReadMembers(Member(e) + [','] + tail) == Some([e] + rest)
  {
    var t := Member(e) + [','] + tail;
    var n := |Member(e)|;
    assert ReadMember(t) == Some((e, n)) by {
      assert t == Member(e) + ([','] + tail);
      ReadMemberThen(e, [','] + tail);
    }
    assert t[n] == ',' && t[n + 1..] == tail;
  }

  lemma ReadMembersStep(r: Record, tail: string, t: string)
    requires |r| > 1
    requires ReadMembers(tail) == Some(r[1..])
    requires t == Member(r[0]) + [','] + tail
    ensures ReadMembers(t) == Some(r)
  {
    ReadNextMember(r[0], tail, r[1..]);
    assert [r[0]] + r[1..] == r;
  }

  lemma {:induction false} ReadMembersOf(r: Record)
    requires r != []
    ensures ReadMembers(Members(r) + ['}']) == Some(r)
  {
    if |r| == 1 {
      assert Members(r) == Member(r[0]);
      ReadLastMember(r[0]);
      assert [r[0]] == r;
    } else {
      var tail := Members(r[1..]) + ['}'];
      ReadMembersOf(r[1..]);
      assert Members(r) + ['}'] == Member(r[0]) + [','] + tail;
      ReadMembersStep(r, tail, Members(r) + ['}']);
    }
  }

  /** Round trip: a dictionary written by JSON.stringify reads back entry for entry, in order. */
  lemma ReadStringifiedRecord(r: Record)
    ensures ReadRecord(StringifyRecord(r)) == Some(r)
  {
    if r != [] {
      var t := StringifyRecord(r);
      assert t[1..] == Members(r) + ['}'];
      ReadMembersOf(r);
      assert |t| > 2;
    }
  }
}
