/** JSON values, their texts, and a reader for the grammar of RFC 8259 that undoes the writer. */
module Json {
  import opened Prelude

  /** The decimal number `mantissa * 10^exponent`. */
  datatype Decimal = Decimal(mantissa: int, exponent: int)

  /** One representation for each number. */
  predicate Normal(n: Decimal) {
    if n.mantissa == 0 then n.exponent == 0 else n.mantissa % 10 != 0
  }

  datatype Value =
    | Null
    | Bool(truth: bool)
    | Number(number: Decimal)
    | String(text: string)
    | Array(items: seq<Value>)
    | Object(members: seq<Member>)

  /** The members of an object are in the order in which the host enumerates them. */
  datatype Member = Member(key: string, value: Value)

  /** Every number in the value is in its one representation. */
  predicate Normalized(v: Value) {
    match v
    case Number(n) => Normal(n)
    case Array(items) => forall i :: 0 <= i < |items| ==> Normalized(items[i])
    case Object(members) => forall i :: 0 <= i < |members| ==> Normalized(members[i].value)
    case _ => true
  }

  /** No object in the value has the same key twice. */
  predicate DistinctKeys(v: Value) {
    match v
    case Array(items) => forall i :: 0 <= i < |items| ==> DistinctKeys(items[i])
    case Object(members) =>
      && (forall i, j :: 0 <= i < j < |members| ==> members[i].key != members[j].key)
      && forall i :: 0 <= i < |members| ==> DistinctKeys(members[i].value)
    case _ => true
  }

  /** The value under a key. */
  function Get(members: seq<Member>, key: string): Option<Value> {
    if members == [] then None
    else if members[0].key == key then Some(members[0].value)
    else Get(members[1..], key)
  }

  // ---------------------------------------------------------------------------
  // Numerals
  // ---------------------------------------------------------------------------

  predicate IsDigit(c: char) { '0' <= c <= '9' }

  predicate AreDigits(s: string) {
    s != "" && forall i :: 0 <= i < |s| ==> IsDigit(s[i])
  }

  /** An integer part: a single zero, or digits that do not start with zero. */
  predicate IsIntegerPart(s: string) {
    AreDigits(s) && (s[0] == '0' ==> |s| == 1)
  }

  predicate IsFraction(s: string) {
    s == "" || (s[0] == '.' && AreDigits(s[1..]))
  }

  predicate IsExponent(s: string) {
    s == "" || (s[0] in "eE" && (AreDigits(s[1..]) || (|s| > 1 && s[1] in "+-" && AreDigits(s[2..]))))
  }

  /** Section 6 of RFC 8259: an optional minus, an integer part, an optional fraction and exponent. */
  predicate NumeralParts(sign: string, whole: string, fraction: string, power: string) {
    (sign == "" || sign == "-") && IsIntegerPart(whole) && IsFraction(fraction) && IsExponent(power)
  }

  predicate IsNumeral(s: string) {
    exists m, i, f :: 0 <= m <= i <= f <= |s| && NumeralParts(s[..m], s[m..i], s[i..f], s[f..])
  }

  predicate IsNumeralChar(c: char) {
    IsDigit(c) || c in "-+.eE"
  }

  lemma NumeralChars(s: string)
    requires IsNumeral(s)
    ensures s != "" && (s[0] == '-' || IsDigit(s[0]))
    ensures forall k :: 0 <= k < |s| ==> IsNumeralChar(s[k])
  {
    var m, i, f :| 0 <= m <= i <= f <= |s| && NumeralParts(s[..m], s[m..i], s[i..f], s[f..]);
    PartsHaveNumeralChars(s[..m], s[m..i], s[i..f], s[f..]);
    InFourParts(s, m, i, f);
  }

  lemma InFourParts<T>(s: seq<T>, m: nat, i: nat, f: nat)
    requires m <= i <= f <= |s|
    ensures s == s[..m] + s[m..i] + s[i..f] + s[f..]
  {
    assert s[..i] == s[..m] + s[m..i];
    assert s[..f] == s[..i] + s[i..f];
    assert s == s[..f] + s[f..];
  }

  lemma PartsHaveNumeralChars(sign: string, whole: string, fraction: string, power: string)
    requires NumeralParts(sign, whole, fraction, power)
    ensures var s := sign + whole + fraction + power;
            && s != "" && (s[0] == '-' || IsDigit(s[0]))
            && forall k :: 0 <= k < |s| ==> IsNumeralChar(s[k])
  {
    FractionChars(fraction);
    ExponentChars(power);
  }

  lemma FractionChars(s: string)
    requires IsFraction(s)
    ensures forall k :: 0 <= k < |s| ==> IsNumeralChar(s[k])
  {
    forall k | 0 <= k < |s| ensures IsNumeralChar(s[k]) {
      if k > 0 {
        assert s[k] == s[1..][k - 1];
      }
    }
  }

  lemma ExponentChars(s: string)
    requires IsExponent(s)
    ensures forall k :: 0 <= k < |s| ==> IsNumeralChar(s[k])
  {
    forall k | 1 < k < |s| ensures IsNumeralChar(s[k]) {
      if AreDigits(s[1..]) {
        assert s[k] == s[1..][k - 1];
      } else {
        assert s[k] == s[2..][k - 2];
      }
    }
    if |s| > 1 && AreDigits(s[1..]) {
      assert s[1] == s[1..][0];
    }
  }

  /** How the host prints numbers and reads numerals: reading undoes printing. */
  datatype Numerals = Numerals(numeral: Decimal -> string, decimal: string -> Decimal)

  ghost predicate Faithful(h: Numerals) {
    forall n :: Normal(n) ==> IsNumeral(h.numeral(n)) && h.decimal(h.numeral(n)) == n
  }

  // ---------------------------------------------------------------------------
  // Writing
  // ---------------------------------------------------------------------------

  const HEX := "0123456789abcdef"

  /** The two-character escapes. */
  function ShortEscape(c: char): Option<char> {
    match c
    case '\"' => Some('\"')
    case '\\' => Some('\\')
    case '\U{08}' => Some('b')
    case '\t' => Some('t')
    case '\n' => Some('n')
    case '\U{0C}' => Some('f')
    case '\r' => Some('r')
    case _ => None
  }

  function WriteChar(c: char): string {
    if ShortEscape(c).Some? then ['\\', ShortEscape(c).value]
    else if c < ' ' then "\\u00" + [HEX[c as int / 16], HEX[c as int % 16]]
    else [c]
  }

  function WriteChars(s: string): string {
    if s == "" then "" else WriteChar(s[0]) + WriteChars(s[1..])
  }

  function WriteString(s: string): string {
    "\"" + WriteChars(s) + "\""
  }

  function Write(h: Numerals, v: Value): string
    decreases v, 0
  {
    match v
    case Null => "null"
    case Bool(truth) => if truth then "true" else "false"
    case Number(n) => h.numeral(n)
    case String(text) => WriteString(text)
    case Array(items) => "[" + WriteItems(h, items) + "]"
    case Object(members) => "{" + WriteMembers(h, members) + "}"
  }

  function WriteItems(h: Numerals, items: seq<Value>): string
    decreases items, 1
  {
    if items == [] then ""
    else if |items| == 1 then Write(h, items[0])
    else Write(h, items[0]) + "," + WriteItems(h, items[1..])
  }

  function WriteMember(h: Numerals, m: Member): string
    decreases m, 1
  {
    WriteString(m.key) + ":" + Write(h, m.value)
  }

  function WriteMembers(h: Numerals, members: seq<Member>): string
    decreases members, 2
  {
    if members == [] then ""
    else if |members| == 1 then WriteMember(h, members[0])
    else WriteMember(h, members[0]) + "," + WriteMembers(h, members[1..])
  }

  // ---------------------------------------------------------------------------
  // Reading
  // ---------------------------------------------------------------------------

  predicate IsSpace(c: char) { c in " \t\n\r" }

  function SkipSpace(t: string): (r: string)
    ensures |r| <= |t|
  {
    if t != "" && IsSpace(t[0]) then SkipSpace(t[1..]) else t
  }

  function HexValue(c: char): Option<nat> {
    if IsDigit(c) then Some(c as int - '0' as int)
    else if 'a' <= c <= 'f' then Some(c as int - 'a' as int + 10)
    else if 'A' <= c <= 'F' then Some(c as int - 'A' as int + 10)
    else None
  }

  /** The four-digit hexadecimal code at the front of `t`. */
  function HexCode(t: string): (code: Option<nat>)
    ensures code.Some? ==> |t| >= 4 && code.value < 0x10000
  {
    if |t| < 4 || exists i :: 0 <= i < 4 && HexValue(t[i]).None? then None
    else
      Some(((HexValue(t[0]).value * 16 + HexValue(t[1]).value) * 16 + HexValue(t[2]).value) * 16
           + HexValue(t[3]).value)
  }

  predicate IsHighHalf(code: nat) { 0xD800 <= code < 0xDC00 }

  predicate IsLowHalf(code: nat) { 0xDC00 <= code < 0xE000 }

  /** The character that the two halves of a surrogate pair stand for. */
  function Paired(high: nat, low: nat): char
    requires IsHighHalf(high) && IsLowHalf(low)
  {
    (0x10000 + (high - 0xD800) * 0x400 + (low - 0xDC00)) as char
  }

  /** A `u` escape at the front of `t`, after its backslash and `u`: the character and what the escape takes. */
  function ReadEscape(t: string): (r: Option<(char, nat)>)
    ensures r.Some? ==> r.value.1 <= |t|
  {
    match HexCode(t)
    case None => None
    case Some(code) =>
      if !IsHighHalf(code) && !IsLowHalf(code) then Some((code as char, 4))
      else if IsHighHalf(code) && |t| >= 6 && t[4] == '\\' && t[5] == 'u' then
        match HexCode(t[6..])
        case Some(low) => if IsLowHalf(low) then Some((Paired(code, low), 10)) else None
        case None => None
      else None
  }

  function Unescape(c: char): Option<char> {
    match c
    case '\"' => Some('\"')
    case '\\' => Some('\\')
    case '/' => Some('/')
    case 'b' => Some('\U{08}')
    case 't' => Some('\t')
    case 'n' => Some('\n')
    case 'f' => Some('\U{0C}')
    case 'r' => Some('\r')
    case _ => None
  }

  function Prepend<T, U>(x: T, read: Option<(seq<T>, U)>): Option<(seq<T>, U)> {
    match read
    case None => None
    case Some((xs, rest)) => Some(([x] + xs, rest))
  }

  /** The characters up to the closing quotation mark. */
  function ReadChars(t: string): (r: Option<(string, string)>)
    ensures r.Some? ==> |r.value.1| < |t|
  {
    if t == "" || t[0] < ' ' then None
    else if t[0] == '\"' then Some(("", t[1..]))
    else if t[0] != '\\' then Prepend(t[0], ReadChars(t[1..]))
    else if |t| >= 2 && t[1] == 'u' then
      match ReadEscape(t[2..])
      case None => None
      case Some((c, n)) => Prepend(c, ReadChars(t[2 + n..]))
    else if |t| >= 2 && Unescape(t[1]).Some? then Prepend(Unescape(t[1]).value, ReadChars(t[2..]))
    else None
  }

  function ReadString(t: string): (r: Option<(string, string)>)
    ensures r.Some? ==> |r.value.1| < |t|
  {
    if t != "" && t[0] == '\"' then ReadChars(t[1..]) else None
  }

  function NumeralLength(t: string): (n: nat)
    ensures n <= |t|
  {
    if t != "" && IsNumeralChar(t[0]) then 1 + NumeralLength(t[1..]) else 0
  }

  function ReadNumber(h: Numerals, t: string): (r: Option<(Value, string)>)
    ensures r.Some? ==> |r.value.1| < |t|
  {
    var n := NumeralLength(t);
    if n > 0 && IsNumeral(t[..n]) then Some((Number(h.decimal(t[..n])), t[n..])) else None
  }

  function ReadValue(h: Numerals, text: string): (r: Option<(Value, string)>)
    ensures r.Some? ==> |r.value.1| < |text|
    decreases |text|, 0
  {
    var t := SkipSpace(text);
    if "null" <= t then Some((Null, t[4..]))
    else if "true" <= t then Some((Bool(true), t[4..]))
    else if "false" <= t then Some((Bool(false), t[5..]))
    else if t == "" then None
    else if t[0] == '\"' then
      match ReadString(t)
      case None => None
      case Some((s, rest)) => Some((String(s), rest))
    else if t[0] == '[' then
      var u := SkipSpace(t[1..]);
      if u != "" && u[0] == ']' then Some((Array([]), u[1..]))
      else
        match ReadItems(h, t[1..])
        case None => None
        case Some((items, rest)) => Some((Array(items), rest))
    else if t[0] == '{' then
      var u := SkipSpace(t[1..]);
      if u != "" && u[0] == '}' then Some((Object([]), u[1..]))
      else
        match ReadMembers(h, t[1..])
        case None => None
        case Some((members, rest)) => Some((Object(members), rest))
    else ReadNumber(h, t)
  }

  /** The rest of an array after its opening bracket, from its first item on. */
  function ReadItems(h: Numerals, text: string): (r: Option<(seq<Value>, string)>)
    ensures r.Some? ==> |r.value.1| < |text|
    decreases |text|, 1
  {
    match ReadValue(h, text)
    case None => None
    case Some((item, after)) =>
      var u := SkipSpace(after);
      if u == "" then None
      else if u[0] == ']' then Some(([item], u[1..]))
      else if u[0] == ',' then Prepend(item, ReadItems(h, u[1..]))
      else None
  }

  function ReadMember(h: Numerals, text: string): (r: Option<(Member, string)>)
    ensures r.Some? ==> |r.value.1| < |text|
    decreases |text|, 1
  {
    match ReadString(SkipSpace(text))
    case None => None
    case Some((key, after)) =>
      var u := SkipSpace(after);
      if u == "" || u[0] != ':' then None
      else
        match ReadValue(h, u[1..])
        case None => None
        case Some((value, rest)) => Some((Member(key, value), rest))
  }

  /** The rest of an object after its opening brace, from its first member on. */
  function ReadMembers(h: Numerals, text: string): (r: Option<(seq<Member>, string)>)
    ensures r.Some? ==> |r.value.1| < |text|
    decreases |text|, 2
  {
    match ReadMember(h, text)
    case None => None
    case Some((member, after)) =>
      var u := SkipSpace(after);
      if u == "" then None
      else if u[0] == '}' then Some(([member], u[1..]))
      else if u[0] == ',' then Prepend(member, ReadMembers(h, u[1..]))
      else None
  }

  /** A whole text: one value, with nothing but space around it. */
  function ReadText(h: Numerals, text: string): Option<Value> {
    match ReadValue(h, text)
    case None => None
    case Some((v, rest)) => if SkipSpace(rest) == "" then Some(v) else None
  }

  // ---------------------------------------------------------------------------
  // Reading undoes writing
  // ---------------------------------------------------------------------------

  lemma HexDigit(i: nat)
    requires i < 16
    ensures HexValue(HEX[i]) == Some(i)
  {
  }

  /** The escape of a control character is read back, whatever follows. */
  lemma ReadsBackControl(c: char, t: string)
    requires c < ' '
    ensures ReadEscape("00" + [HEX[c as int / 16], HEX[c as int % 16]] + t) == Some((c, 4))
  {
    HexDigit(c as int / 16);
    HexDigit(c as int % 16);
    HexDigit(0);
  }

  lemma ReadsBackChar(c: char, t: string)
    ensures ReadChars(WriteChar(c) + t) == Prepend(c, ReadChars(t))
  {
    var text := WriteChar(c) + t;
    if ShortEscape(c).Some? {
      assert text[2..] == t;
    } else if c < ' ' {
      var digits := "00" + [HEX[c as int / 16], HEX[c as int % 16]];
      assert text[2..] == digits + t;
      assert text[6..] == t;
      ReadsBackControl(c, t);
    } else {
      assert text[1..] == t;
    }
  }

  /** An escaped surrogate pair is read as the one character it stands for. */
  lemma ReadsPairs(high: nat, low: nat, t: string, u: string)
    requires IsHighHalf(high) && IsLowHalf(low) && |t| == 4
    requires HexCode(t) == Some(high) && HexCode(u) == Some(low)
    ensures ReadEscape(t + "\\u" + u) == Some((Paired(high, low), 10))
  {
    var text := t + "\\u" + u;
    assert text[6..] == u;
    assert forall i :: 0 <= i < 4 ==> text[i] == t[i];
  }

  lemma {:induction false} ReadsBackChars(s: string, rest: string)
    ensures ReadChars(WriteChars(s) + "\"" + rest) == Some((s, rest))
  {
    if s == "" {
      assert WriteChars(s) + "\"" + rest == "\"" + rest;
    } else {
      var tail := WriteChars(s[1..]) + "\"" + rest;
      assert WriteChars(s) + "\"" + rest == WriteChar(s[0]) + tail;
      ReadsBackChars(s[1..], rest);
      ReadsBackChar(s[0], tail);
      assert s == [s[0]] + s[1..];
    }
  }

  lemma ReadsBackString(s: string, rest: string)
    ensures ReadString(WriteString(s) + rest) == Some((s, rest))
  {
    ReadsBackChars(s, rest);
    Regroup4("\"", WriteChars(s), "\"", rest);
    Regroup3(WriteChars(s), "\"", rest);
    DropFirst('\"', WriteChars(s) + ("\"" + rest));
  }

  /** What may follow a value inside a text. */
  predicate Ends(rest: string) {
    rest == "" || rest[0] == ',' || rest[0] == ']' || rest[0] == '}'
  }

  lemma {:induction false} NumeralRun(s: string, rest: string)
    requires forall k :: 0 <= k < |s| ==> IsNumeralChar(s[k])
    requires Ends(rest)
    ensures NumeralLength(s + rest) == |s|
  {
    if s == "" {
      assert s + rest == rest;
    } else {
      assert (s + rest)[1..] == s[1..] + rest;
      NumeralRun(s[1..], rest);
    }
  }

  lemma ReadsBackNumber(h: Numerals, n: Decimal, rest: string)
    requires Faithful(h) && Normal(n) && Ends(rest)
    ensures ReadNumber(h, h.numeral(n) + rest) == Some((Number(n), rest))
  {
    var s := h.numeral(n);
    NumeralChars(s);
    NumeralRun(s, rest);
    assert (s + rest)[..|s|] == s && (s + rest)[|s|..] == rest;
  }

  lemma Regroup3(a: string, b: string, c: string)
    ensures a + b + c == a + (b + c)
  {
  }

  lemma Regroup4(a: string, b: string, c: string, d: string)
    ensures a + b + c + d == a + (b + (c + d))
  {
  }

  lemma Regroup5(a: string, b: string, c: string, d: string, e: string)
    ensures a + b + c + d + e == a + (b + (c + d + e))
  {
  }

  lemma DropFirst(c: char, s: string)
    ensures ([c] + s)[1..] == s
  {
  }

  lemma StringStarts(s: string)
    ensures WriteString(s) != "" && WriteString(s)[0] == '\"'
  {
  }

  /** No value's text starts with space or with what ends a value. */
  lemma FirstChar(h: Numerals, v: Value)
    requires Faithful(h) && Normalized(v)
    ensures Write(h, v) != "" && !IsSpace(Write(h, v)[0]) && Write(h, v)[0] != ']' && Write(h, v)[0] != '}'
    ensures v.Number? ==> Write(h, v)[0] == '-' || IsDigit(Write(h, v)[0])
  {
    match v
    case Number(n) => NumeralChars(h.numeral(n));
    case _ =>
  }

  /** The reader undoes the writer, whatever may follow the text. */
  lemma {:induction false} ReadsBack(h: Numerals, v: Value, rest: string)
    requires Faithful(h) && Normalized(v) && Ends(rest)
    ensures ReadValue(h, Write(h, v) + rest) == Some((v, rest))
    decreases v, 0
  {
    var t := Write(h, v) + rest;
    FirstChar(h, v);
    assert SkipSpace(t) == t;
    match v
    case Null => assert t[4..] == rest;
    case Bool(truth) =>
      if truth { assert t[4..] == rest; } else { assert t[5..] == rest; }
    case Number(n) => ReadsBackNumber(h, n, rest);
    case String(text) => ReadsBackString(text, rest);
    case Array(items) => ReadsBackArray(h, items, rest);
    case Object(members) => ReadsBackObject(h, members, rest);
  }

  lemma LastItem(h: Numerals, text: string, item: Value, rest: string)
    requires ReadValue(h, text) == Some((item, "]" + rest))
    ensures ReadItems(h, text) == Some(([item], rest))
  {
    assert ("]" + rest)[1..] == rest;
  }

  lemma NextItem(h: Numerals, text: string, item: Value, tail: string, items: seq<Value>, rest: string)
    requires ReadValue(h, text) == Some((item, "," + tail)) && ReadItems(h, tail) == Some((items, rest))
    ensures ReadItems(h, text) == Some(([item] + items, rest))
  {
    assert ("," + tail)[1..] == tail;
  }

  lemma LastMember(h: Numerals, text: string, member: Member, rest: string)
    requires ReadMember(h, text) == Some((member, "}" + rest))
    ensures ReadMembers(h, text) == Some(([member], rest))
  {
    assert ("}" + rest)[1..] == rest;
  }

  lemma NextMember(h: Numerals, text: string, member: Member, tail: string, members: seq<Member>, rest: string)
    requires ReadMember(h, text) == Some((member, "," + tail)) && ReadMembers(h, tail) == Some((members, rest))
    ensures ReadMembers(h, text) == Some(([member] + members, rest))
  {
    assert ("," + tail)[1..] == tail;
  }

  lemma KeyThenValue(h: Numerals, text: string, key: string, tail: string, value: Value, rest: string)
    requires text != "" && !IsSpace(text[0])
    requires ReadString(text) == Some((key, ":" + tail)) && ReadValue(h, tail) == Some((value, rest))
    ensures ReadMember(h, text) == Some((Member(key, value), rest))
  {
    assert (":" + tail)[1..] == tail;
  }

  lemma OpenArray(h: Numerals, body: string, items: seq<Value>, rest: string)
    requires body != "" && !IsSpace(body[0]) && body[0] != ']'
    requires ReadItems(h, body) == Some((items, rest))
    ensures ReadValue(h, "[" + body) == Some((Array(items), rest))
  {
    assert ("[" + body)[1..] == body;
  }

  lemma OpenObject(h: Numerals, body: string, members: seq<Member>, rest: string)
    requires body != "" && !IsSpace(body[0]) && body[0] != '}'
    requires ReadMembers(h, body) == Some((members, rest))
    ensures ReadValue(h, "{" + body) == Some((Object(members), rest))
  {
    assert ("{" + body)[1..] == body;
  }

  lemma {:induction false} ReadsBackArray(h: Numerals, items: seq<Value>, rest: string)
    requires Faithful(h) && Normalized(Array(items))
    ensures ReadValue(h, Write(h, Array(items)) + rest) == Some((Array(items), rest))
    decreases items, 2
  {
    if items == [] {
      var t := "[" + "]" + rest;
      assert t[1..] == "]" + rest;
      assert t[2..] == rest;
    } else {
      var body := WriteItems(h, items) + "]" + rest;
      assert Write(h, Array(items)) + rest == "[" + body;
      FirstChar(h, items[0]);
      ReadsBackItems(h, items, rest);
      OpenArray(h, body, items, rest);
    }
  }

  lemma {:induction false} ReadsBackItems(h: Numerals, items: seq<Value>, rest: string)
    requires Faithful(h) && items != [] && forall i :: 0 <= i < |items| ==> Normalized(items[i])
    ensures ReadItems(h, WriteItems(h, items) + "]" + rest) == Some((items, rest))
    decreases items, 1
  {
    var text := WriteItems(h, items) + "]" + rest;
    if |items| == 1 {
      Regroup3(Write(h, items[0]), "]", rest);
      ReadsBack(h, items[0], "]" + rest);
      LastItem(h, text, items[0], rest);
      assert items == [items[0]];
    } else {
      var tail := WriteItems(h, items[1..]) + "]" + rest;
      Regroup5(Write(h, items[0]), ",", WriteItems(h, items[1..]), "]", rest);
      ReadsBack(h, items[0], "," + tail);
      ReadsBackItems(h, items[1..], rest);
      NextItem(h, text, items[0], tail, items[1..], rest);
      assert items == [items[0]] + items[1..];
    }
  }

  lemma {:induction false} ReadsBackMember(h: Numerals, m: Member, rest: string)
    requires Faithful(h) && Normalized(m.value) && Ends(rest)
    ensures ReadMember(h, WriteMember(h, m) + rest) == Some((m, rest))
    decreases m, 1
  {
    var text, tail := WriteMember(h, m) + rest, Write(h, m.value) + rest;
    Regroup4(WriteString(m.key), ":", Write(h, m.value), rest);
    ReadsBackString(m.key, ":" + tail);
    ReadsBack(h, m.value, rest);
    KeyThenValue(h, text, m.key, tail, m.value, rest);
  }

  lemma {:induction false} ReadsBackObject(h: Numerals, members: seq<Member>, rest: string)
    requires Faithful(h) && Normalized(Object(members))
    ensures ReadValue(h, Write(h, Object(members)) + rest) == Some((Object(members), rest))
    decreases members, 4
  {
    if members == [] {
      var t := "{" + "}" + rest;
      assert t[1..] == "}" + rest;
      assert t[2..] == rest;
    } else {
      var body := WriteMembers(h, members) + "}" + rest;
      assert Write(h, Object(members)) + rest == "{" + body;
      StringStarts(members[0].key);
      ReadsBackMembers(h, members, rest);
      OpenObject(h, body, members, rest);
    }
  }

  lemma {:induction false} ReadsBackMembers(h: Numerals, members: seq<Member>, rest: string)
    requires Faithful(h) && members != [] && forall i :: 0 <= i < |members| ==> Normalized(members[i].value)
    ensures ReadMembers(h, WriteMembers(h, members) + "}" + rest) == Some((members, rest))
    decreases members, 3
  {
    var text := WriteMembers(h, members) + "}" + rest;
    if |members| == 1 {
      Regroup3(WriteMember(h, members[0]), "}", rest);
      ReadsBackMember(h, members[0], "}" + rest);
      LastMember(h, text, members[0], rest);
      assert members == [members[0]];
    } else {
      var tail := WriteMembers(h, members[1..]) + "}" + rest;
      Regroup5(WriteMember(h, members[0]), ",", WriteMembers(h, members[1..]), "}", rest);
      ReadsBackMember(h, members[0], "," + tail);
      ReadsBackMembers(h, members[1..], rest);
      NextMember(h, text, members[0], tail, members[1..], rest);
      assert members == [members[0]] + members[1..];
    }
  }

  lemma ReadsBackText(h: Numerals, v: Value)
    requires Faithful(h) && Normalized(v)
    ensures ReadText(h, Write(h, v)) == Some(v)
  {
    ReadsBack(h, v, "");
    assert Write(h, v) + "" == Write(h, v);
  }

  /** Two values have the same text only when they are the same, member order included. */
  lemma WriteIsInjective(h: Numerals, v: Value, w: Value)
    requires Faithful(h) && Normalized(v) && Normalized(w) && Write(h, v) == Write(h, w)
    ensures v == w
  {
    ReadsBackText(h, v);
    ReadsBackText(h, w);
  }

  /** The text is the one of the grammar: two-character escapes, small hexadecimal digits for other controls. */
  lemma EscapesAreStandard(c: char)
    ensures WriteChar(c) ==
            if c == '\"' then "\\\"" else if c == '\\' then "\\\\"
            else if c == '\U{08}' then "\\b" else if c == '\U{0C}' then "\\f"
            else if c == '\n' then "\\n" else if c == '\r' then "\\r" else if c == '\t' then "\\t"
            else if c as int < 0x10 then "\\u000" + ["0123456789abcdef"[c as int]]
            else if c as int < 0x20 then "\\u001" + ["0123456789abcdef"[c as int - 0x10]]
            else [c]
  {
    if c as int < 0x20 {
      assert HEX[c as int / 16] == if c as int < 0x10 then '0' else '1';
    }
  }

  /** The text of one character between quotes. */
  lemma OneLetter(c: char)
    requires 'a' <= c <= 'z'
    ensures WriteString([c]) == "\"" + [c] + "\""
  {
    assert [c][1..] == "" && WriteChar(c) == [c];
    assert WriteChars([c]) == [c];
  }

  lemma TwoItems(h: Numerals, first: Value, second: Value)
    ensures WriteItems(h, [first, second]) == Write(h, first) + "," + Write(h, second)
  {
    assert [first, second][1..] == [second];
  }

  lemma TwoMembers(h: Numerals, first: Member, second: Member)
    ensures WriteMembers(h, [first, second]) == WriteMember(h, first) + "," + WriteMember(h, second)
  {
    assert [first, second][1..] == [second];
  }

  /** Names of constants, brackets and separators, on values that have them all. */
  lemma PunctuationIsStandard(h: Numerals, n: Decimal)
    ensures Write(h, Null) == "null"
    ensures Write(h, Array([Bool(true), Bool(false)])) == "[true,false]"
    ensures Write(h, Object([Member("a", Array([])), Member("b", Number(n))])) ==
            "{" + ("\"a\":[]" + "," + ("\"b\":" + h.numeral(n))) + "}"
  {
    TwoItems(h, Bool(true), Bool(false));
    OneLetter('a');
    OneLetter('b');
    var a, b := Member("a", Array([])), Member("b", Number(n));
    TwoMembers(h, a, b);
    MemberText(h, a, "\"a\"", "[]");
    MemberText(h, b, "\"b\"", h.numeral(n));
  }

  lemma MemberText(h: Numerals, m: Member, key: string, value: string)
    requires WriteString(m.key) == key && Write(h, m.value) == value
    ensures WriteMember(h, m) == key + ":" + value
  {
  }

  // ---------------------------------------------------------------------------
  // Faithful printing of numbers is possible
  // ---------------------------------------------------------------------------

  function Ones(n: nat): (s: string)
    ensures |s| == n && forall i :: 0 <= i < n ==> s[i] == '1'
  {
    seq(n, _ => '1')
  }

  function Size(n: int): nat {
    if n < 0 then -n else n
  }

  function Sign(n: int): string {
    if n < 0 then "-" else ""
  }

  function Whole(n: int): string {
    if n == 0 then "0" else Ones(Size(n))
  }

  function Power(e: int): string {
    Sign(e) + Ones(Size(e) + 1)
  }

  /** One numeral for each decimal: as many ones as the mantissa says, and one more than the exponent says. */
  function Tally(n: Decimal): string {
    Sign(n.mantissa) + (Whole(n.mantissa) + ("e" + Power(n.exponent)))
  }

  lemma PartsMakeNumeral(sign: string, whole: string, power: string)
    requires NumeralParts(sign, whole, "", power)
    ensures IsNumeral(sign + (whole + power))
  {
    var s, m, i := sign + (whole + power), |sign|, |sign| + |whole|;
    assert s[..m] == sign;
    assert s[m..i] == whole;
    assert s[i..i] == "";
    assert s[i..] == power;
  }

  lemma PowerIsExponent(e: int)
    ensures IsExponent("e" + Power(e))
  {
    var s := "e" + Power(e);
    assert s[if e < 0 then 2 else 1..] == Ones(Size(e) + 1);
  }

  lemma TallyIsNumeral(n: Decimal)
    ensures IsNumeral(Tally(n))
  {
    PowerIsExponent(n.exponent);
    PartsMakeNumeral(Sign(n.mantissa), Whole(n.mantissa), "e" + Power(n.exponent));
  }

  /** How many ones a text starts with. */
  function LeadingOnes(s: string): nat {
    if s != "" && s[0] == '1' then 1 + LeadingOnes(s[1..]) else 0
  }

  lemma {:induction false} CountsOnes(n: nat, rest: string)
    requires rest == "" || rest[0] != '1'
    ensures LeadingOnes(Ones(n) + rest) == n
  {
    if n == 0 {
      assert Ones(0) + rest == rest;
    } else {
      assert (Ones(n) + rest)[1..] == Ones(n - 1) + rest;
      CountsOnes(n - 1, rest);
    }
  }

  lemma OnesTell(m: nat, n: nat, rest: string, other: string)
    requires rest == "" || rest[0] != '1'
    requires other == "" || other[0] != '1'
    requires Ones(m) + rest == Ones(n) + other
    ensures m == n && rest == other
  {
    CountsOnes(m, rest);
    CountsOnes(n, other);
    assert rest == (Ones(m) + rest)[m..];
    assert other == (Ones(n) + other)[n..];
  }

  lemma SignTells(a: int, b: int, x: string, y: string)
    requires x != "" && y != "" && x[0] != '-' && y[0] != '-' && Sign(a) + x == Sign(b) + y
    ensures Sign(a) == Sign(b) && x == y
  {
    assert (Sign(a) + x)[0] == if a < 0 then '-' else x[0];
    assert (Sign(b) + y)[0] == if b < 0 then '-' else y[0];
    assert x == (Sign(a) + x)[|Sign(a)|..];
    assert y == (Sign(b) + y)[|Sign(b)|..];
  }

  lemma SameMantissa(a: int, b: int, p: string, q: string)
    requires p != "" && q != "" && p[0] == 'e' && q[0] == 'e'
    requires Sign(a) + (Whole(a) + p) == Sign(b) + (Whole(b) + q)
    ensures a == b && p == q
  {
    SignTells(a, b, Whole(a) + p, Whole(b) + q);
    if a != 0 && b != 0 {
      OnesTell(Size(a), Size(b), p, q);
    } else {
      assert (Whole(a) + p)[0] == if a == 0 then '0' else '1';
      assert (Whole(b) + q)[0] == if b == 0 then '0' else '1';
      assert p == (Whole(a) + p)[1..] && q == (Whole(b) + q)[1..];
    }
  }

  lemma SameExponent(a: int, b: int)
    requires Power(a) == Power(b)
    ensures a == b
  {
    SignTells(a, b, Ones(Size(a) + 1), Ones(Size(b) + 1));
  }

  lemma TallyIsInjective(a: Decimal, b: Decimal)
    requires Tally(a) == Tally(b)
    ensures a == b
  {
    var x, y := Power(a.exponent), Power(b.exponent);
    SameMantissa(a.mantissa, b.mantissa, "e" + x, "e" + y);
    assert x == ("e" + x)[1..] && y == ("e" + y)[1..];
    SameExponent(a.exponent, b.exponent);
  }

  /** There is a way to print numbers that reading undoes. */
  lemma FaithfulNumeralsExist() returns (h: Numerals)
    ensures Faithful(h)
  {
    h := Numerals(Tally, s => if exists n :: Tally(n) == s then var n :| Tally(n) == s; n else Decimal(0, 0));
    forall n | Normal(n) ensures IsNumeral(h.numeral(n)) && h.decimal(h.numeral(n)) == n {
      TallyIsNumeral(n);
      var m := h.decimal(Tally(n));
      assert Tally(m) == Tally(n);
      TallyIsInjective(m, n);
    }
  }
}
