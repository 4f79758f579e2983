/** JSON values and their printed text. */
module JsonText {
  import opened Text

  // Values as the run time holds them, printed unit by UTF-16 unit.

  /** One UTF-16 code unit. */
  type Unit = n: int | 0 <= n < 0x1_0000

  type JsString = seq<Unit>

  /** A number is held as its printed numeral; an object as its own properties. */
  datatype Json =
    | Null
    | Bool(b: bool)
    | Number(numeral: JsString)
    | Str(s: JsString)
    | Arr(items: seq<Json>)
    | Obj(members: seq<Member>)

  datatype Member = Member(key: JsString, value: Json)

  function Units(s: string): (u: JsString)
    requires forall i :: 0 <= i < |s| ==> (s[i] as int) < 0x1_0000
    ensures |u| == |s| && forall i :: 0 <= i < |s| ==> u[i] == s[i] as int
  {
    seq(|s|, i requires 0 <= i < |s| => s[i] as int as Unit)
  }

  const QUOTE: Unit := 0x22
  const BACKSLASH: Unit := 0x5C
  const COMMA: Unit := 0x2C
  const COLON: Unit := 0x3A
  const OPEN_BRACKET: Unit := 0x5B
  const CLOSE_BRACKET: Unit := 0x5D
  const OPEN_BRACE: Unit := 0x7B
  const CLOSE_BRACE: Unit := 0x7D
  const LETTER_U: Unit := 0x75
  const MINUS: Unit := 0x2D

  predicate IsDigit(u: Unit) { 0x30 <= u <= 0x39 }

  /** Units a numeral is made of: digits, sign, point and exponent. */
  predicate IsNumeralUnit(u: Unit) {
    IsDigit(u) || u == MINUS || u == 0x2B || u == 0x2E || u == 0x65
  }

  predicate IsNumeral(t: JsString) {
    |t| >= 1 && (IsDigit(t[0]) || t[0] == MINUS) && forall i :: 0 <= i < |t| ==> IsNumeralUnit(t[i])
  }

  ghost predicate DistinctKeys(ms: seq<Member>) {
    forall i, j :: 0 <= i < j < |ms| ==> ms[i].key != ms[j].key
  }

  /** Numerals are numerals and no object repeats a key. */
  ghost predicate WellFormed(v: Json) {
    match v
    case Number(t) => IsNumeral(t)
    case Arr(items) => forall i :: 0 <= i < |items| ==> WellFormed(items[i])
    case Obj(members) => DistinctKeys(members) && forall i :: 0 <= i < |members| ==> WellFormed(members[i].value)
    case _ => true
  }

  // ----- strings ---------------------------------------------------------------------------

  predicate IsHigh(u: Unit) { 0xD800 <= u <= 0xDBFF }

  predicate IsLow(u: Unit) { 0xDC00 <= u <= 0xDFFF }

  function HexDigit(n: int): Unit
    requires 0 <= n < 16
  {
    if n < 10 then 0x30 + n else 0x57 + n
  }

  function UnicodeEscape(u: Unit): JsString {
    [BACKSLASH, LETTER_U, HexDigit(u / 0x1000), HexDigit(u / 0x100 % 0x10), HexDigit(u / 0x10 % 0x10),
      HexDigit(u % 0x10)]
  }

  /** The letter of a unit's two-unit escape, if it has one. */
  function ShortEscape(u: Unit): Option<Unit> {
    if u == 0x08 then Some(0x62)
    else if u == 0x09 then Some(0x74)
    else if u == 0x0A then Some(0x6E)
    else if u == 0x0C then Some(0x66)
    else if u == 0x0D then Some(0x72)
    else if u == QUOTE then Some(QUOTE)
    else if u == BACKSLASH then Some(BACKSLASH)
    else None
  }

  const ANGLE: Unit := 0x3C

  /** One unit outside a surrogate pair; `angles` says that `<` is escaped as well. */
  function EscapeUnit(u: Unit, angles: bool): JsString {
    if ShortEscape(u).Some? then [BACKSLASH, ShortEscape(u).value]
    else if u < 0x20 || IsHigh(u) || IsLow(u) || (angles && u == ANGLE) then UnicodeEscape(u)
    else [u]
  }

  predicate StartsPair(s: JsString) {
    |s| >= 2 && IsHigh(s[0]) && IsLow(s[1])
  }

  /** Surrogate pairs stay as they are, a lone surrogate is escaped. */
  function QuoteBody(s: JsString, angles: bool): JsString {
    if s == [] then []
    else if StartsPair(s) then [s[0], s[1]] + QuoteBody(s[2..], angles)
    else EscapeUnit(s[0], angles) + QuoteBody(s[1..], angles)
  }

  function QuoteWith(s: JsString, angles: bool): JsString {
    [QUOTE] + QuoteBody(s, angles) + [QUOTE]
  }

  /** A string as JSON prints it. */
  function Quote(s: JsString): JsString {
    QuoteWith(s, false)
  }

  // ----- printing ----------------------------------------------------------------------------

  function Print(v: Json): JsString {
    match v
    case Null => Units("null")
    case Bool(b) => if b then Units("true") else Units("false")
    case Number(t) => t
    case Str(s) => Quote(s)
    case Arr(items) => [OPEN_BRACKET] + PrintItems(items) + [CLOSE_BRACKET]
    case Obj(members) => [OPEN_BRACE] + PrintMembers(members) + [CLOSE_BRACE]
  }

  function PrintItems(items: seq<Json>): JsString {
    if items == [] then []
    else if |items| == 1 then Print(items[0])
    else Print(items[0]) + ([COMMA] + PrintItems(items[1..]))
  }

  function PrintMember(m: Member): JsString {
    Quote(m.key) + ([COLON] + Print(m.value))
  }

  function PrintMembers(members: seq<Member>): JsString {
    if members == [] then []
    else if |members| == 1 then PrintMember(members[0])
    else PrintMember(members[0]) + ([COMMA] + PrintMembers(members[1..]))
  }

  // ----- reading -------------------------------------------------------------------------------

  // A reader of the texts of RFC 8259 without white space, as `JSON.parse` reads them:
  // sections 3 to 5 for the values, 6 for the units of numerals, 7 for strings.

  datatype Got<T> = Got(value: T, rest: JsString) | Bad

  /** The value of a hex digit. */
  function HexValue(u: Unit): Option<nat> {
    if IsDigit(u) then Some(u - 0x30)
    else if 0x61 <= u <= 0x66 then Some(u - 0x57)
    else if 0x41 <= u <= 0x46 then Some(u - 0x37)
    else None
  }

  /** The unit that `\uXXXX` stands for, from its four digits. */
  function FourHex(t: JsString): (r: Option<Unit>)
    requires |t| == 4
  {
    var a, b, c, d := HexValue(t[0]), HexValue(t[1]), HexValue(t[2]), HexValue(t[3]);
    if a.Some? && b.Some? && c.Some? && d.Some? && a.value < 16 && b.value < 16 && c.value < 16 && d.value < 16 then
      Some(((a.value * 16 + b.value) * 16 + c.value) * 16 + d.value)
    else None
  }

  /** The unit a backslash and a letter stand for. */
  function Unescape(letter: Unit): Option<Unit> {
    if letter == QUOTE || letter == BACKSLASH || letter == 0x2F then Some(letter)
    else if letter == 'b' as int then Some(8)
    else if letter == 'f' as int then Some(12)
    else if letter == 'n' as int then Some(10)
    else if letter == 'r' as int then Some(13)
    else if letter == 't' as int then Some(9)
    else None
  }

  function Prepend(u: Unit, got: Got<JsString>): Got<JsString> {
    match got
    case Got(s, rest) => Got([u] + s, rest)
    case Bad => Bad
  }

  /** The rest of a string, up to its closing quote. */
  function ReadBody(t: JsString): (r: Got<JsString>)
    ensures r.Got? ==> |r.rest| < |t|
  {
    if t == [] || t[0] < 0x20 then Bad
    else if t[0] == QUOTE then Got([], t[1..])
    else if t[0] != BACKSLASH then Prepend(t[0], ReadBody(t[1..]))
    else if |t| >= 6 && t[1] == LETTER_U then
      match FourHex(t[2..6])
      case Some(u) => Prepend(u, ReadBody(t[6..]))
      case None => Bad
    else if |t| >= 2 && Unescape(t[1]).Some? then Prepend(Unescape(t[1]).value, ReadBody(t[2..]))
    else Bad
  }

  /** How many numeral units a text starts with. */
  function NumeralLength(t: JsString): (n: nat)
    ensures n <= |t|
  {
    if t == [] || !IsNumeralUnit(t[0]) then 0 else 1 + NumeralLength(t[1..])
  }

  function Literal(text: string, v: Json, t: JsString): (r: Got<Json>)
    requires text != "" && forall i :: 0 <= i < |text| ==> (text[i] as int) < 0x1_0000
    ensures r.Got? ==> |r.rest| < |t|
  {
    if Units(text) <= t then Got(v, t[|text|..]) else Bad
  }

  function ReadValue(t: JsString): (r: Got<Json>)
    ensures r.Got? ==> |r.rest| < |t|
    decreases |t|, 0
  {
    if t == [] then Bad
    else if t[0] == QUOTE then
      match ReadBody(t[1..])
      case Got(s, rest) => Got(Str(s), rest)
      case Bad => Bad
    else if t[0] == OPEN_BRACKET then
      if |t| >= 2 && t[1] == CLOSE_BRACKET then Got(Arr([]), t[2..])
      else
        match ReadItems(t[1..])
        case Got(items, rest) => Got(Arr(items), rest)
        case Bad => Bad
    else if t[0] == OPEN_BRACE then
      if |t| >= 2 && t[1] == CLOSE_BRACE then Got(Obj([]), t[2..])
      else
        match ReadMembers(t[1..])
        case Got(members, rest) => Got(Obj(members), rest)
        case Bad => Bad
    else if IsDigit(t[0]) || t[0] == MINUS then
      var n := NumeralLength(t);
      if n == 0 then Bad else Got(Number(t[..n]), t[n..])
    else if t[0] == 'n' as int then Literal("null", Null, t)
    else if t[0] == 't' as int then Literal("true", Bool(true), t)
    else Literal("false", Bool(false), t)
  }

  /** The items of an array, up to its closing bracket. */
  function ReadItems(t: JsString): (r: Got<seq<Json>>)
    ensures r.Got? ==> |r.rest| < |t|
    decreases |t|, 1
  {
    match ReadValue(t)
    case Bad => Bad
    case Got(v, rest) =>
      if rest == [] then Bad
      else if rest[0] == CLOSE_BRACKET then Got([v], rest[1..])
      else if rest[0] == COMMA then
        match ReadItems(rest[1..])
        case Got(items, end) => Got([v] + items, end)
        case Bad => Bad
      else Bad
  }

  function ReadMember(t: JsString): (r: Got<Member>)
    ensures r.Got? ==> |r.rest| < |t|
    decreases |t|, 1
  {
    if t == [] || t[0] != QUOTE then Bad
    else
      match ReadBody(t[1..])
      case Bad => Bad
      case Got(key, rest) =>
        if rest == [] || rest[0] != COLON then Bad
        else
          match ReadValue(rest[1..])
          case Got(v, end) => Got(Member(key, v), end)
          case Bad => Bad
  }

  /** The members of an object, up to its closing brace. */
  function ReadMembers(t: JsString): (r: Got<seq<Member>>)
    ensures r.Got? ==> |r.rest| < |t|
    decreases |t|, 2
  {
    match ReadMember(t)
    case Bad => Bad
    case Got(m, rest) =>
      if rest == [] then Bad
      else if rest[0] == CLOSE_BRACE then Got([m], rest[1..])
      else if rest[0] == COMMA then
        match ReadMembers(rest[1..])
        case Got(members, end) => Got([m] + members, end)
        case Bad => Bad
      else Bad
  }

  // ----- a printed string reads back -----------------------------------------------------------

  lemma HexReads(n: int)
    requires 0 <= n < 16
    ensures HexValue(HexDigit(n)) == Some(n)
  {
  }

  lemma Nibbles(u: Unit)
    ensures u == (((u / 0x1000) * 16 + u / 0x100 % 0x10) * 16 + u / 0x10 % 0x10) * 16 + u % 0x10
  {
    assert u / 0x100 == u / 0x10 / 0x10 && u / 0x1000 == u / 0x10 / 0x10 / 0x10;
  }

  lemma FourHexReads(u: Unit)
    ensures FourHex(UnicodeEscape(u)[2..6]) == Some(u)
  {
    HexReads(u / 0x1000);
    HexReads(u / 0x100 % 0x10);
    HexReads(u / 0x10 % 0x10);
    HexReads(u % 0x10);
    hide HexDigit;
    hide HexValue;
    Nibbles(u);
  }

  lemma UnitReads(u: Unit, angles: bool, rest: JsString)
    ensures ReadBody(EscapeUnit(u, angles) + rest) == Prepend(u, ReadBody(rest))
  {
    var e := EscapeUnit(u, angles);
    var t := e + rest;
    assert t[|e|..] == rest && t[0] == e[0];
    if |e| == 6 {
      FourHexReads(u);
      assert t[2..6] == e[2..6] && t[1] == e[1];
    } else if |e| == 2 {
      assert t[1] == e[1];
    }
    hide FourHex;
    hide UnicodeEscape;
  }

  lemma PlainReads(u: Unit, rest: JsString)
    requires u >= 0x20 && u != QUOTE && u != BACKSLASH
    ensures ReadBody([u] + rest) == Prepend(u, ReadBody(rest))
  {
    assert ([u] + rest)[1..] == rest;
  }

  lemma PairReads(high: Unit, low: Unit, rest: JsString)
    requires high >= 0x80 && low >= 0x80
    ensures ReadBody([high, low] + rest) == Prepend(high, Prepend(low, ReadBody(rest)))
  {
    PlainReads(low, rest);
    PlainReads(high, [low] + rest);
    assert [high, low] + rest == [high] + ([low] + rest);
    hide ReadBody;
  }

  /** A printed string, with `<` escaped or not, reads back as itself. */
  lemma {:induction false} BodyReads(s: JsString, angles: bool, rest: JsString)
    ensures ReadBody(QuoteBody(s, angles) + ([QUOTE] + rest)) == Got(s, rest)
    decreases |s|
  {
    var end := [QUOTE] + rest;
    if s == [] {
      assert QuoteBody(s, angles) + end == end && end[1..] == rest;
    } else if StartsPair(s) {
      hide ReadBody;
      BodyReads(s[2..], angles, rest);
      PairReads(s[0], s[1], QuoteBody(s[2..], angles) + end);
      Grouped([s[0], s[1]], QuoteBody(s[2..], angles), end);
      assert s == [s[0]] + ([s[1]] + s[2..]);
    } else {
      hide ReadBody;
      hide EscapeUnit;
      BodyReads(s[1..], angles, rest);
      UnitReads(s[0], angles, QuoteBody(s[1..], angles) + end);
      Grouped(EscapeUnit(s[0], angles), QuoteBody(s[1..], angles), end);
      assert s == [s[0]] + s[1..];
    }
  }

  lemma Grouped(a: JsString, b: JsString, c: JsString)
    ensures a + b + c == a + (b + c)
  {
  }

  lemma QuoteReads(s: JsString, rest: JsString)
    ensures var t := Quote(s) + rest; t[0] == QUOTE && ReadBody(t[1..]) == Got(s, rest)
  {
    BodyReads(s, false, rest);
    assert (Quote(s) + rest)[1..] == QuoteBody(s, false) + ([QUOTE] + rest);
    hide QuoteBody;
  }

  // ----- a printed value reads back --------------------------------------------------------------

  /** What may stand after a value: nothing, or a unit no numeral goes on with. */
  predicate Ends(x: JsString) {
    x == [] || !IsNumeralUnit(x[0])
  }

  lemma {:induction false} NumeralReads(t: JsString, rest: JsString)
    requires (forall i :: 0 <= i < |t| ==> IsNumeralUnit(t[i])) && Ends(rest)
    ensures NumeralLength(t + rest) == |t|
  {
    if t == [] {
      assert t + rest == rest;
    } else {
      assert (t + rest)[1..] == t[1..] + rest;
      NumeralReads(t[1..], rest);
    }
  }

  lemma LiteralReads(text: string, v: Json, rest: JsString)
    requires text != "" && forall i :: 0 <= i < |text| ==> (text[i] as int) < 0x1_0000
    ensures Literal(text, v, Units(text) + rest) == Got(v, rest)
  {
    assert (Units(text) + rest)[|text|..] == rest;
  }

  /** No value starts with a bracket or a brace that closes. */
  lemma PrintStarts(v: Json)
    requires WellFormed(v)
    ensures Print(v) != [] && Print(v)[0] != CLOSE_BRACKET
  {
    hide QuoteBody;
  }

  lemma ItemsStart(items: seq<Json>)
    requires items != [] && WellFormed(items[0])
    ensures PrintItems(items) != [] && PrintItems(items)[0] != CLOSE_BRACKET
  {
    PrintStarts(items[0]);
    hide Print;
  }

  lemma StringReads(text: JsString, rest: JsString)
    ensures ReadValue(Quote(text) + rest) == Got(Str(text), rest)
  {
    QuoteReads(text, rest);
    hide ReadBody;
    hide QuoteBody;
  }

  lemma NumberReads(numeral: JsString, rest: JsString)
    requires IsNumeral(numeral) && Ends(rest)
    ensures ReadValue(numeral + rest) == Got(Number(numeral), rest)
  {
    NumeralReads(numeral, rest);
    assert (numeral + rest)[..|numeral|] == numeral && (numeral + rest)[|numeral|..] == rest;
    hide NumeralLength;
  }

  /** A bracketed text, opened and closed by these. */
  lemma Bracketed(open: Unit, body: JsString, close: Unit, rest: JsString)
    ensures var t := [open] + body + [close] + rest;
      && |t| >= 2 && t[0] == open && t[1..] == body + ([close] + rest)
      && (body == [] ==> t[1] == close && t[2..] == rest) && (body != [] ==> t[1] == body[0])
  {
  }

  lemma EmptyArrayReads(t: JsString)
    requires |t| >= 2 && t[0] == OPEN_BRACKET && t[1] == CLOSE_BRACKET
    ensures ReadValue(t) == Got(Arr([]), t[2..])
  {
    hide ReadBody;
    hide ReadItems;
    hide ReadMembers;
  }

  lemma EmptyObjectReads(t: JsString)
    requires |t| >= 2 && t[0] == OPEN_BRACE && t[1] == CLOSE_BRACE
    ensures ReadValue(t) == Got(Obj([]), t[2..])
  {
    hide ReadBody;
    hide ReadItems;
    hide ReadMembers;
  }

  lemma ArrayReads(items: seq<Json>, rest: JsString)
    requires items != [] ==>
        WellFormed(items[0]) && ReadItems(PrintItems(items) + ([CLOSE_BRACKET] + rest)) == Got(items, rest)
    ensures ReadValue(Print(Arr(items)) + rest) == Got(Arr(items), rest)
  {
    var body := PrintItems(items);
    assert Print(Arr(items)) == [OPEN_BRACKET] + body + [CLOSE_BRACKET];
    Bracketed(OPEN_BRACKET, body, CLOSE_BRACKET, rest);
    if items == [] {
      assert body == [];
      EmptyArrayReads(Print(Arr(items)) + rest);
    } else {
      ItemsStart(items);
    }
    hide Print;
    hide PrintItems;
    hide WellFormed;
    hide ReadItems;
    hide ReadMembers;
    hide ReadBody;
  }

  lemma ObjectReads(members: seq<Member>, rest: JsString)
    requires members != [] ==> ReadMembers(PrintMembers(members) + ([CLOSE_BRACE] + rest)) == Got(members, rest)
    ensures ReadValue(Print(Obj(members)) + rest) == Got(Obj(members), rest)
  {
    var body := PrintMembers(members);
    assert Print(Obj(members)) == [OPEN_BRACE] + body + [CLOSE_BRACE];
    Bracketed(OPEN_BRACE, body, CLOSE_BRACE, rest);
    if members == [] {
      assert body == [];
      EmptyObjectReads(Print(Obj(members)) + rest);
    } else {
      MembersStart(members);
    }
    hide Print;
    hide PrintMembers;
    hide ReadItems;
    hide ReadMembers;
    hide ReadBody;
  }

  lemma MembersStart(members: seq<Member>)
    requires members != []
    ensures PrintMembers(members) != [] && PrintMembers(members)[0] == QUOTE
  {
    hide QuoteBody;
    hide Print;
  }

  /** What a value prints reads back as that value. */
  lemma {:induction false} PrintReads(v: Json, rest: JsString)
    requires WellFormed(v) && Ends(rest)
    ensures ReadValue(Print(v) + rest) == Got(v, rest)
    decreases v, 1
  {
    hide ReadItems;
    hide ReadMembers;
    hide ReadBody;
    hide PrintItems;
    hide PrintMembers;
    match v {
      case Null => LiteralReads("null", v, rest);
      case Bool(b) => LiteralReads(if b then "true" else "false", v, rest);
      case Number(numeral) => NumberReads(numeral, rest);
      case Str(s) => StringReads(s, rest);
      case Arr(items) =>
        if items != [] { ItemsRead(v, items, rest); }
        ArrayReads(items, rest);
      case Obj(members) =>
        if members != [] { MembersRead(v, members, rest); }
        ObjectReads(members, rest);
    }
  }

  lemma NextItem(items: seq<Json>, rest: JsString)
    requires |items| > 1
    requires var more := PrintItems(items[1..]) + ([CLOSE_BRACKET] + rest);
      ReadItems(more) == Got(items[1..], rest) &&
      ReadValue(Print(items[0]) + ([COMMA] + more)) == Got(items[0], [COMMA] + more)
    ensures ReadItems(PrintItems(items) + ([CLOSE_BRACKET] + rest)) == Got(items, rest)
  {
    var more := PrintItems(items[1..]) + ([CLOSE_BRACKET] + rest);
    assert PrintItems(items) == Print(items[0]) + ([COMMA] + PrintItems(items[1..]));
    hide PrintItems;
    hide Print;
    hide ReadValue;
    Grouped(Print(items[0]), [COMMA] + PrintItems(items[1..]), [CLOSE_BRACKET] + rest);
    Grouped([COMMA], PrintItems(items[1..]), [CLOSE_BRACKET] + rest);
    assert ([COMMA] + more)[1..] == more && items == [items[0]] + items[1..];
  }

  lemma {:induction false} ItemsRead(whole: Json, items: seq<Json>, rest: JsString)
    requires whole.Arr? && items != [] && forall i :: 0 <= i < |items| ==> items[i] in whole.items
    requires forall i :: 0 <= i < |items| ==> WellFormed(items[i])
    ensures ReadItems(PrintItems(items) + ([CLOSE_BRACKET] + rest)) == Got(items, rest)
    decreases whole, 0, |items|
  {
    if |items| == 1 {
      PrintReads(items[0], [CLOSE_BRACKET] + rest);
      assert items == [items[0]];
    } else {
      var more := PrintItems(items[1..]) + ([CLOSE_BRACKET] + rest);
      PrintReads(items[0], [COMMA] + more);
      ItemsRead(whole, items[1..], rest);
      NextItem(items, rest);
    }
    hide ReadValue;
    hide WellFormed;
  }

  /** A member reads as its key and whatever its value's text reads as. */
  lemma KeyReads(key: JsString, text: JsString, v: Json, rest: JsString)
    requires ReadValue(text) == Got(v, rest)
    ensures ReadMember(Quote(key) + ([COLON] + text)) == Got(Member(key, v), rest)
  {
    QuoteReads(key, [COLON] + text);
    assert ([COLON] + text)[1..] == text;
    hide Quote;
    hide ReadBody;
    hide ReadValue;
  }

  lemma MemberReads(m: Member, rest: JsString)
    requires ReadValue(Print(m.value) + rest) == Got(m.value, rest)
    ensures ReadMember(PrintMember(m) + rest) == Got(m, rest)
  {
    KeyReads(m.key, Print(m.value) + rest, m.value, rest);
    Grouped(Quote(m.key), [COLON] + Print(m.value), rest);
    Grouped([COLON], Print(m.value), rest);
    hide Print;
    hide Quote;
    hide ReadMember;
    hide ReadValue;
  }

  /** So does an object of one member. */
  lemma OneMemberReads(t: JsString, m: Member, rest: JsString)
    requires t != [] && t[0] == QUOTE && ReadMember(t) == Got(m, [CLOSE_BRACE] + rest)
    ensures ReadValue([OPEN_BRACE] + t) == Got(Obj([m]), rest)
  {
    assert ([OPEN_BRACE] + t)[1..] == t && ([CLOSE_BRACE] + rest)[1..] == rest;
    assert ReadMembers(t) == Got([m], rest) by { hide ReadMember; }
    hide ReadMember;
    hide ReadMembers;
    hide ReadItems;
    hide ReadBody;
  }

  lemma LastMember(m: Member, rest: JsString)
    requires ReadMember(PrintMember(m) + ([CLOSE_BRACE] + rest)) == Got(m, [CLOSE_BRACE] + rest)
    ensures ReadMembers(PrintMembers([m]) + ([CLOSE_BRACE] + rest)) == Got([m], rest)
  {
    assert PrintMembers([m]) == PrintMember(m);
    assert ([CLOSE_BRACE] + rest)[1..] == rest;
    hide PrintMember;
    hide ReadMember;
  }

  lemma MembersGrouped(members: seq<Member>, end: JsString)
    requires |members| > 1
    ensures PrintMembers(members) + end == PrintMember(members[0]) + ([COMMA] + (PrintMembers(members[1..]) + end))
  {
    var first, others := PrintMember(members[0]), PrintMembers(members[1..]);
    assert PrintMembers(members) == first + ([COMMA] + others);
    hide PrintMembers;
    hide PrintMember;
    Grouped(first, [COMMA] + others, end);
    Grouped([COMMA], others, end);
  }

  lemma MembersGoOn(t: JsString, m: Member, more: JsString, tail: seq<Member>, rest: JsString)
    requires ReadMember(t) == Got(m, [COMMA] + more) && ReadMembers(more) == Got(tail, rest)
    ensures ReadMembers(t) == Got([m] + tail, rest)
  {
    hide ReadMember;
    assert ([COMMA] + more)[1..] == more;
  }

  lemma NextMember(members: seq<Member>, rest: JsString)
    requires |members| > 1
    requires var more := PrintMembers(members[1..]) + ([CLOSE_BRACE] + rest);
      ReadMembers(more) == Got(members[1..], rest) &&
      ReadMember(PrintMember(members[0]) + ([COMMA] + more)) == Got(members[0], [COMMA] + more)
    ensures ReadMembers(PrintMembers(members) + ([CLOSE_BRACE] + rest)) == Got(members, rest)
  {
    hide PrintMembers;
    hide PrintMember;
    hide ReadMember;
    hide ReadMembers;
    var more := PrintMembers(members[1..]) + ([CLOSE_BRACE] + rest);
    MembersGrouped(members, [CLOSE_BRACE] + rest);
    MembersGoOn(PrintMember(members[0]) + ([COMMA] + more), members[0], more, members[1..], rest);
    assert members == [members[0]] + members[1..];
  }

  lemma {:induction false} MembersRead(whole: Json, members: seq<Member>, rest: JsString)
    requires whole.Obj? && members != [] && forall i :: 0 <= i < |members| ==> members[i] in whole.members
    requires forall i :: 0 <= i < |members| ==> WellFormed(members[i].value)
    ensures ReadMembers(PrintMembers(members) + ([CLOSE_BRACE] + rest)) == Got(members, rest)
    decreases whole, 0, |members|
  {
    hide ReadMembers;
    hide ReadMember;
    hide ReadValue;
    hide PrintMembers;
    hide WellFormed;
    assert members[0] in whole.members;
    if |members| == 1 {
      PrintReads(members[0].value, [CLOSE_BRACE] + rest);
      MemberReads(members[0], [CLOSE_BRACE] + rest);
      LastMember(members[0], rest);
      assert members == [members[0]];
    } else {
      var more := PrintMembers(members[1..]) + ([CLOSE_BRACE] + rest);
      PrintReads(members[0].value, [COMMA] + more);
      MemberReads(members[0], [COMMA] + more);
      MembersRead(whole, members[1..], rest);
      NextMember(members, rest);
    }
  }

  /** Reading what was printed gives the value back, with nothing left. */
  lemma PrintReadsBack(v: Json)
    requires WellFormed(v)
    ensures ReadValue(Print(v)) == Got(v, [])
  {
    PrintReads(v, []);
    assert Print(v) + [] == Print(v);
  }

  /** Values that print the same are the same. */
  lemma PrintInjective(a: Json, b: Json)
    requires WellFormed(a) && WellFormed(b)
    ensures Print(a) == Print(b) <==> a == b
  {
    PrintReadsBack(a);
    PrintReadsBack(b);
    hide ReadValue;
    hide WellFormed;
  }
}
