/**
 The JSON texts a source map may be (sections 2 to 7 of RFC 8259), as concrete syntax trees.

 A tree keeps its whitespace, so a tree has one text (`Render`).  `WellFormed` holds the
 conditions that packages/ingestion/debugid/debugid.go puts on top of the grammar: distinct
 decoded member names, paired surrogates and finite numbers.  Which number texts are finite is
 a parameter: it is what Go's strconv.ParseFloat says.
 */
module JsonGrammar {
  import opened Wrappers

  const QUOTE: byte := 0x22
  const BACKSLASH: byte := 0x5C
  const LOWER_U: byte := 0x75
  const MINUS: byte := 0x2D
  const PLUS: byte := 0x2B
  const POINT: byte := 0x2E
  const COMMA: byte := 0x2C
  const COLON: byte := 0x3A
  const OPEN_BRACE: byte := 0x7B
  const CLOSE_BRACE: byte := 0x7D
  const OPEN_BRACKET: byte := 0x5B
  const CLOSE_BRACKET: byte := 0x5D
  const TRUE_TEXT: Bytes := [0x74, 0x72, 0x75, 0x65]
  const FALSE_TEXT: Bytes := [0x66, 0x61, 0x6C, 0x73, 0x65]
  const NULL_TEXT: Bytes := [0x6E, 0x75, 0x6C, 0x6C]

  /** The deepest nesting accepted, counting a scalar as one level. */
  const MAX_DEPTH := 64

  // ---------------------------------------------------------------- whitespace

  predicate IsBlank(b: byte) {
    b == 0x20 || b == 0x0A || b == 0x0D || b == 0x09
  }

  predicate Blank(s: Bytes) {
    forall k :: 0 <= k < |s| ==> IsBlank(s[k])
  }

  // ---------------------------------------------------------------- strings

  /** One character of a string literal, as written. */
  datatype Item =
    | Plain(b: byte)
    | Escape(c: byte)
    | Code(hex: Bytes)
    | Pair(high: Bytes, low: Bytes)

  predicate IsDigit(b: byte) { 0x30 <= b <= 0x39 }

  predicate IsHex(b: byte) { IsDigit(b) || 0x41 <= b <= 0x46 || 0x61 <= b <= 0x66 }

  function HexDigit(b: byte): nat
    requires IsHex(b)
    ensures HexDigit(b) < 16
  {
    if IsDigit(b) then b - 0x30 else if b <= 0x46 then b - 0x41 + 10 else b - 0x61 + 10
  }

  predicate IsHex4(h: Bytes) {
    |h| == 4 && IsHex(h[0]) && IsHex(h[1]) && IsHex(h[2]) && IsHex(h[3])
  }

  function HexValue(h: Bytes): (v: nat)
    requires IsHex4(h)
    ensures v < 0x10000
  {
    ((HexDigit(h[0]) * 16 + HexDigit(h[1])) * 16 + HexDigit(h[2])) * 16 + HexDigit(h[3])
  }

  predicate IsHigh(code: nat) { 0xD800 <= code <= 0xDBFF }
  predicate IsLow(code: nat) { 0xDC00 <= code <= 0xDFFF }

  predicate IsPlain(b: byte) {
    b >= 0x20 && b != QUOTE && b != BACKSLASH
  }

  /** The single-character escapes: quote, backslash, slash, b, f, n, r and t. */
  predicate IsEscape(c: byte) {
    c == QUOTE || c == BACKSLASH || c == 0x2F || c == 0x62 || c == 0x66 || c == 0x6E || c == 0x72 || c == 0x74
  }

  predicate ItemOk(i: Item) {
    match i
    case Plain(b) => IsPlain(b)
    case Escape(c) => IsEscape(c)
    case Code(hex) => IsHex4(hex) && !IsHigh(HexValue(hex)) && !IsLow(HexValue(hex))
    case Pair(high, low) => IsHex4(high) && IsHigh(HexValue(high)) && IsHex4(low) && IsLow(HexValue(low))
  }

  predicate ItemsOk(items: seq<Item>) {
    forall k :: 0 <= k < |items| ==> ItemOk(items[k])
  }

  function RenderItem(i: Item): Bytes {
    match i
    case Plain(b) => [b]
    case Escape(c) => [BACKSLASH, c]
    case Code(hex) => [BACKSLASH, LOWER_U] + hex
    case Pair(high, low) => [BACKSLASH, LOWER_U] + (high + ([BACKSLASH, LOWER_U] + low))
  }

  function RenderItems(items: seq<Item>): Bytes {
    if items == [] then [] else RenderItem(items[0]) + RenderItems(items[1..])
  }

  /** The UTF-8 bytes of a code point. */
  function Utf8(code: nat): Bytes
    requires code < 0x110000
  {
    if code < 0x80 then [code]
    else if code < 0x800 then [0xC0 + code / 0x40, 0x80 + code % 0x40]
    else if code < 0x10000 then [0xE0 + code / 0x1000, 0x80 + code / 0x40 % 0x40, 0x80 + code % 0x40]
    else [0xF0 + code / 0x40000, 0x80 + code / 0x1000 % 0x40, 0x80 + code / 0x40 % 0x40, 0x80 + code % 0x40]
  }

  function Unescape(c: byte): byte {
    if c == 0x62 then 0x08
    else if c == 0x66 then 0x0C
    else if c == 0x6E then 0x0A
    else if c == 0x72 then 0x0D
    else if c == 0x74 then 0x09
    else c
  }

  /** The bytes a character of a literal stands for. */
  function Meaning(i: Item): Bytes
    requires ItemOk(i)
  {
    match i
    case Plain(b) => [b]
    case Escape(c) => [Unescape(c)]
    case Code(hex) => Utf8(HexValue(hex))
    case Pair(high, low) => Utf8(0x10000 + (HexValue(high) - 0xD800) * 0x400 + (HexValue(low) - 0xDC00))
  }

  function Meanings(items: seq<Item>): Bytes
    requires ItemsOk(items)
  {
    if items == [] then [] else Meaning(items[0]) + Meanings(items[1..])
  }

  // ---------------------------------------------------------------- numbers

  predicate AllDigits(s: Bytes) {
    forall k :: 0 <= k < |s| ==> IsDigit(s[k])
  }

  predicate IsSign(s: Bytes) { s == [] || s == [MINUS] }

  predicate IsInt(s: Bytes) {
    s == [0x30] || (s != [] && 0x31 <= s[0] <= 0x39 && AllDigits(s))
  }

  predicate IsFrac(s: Bytes) {
    s == [] || (|s| >= 2 && s[0] == POINT && AllDigits(s[1..]))
  }

  predicate IsExp(s: Bytes) {
    s == []
    || (|s| >= 2 && (s[0] == 0x65 || s[0] == 0x45) && AllDigits(s[1..]))
    || (|s| >= 3 && (s[0] == 0x65 || s[0] == 0x45) && (s[1] == PLUS || s[1] == MINUS) && AllDigits(s[2..]))
  }

  // ---------------------------------------------------------------- trees

  datatype Value =
    | Literal(text: Bytes)
    | Number(sign: Bytes, whole: Bytes, frac: Bytes, exp: Bytes)
    | String(items: seq<Item>)
    | EmptyArray(blank: Bytes)
    | Array(open: Bytes, elements: Elements)
    | EmptyObject(blank: Bytes)
    | Object(open: Bytes, members: Members)

  datatype Elements =
    | LastElement(value: Value, after: Bytes)
    | MoreElements(value: Value, after: Bytes, before: Bytes, rest: Elements)

  datatype Members =
    | LastMember(name: seq<Item>, beforeColon: Bytes, afterColon: Bytes, value: Value, after: Bytes)
    | MoreMembers(name: seq<Item>, beforeColon: Bytes, afterColon: Bytes, value: Value, after: Bytes,
                  before: Bytes, rest: Members)

  function RenderString(items: seq<Item>): Bytes {
    [QUOTE] + RenderItems(items) + [QUOTE]
  }

  function NumberText(sign: Bytes, whole: Bytes, frac: Bytes, exp: Bytes): Bytes {
    sign + (whole + (frac + exp))
  }

  function Render(v: Value): Bytes {
    match v
    case Literal(text) => text
    case Number(sign, whole, frac, exp) => NumberText(sign, whole, frac, exp)
    case String(items) => RenderString(items)
    case EmptyArray(blank) => [OPEN_BRACKET] + blank + [CLOSE_BRACKET]
    case Array(open, elements) => [OPEN_BRACKET] + open + RenderElements(elements) + [CLOSE_BRACKET]
    case EmptyObject(blank) => [OPEN_BRACE] + blank + [CLOSE_BRACE]
    case Object(open, members) => [OPEN_BRACE] + open + RenderMembers(members) + [CLOSE_BRACE]
  }

  function RenderElements(es: Elements): Bytes {
    match es
    case LastElement(v, after) => Render(v) + after
    case MoreElements(v, after, before, rest) => Render(v) + after + [COMMA] + before + RenderElements(rest)
  }

  function RenderPair(m: Members): Bytes
    decreases m, 0
  {
    RenderString(m.name) + m.beforeColon + [COLON] + m.afterColon + Render(m.value) + m.after
  }

  function RenderMembers(ms: Members): Bytes
    decreases ms, 1
  {
    match ms
    case LastMember(_, _, _, _, _) => RenderPair(ms)
    case MoreMembers(_, _, _, _, _, before, rest) => RenderPair(ms) + [COMMA] + before + RenderMembers(rest)
  }

  /** Nesting depth; a scalar or an empty container is one level. */
  function Height(v: Value): nat
    ensures Height(v) >= 1
  {
    match v
    case Array(_, elements) => 1 + ElementsHeight(elements)
    case Object(_, members) => 1 + MembersHeight(members)
    case _ => 1
  }

  function Max(a: nat, b: nat): nat { if a >= b then a else b }

  function ElementsHeight(es: Elements): nat {
    if es.LastElement? then Height(es.value) else Max(Height(es.value), ElementsHeight(es.rest))
  }

  function MembersHeight(ms: Members): nat {
    if ms.LastMember? then Height(ms.value) else Max(Height(ms.value), MembersHeight(ms.rest))
  }

  /** The decoded member names, in order. */
  function Names(ms: Members): seq<Bytes>
    requires NamesOk(ms)
  {
    [Meanings(ms.name)] + (if ms.LastMember? then [] else Names(ms.rest))
  }

  predicate NamesOk(ms: Members) {
    ItemsOk(ms.name) && (ms.MoreMembers? ==> NamesOk(ms.rest))
  }

  predicate Distinct<T(==)>(s: seq<T>) {
    forall i, j :: 0 <= i < j < |s| ==> s[i] != s[j]
  }

  predicate WellFormed(fin: Bytes -> bool, v: Value) {
    match v
    case Literal(text) => text == TRUE_TEXT || text == FALSE_TEXT || text == NULL_TEXT
    case Number(sign, whole, frac, exp) =>
      IsSign(sign) && IsInt(whole) && IsFrac(frac) && IsExp(exp) && fin(NumberText(sign, whole, frac, exp))
    case String(items) => ItemsOk(items)
    case EmptyArray(blank) => Blank(blank)
    case Array(open, elements) => Blank(open) && ElementsOk(fin, elements)
    case EmptyObject(blank) => Blank(blank)
    case Object(open, members) =>
      Blank(open) && MembersOk(fin, members) && NamesOk(members) && Distinct(Names(members))
  }

  predicate ElementsOk(fin: Bytes -> bool, es: Elements) {
    WellFormed(fin, es.value) && Blank(es.after)
    && (es.MoreElements? ==> Blank(es.before) && ElementsOk(fin, es.rest))
  }

  predicate MembersOk(fin: Bytes -> bool, ms: Members) {
    ItemsOk(ms.name) && Blank(ms.beforeColon) && Blank(ms.afterColon)
    && WellFormed(fin, ms.value) && Blank(ms.after)
    && (ms.MoreMembers? ==> Blank(ms.before) && MembersOk(fin, ms.rest))
  }

  /** A JSON text: one well-formed value, nested at most 64 deep, between whitespace. */
  ghost predicate IsJsonText(fin: Bytes -> bool, s: Bytes) {
    exists before: Bytes, v: Value, after: Bytes :: IsTextOf(fin, s, before, v, after)
  }

  ghost predicate IsTextOf(fin: Bytes -> bool, s: Bytes, before: Bytes, v: Value, after: Bytes) {
    s == before + Render(v) + after
    && Blank(before) && Blank(after) && WellFormed(fin, v) && Height(v) <= MAX_DEPTH
  }
}
