/**
 Project keys: minting and parsing (packages/ingestion/db/project_keys.go) and the endpoint payload
 of source-map keys (packages/ingestion/db/sk_payload.go).

 Strings are Go strings: one character stands for one byte.  JSON decoding, the time and URL libraries and
 the hash are the fields of `Libs`; JSON encoding is modelled, because its escapes decide how long a key is.
 */
module ProjectKey {
  import opened Wrappers

  const SEP := '_'
  const KEY_ID_BYTES := 16
  const SECRET_BYTES := 32
  const KEY_ID_LEN := 26
  const SECRET_LEN := 43
  const MAX_RAW_KEY_LEN := 4096
  const MAX_PAYLOAD_URL := 2048

  // ---------------------------------------------------------------- bits

  function Pow2(w: nat): nat { if w == 0 then 1 else 2 * Pow2(w - 1) }

  function ToBits(v: nat, w: nat): (bits: seq<bool>)
    ensures |bits| == w
  {
    if w == 0 then [] else ToBits(v / 2, w - 1) + [v % 2 == 1]
  }

  function FromBits(bits: seq<bool>): (v: nat)
    ensures v < Pow2(|bits|)
  {
    if bits == [] then 0 else 2 * FromBits(bits[..|bits| - 1]) + (if bits[|bits| - 1] then 1 else 0)
  }

  lemma {:induction false} FromToBits(v: nat, w: nat)
    requires v < Pow2(w)
    ensures FromBits(ToBits(v, w)) == v
  {
    if w > 0 {
      FromToBits(v / 2, w - 1);
      assert ToBits(v, w)[..w - 1] == ToBits(v / 2, w - 1);
    }
  }

  lemma {:induction false} ToFromBits(bits: seq<bool>)
    ensures ToBits(FromBits(bits), |bits|) == bits
  {
    if bits != [] {
      ToFromBits(bits[..|bits| - 1]);
    }
  }

  /** The bits of numbers of `w` bits each, most significant first. */
  function Join(vs: seq<nat>, w: nat): seq<bool> {
    if vs == [] then [] else ToBits(vs[0], w) + Join(vs[1..], w)
  }

  /** The numbers that consecutive groups of `w` bits spell; leftover bits are dropped. */
  function Split(bits: seq<bool>, w: nat): (vs: seq<nat>)
    requires w > 0
    ensures forall i :: 0 <= i < |vs| ==> vs[i] < Pow2(w)
  {
    if |bits| < w then [] else [FromBits(bits[..w])] + Split(bits[w..], w)
  }

  function Zeros(n: nat): seq<bool> { seq(n, i => false) }

  /** Like `Split`, but leftover bits are filled up with zeros to one more group (RFC 4648, section 3.5). */
  function Regroup(bits: seq<bool>, w: nat): (vs: seq<nat>)
    requires w > 0
    ensures forall i :: 0 <= i < |vs| ==> vs[i] < Pow2(w)
  {
    if bits == [] then []
    else if |bits| < w then [FromBits(bits + Zeros(w - |bits|))]
    else [FromBits(bits[..w])] + Regroup(bits[w..], w)
  }

  lemma {:induction false} SplitJoin(vs: seq<nat>, w: nat, rest: seq<bool>)
    requires w > 0 && |rest| < w && forall i :: 0 <= i < |vs| ==> vs[i] < Pow2(w)
    ensures Split(Join(vs, w) + rest, w) == vs
  {
    if vs != [] {
      SplitJoin(vs[1..], w, rest);
      FromToBits(vs[0], w);
      hide ToBits, FromBits, Pow2, Join, Split;
      JoinNext(vs, w, rest);
      SplitNext(ToBits(vs[0], w), Join(vs[1..], w) + rest, w);
    } else {
      assert Join(vs, w) + rest == rest;
    }
  }

  lemma JoinNext(vs: seq<nat>, w: nat, rest: seq<bool>)
    requires vs != []
    ensures Join(vs, w) + rest == ToBits(vs[0], w) + (Join(vs[1..], w) + rest)
  {
    hide ToBits;
  }

  lemma SplitNext(head: seq<bool>, tail: seq<bool>, w: nat)
    requires w == |head| > 0
    ensures Split(head + tail, w) == [FromBits(head)] + Split(tail, w)
  {
    hide FromBits;
    assert (head + tail)[..w] == head && (head + tail)[w..] == tail;
  }

  lemma JoinFront(v: nat, vs: seq<nat>, w: nat)
    ensures Join([v] + vs, w) == ToBits(v, w) + Join(vs, w)
  {
    hide ToBits;
    assert ([v] + vs)[1..] == vs;
  }

  lemma {:induction false} JoinRegroup(bits: seq<bool>, w: nat) returns (fill: nat)
    requires w > 0
    ensures fill < w && Join(Regroup(bits, w), w) == bits + Zeros(fill)
  {
    hide ToBits, FromBits, Pow2, Join;
    if bits == [] {
      fill := 0;
      NothingJoined(w);
    } else if |bits| < w {
      fill := w - |bits|;
      var group := bits + Zeros(fill);
      ToFromBits(group);
      JoinFront(FromBits(group), [], w);
      NothingJoined(w);
      assert [FromBits(group)] + [] == Regroup(bits, w);
      assert ToBits(FromBits(group), w) + [] == group;
    } else {
      fill := JoinRegroup(bits[w..], w);
      ToFromBits(bits[..w]);
      JoinFront(FromBits(bits[..w]), Regroup(bits[w..], w), w);
      assert bits + Zeros(fill) == bits[..w] + (bits[w..] + Zeros(fill));
    }
  }

  lemma NothingJoined(w: nat)
    ensures Join([], w) == []
  {
  }

  /** Regrouping bytes into at most 8 bits and back gives the bytes. */
  lemma RegroupIsLossless(bytes: Bytes, w: nat)
    requires 0 < w <= 8
    ensures Split(Join(Regroup(Join(Values(bytes), 8), w), w), 8) == Values(bytes)
  {
    assert Pow2(8) == 256;
    var fill := JoinRegroup(Join(Values(bytes), 8), w);
    SplitJoin(Values(bytes), 8, Zeros(fill));
  }

  lemma {:induction false} JoinedBytes(vs: seq<nat>)
    ensures |Join(vs, 8)| == 8 * |vs|
  {
    if vs != [] {
      JoinedBytes(vs[1..]);
    }
  }

  lemma {:induction false} RegroupLength(bits: seq<bool>, w: nat)
    requires w == 5 || w == 6
    ensures |Regroup(bits, w)| == if w == 5 then (|bits| + 4) / 5 else (|bits| + 5) / 6
  {
    if |bits| >= w {
      RegroupLength(bits[w..], w);
    }
  }

  function Values(bytes: Bytes): (vs: seq<nat>)
    ensures |vs| == |bytes| && forall i :: 0 <= i < |vs| ==> vs[i] == bytes[i] as nat
  {
    seq(|bytes|, i requires 0 <= i < |bytes| => bytes[i] as nat)
  }

  // ---------------------------------------------------------------- base32 and base64url (RFC 4648)

  function Digit32(v: nat): char
    requires v < 32
  {
    if v < 26 then 'a' + v as char else '2' + (v - 26) as char
  }

  function Digit64(v: nat): char
    requires v < 64
  {
    if v < 26 then 'A' + v as char
    else if v < 52 then 'a' + (v - 26) as char
    else if v < 62 then '0' + (v - 52) as char
    else if v == 62 then '-' else '_'
  }

  predicate IsDigit32(c: char) { 'a' <= c <= 'z' || '2' <= c <= '7' }
  predicate IsDigit64(c: char) { 'A' <= c <= 'Z' || 'a' <= c <= 'z' || '0' <= c <= '9' || c == '-' || c == '_' }

  function Value64(c: char): (v: nat)
    requires IsDigit64(c)
    ensures v < 64 && Digit64(v) == c
  {
    if c == '-' then 62
    else if c == '_' then 63
    else if c <= '9' then (c - '0') as nat + 52
    else if c <= 'Z' then (c - 'A') as nat
    else (c - 'a') as nat + 26
  }

  /** Lower-case base32 without padding. */
  function Base32(bytes: Bytes): (s: string)
    ensures forall i :: 0 <= i < |s| ==> IsDigit32(s[i])
  {
    assert Pow2(5) == 32;
    var vs := Regroup(Join(Values(bytes), 8), 5);
    seq(|vs|, i requires 0 <= i < |vs| => Digit32(vs[i]))
  }

  /** base64url without padding. */
  function Base64(bytes: Bytes): (s: string)
    ensures forall i :: 0 <= i < |s| ==> IsDigit64(s[i])
  {
    assert Pow2(6) == 64;
    var vs := Regroup(Join(Values(bytes), 8), 6);
    seq(|vs|, i requires 0 <= i < |vs| => Digit64(vs[i]))
  }

  /** The decoder skips line breaks, wherever they are. */
  function SkipBreaks(s: string): (r: string) {
    if s == [] then [] else (if s[0] == '\n' || s[0] == '\r' then [] else [s[0]]) + SkipBreaks(s[1..])
  }

  /** Every value is the digit's, and the digit's value is it. */
  lemma ValueOfDigit(v: nat)
    requires v < 64
    ensures IsDigit64(Digit64(v)) && Value64(Digit64(v)) == v
  {
  }

  /** The bytes in groups of 6 bits. */
  function BytesOf(digits: seq<nat>): (bytes: Bytes)
    ensures Values(bytes) == Split(Join(digits, 6), 8)
  {
    var vs := Split(Join(digits, 6), 8);
    assert Pow2(8) == 256;
    seq(|vs|, i requires 0 <= i < |vs| => vs[i] as byte)
  }

  /** Decodes base64url without padding; a single leftover digit is an error, leftover bits are ignored. */
  function Decode64(s: string): Option<Bytes> {
    var ds := SkipBreaks(s);
    if |ds| % 4 != 1 && forall i :: 0 <= i < |ds| ==> IsDigit64(ds[i]) then
      Some(BytesOf(seq(|ds|, i requires 0 <= i < |ds| => Value64(ds[i]))))
    else None
  }

  lemma {:induction false} NoBreaks(s: string)
    requires forall i :: 0 <= i < |s| ==> IsDigit64(s[i])
    ensures SkipBreaks(s) == s
  {
    if s != [] {
      NoBreaks(s[1..]);
    }
  }

  lemma Base64Length(bytes: Bytes)
    ensures |Base64(bytes)| == (8 * |bytes| + 5) / 6
  {
    JoinedBytes(Values(bytes));
    RegroupLength(Join(Values(bytes), 8), 6);
  }

  lemma Base32Length(bytes: Bytes)
    ensures |Base32(bytes)| == (8 * |bytes| + 4) / 5
  {
    JoinedBytes(Values(bytes));
    RegroupLength(Join(Values(bytes), 8), 5);
  }

  /** Decoding gives back every byte string. */
  lemma DecodeEncode(bytes: Bytes)
    ensures Decode64(Base64(bytes)) == Some(bytes)
  {
    hide Join, Split, Regroup;
    assert Pow2(6) == 64 && Pow2(8) == 256;
    var s, vs := Base64(bytes), Regroup(Join(Values(bytes), 8), 6);
    NoBreaks(s);
    Base64Length(bytes);
    LengthIsDecodable(|bytes|);
    RegroupIsLossless(bytes, 6);
    forall i | 0 <= i < |vs| ensures Value64(s[i]) == vs[i] {
      ValueOfDigit(vs[i]);
    }
    assert seq(|s|, i requires 0 <= i < |s| => Value64(s[i])) == vs;
    SameValues(BytesOf(vs), bytes);
  }

  lemma SameValues(a: Bytes, b: Bytes)
    requires Values(a) == Values(b)
    ensures a == b
  {
    assert |a| == |b|;
    forall i | 0 <= i < |a| ensures a[i] == b[i] {
      assert Values(a)[i] == Values(b)[i];
    }
  }

  lemma LengthIsDecodable(n: nat)
    ensures ((8 * n + 5) / 6) % 4 != 1
  {
    var k := n / 3;
    assert n == 3 * k || n == 3 * k + 1 || n == 3 * k + 2;
    assert (8 * n + 5) / 6 == 4 * k || (8 * n + 5) / 6 == 4 * k + 2 || (8 * n + 5) / 6 == 4 * k + 3;
  }

  /** Different bytes have different base32 texts. */
  lemma Base32IsInjective(a: Bytes, b: Bytes)
    requires Base32(a) == Base32(b)
    ensures a == b
  {
    hide Join, Split, Regroup;
    assert Pow2(5) == 32;
    var vs, ws := Regroup(Join(Values(a), 8), 5), Regroup(Join(Values(b), 8), 5);
    RegroupIsLossless(a, 5);
    RegroupIsLossless(b, 5);
    assert |vs| == |Base32(a)| && |ws| == |Base32(b)|;
    forall i | 0 <= i < |vs| ensures vs[i] == ws[i] {
      assert Base32(a)[i] == Digit32(vs[i]) && Base32(b)[i] == Digit32(ws[i]);
    }
    assert vs == ws;
    SameValues(a, b);
  }

  // ---------------------------------------------------------------- libraries

  /** A decoded JSON value, as far as it matters here. */
  datatype Value = Number(n: int) | Text(s: string) | Null | Other

  /** The members a JSON decoder reads from a body, in order and with decoded names, and whether they make up one object
      with nothing after it. */
  datatype Members = Members(list: seq<(string, Value)>, closed: bool)

  /** A parsed URL, scheme and host name in lower case; `bare` means no user, query or fragment. */
  datatype Url = Url(scheme: string, authority: string, host: string, port: string, path: string, absolute: bool, bare: bool)

  datatype Libs = Libs(
    members: Bytes -> Members,
    formatTime: int -> string,
    isUtcTime: string -> bool,
    parseUrl: string -> Option<Url>,
    hash: string -> string)

  datatype Problem =
    | UnknownScope | EndpointRequired | EndpointForbidden
    | UrlTooLong | UrlInvalid | UrlScheme | UrlNotOrigin | UrlHostAscii | UrlPort | UrlNotCanonical
    | EmptyPayload | BadBase64 | BadJson | DuplicateField | MissingField | UnknownField | BadFieldType | BadVersion | BadIat

  datatype Result<+T> = Ok(value: T) | Err(problem: Problem)

  // ---------------------------------------------------------------- endpoints

  predicate IsDigits(s: string) { forall i :: 0 <= i < |s| ==> '0' <= s[i] <= '9' }

  function NumberOf(s: string): nat
    requires IsDigits(s)
  {
    if s == [] then 0 else NumberOf(s[..|s| - 1]) * 10 + (s[|s| - 1] - '0') as nat
  }

  predicate PortOk(port: string) {
    port != "" ==> IsDigits(port) && 1 <= NumberOf(port) <= 65535 && (|port| > 1 ==> port[0] != '0')
  }

  predicate Loopback(host: string) { host == "localhost" || host == "127.0.0.1" || host == "::1" }

  predicate Ascii(s: string) { forall i :: 0 <= i < |s| ==> s[i] < 128 as char }

  /** The port unless it is the scheme's own. */
  function EffectivePort(u: Url): string {
    if (u.scheme == "https" && u.port == "443") || (u.scheme == "http" && u.port == "80") then "" else u.port
  }

  /** An IPv6 literal goes in brackets. */
  function Bracketed(host: string): string { if ':' in host then "[" + host + "]" else host }

  function HostPort(host: string, port: string): string {
    if port == "" then Bracketed(host) else Bracketed(host) + ":" + port
  }

  function Origin(scheme: string, host: string, port: string): string {
    scheme + "://" + HostPort(host, port)
  }

  function CanonicalIngestURL(libs: Libs, raw: string): Result<string> {
    if |raw| > MAX_PAYLOAD_URL then Err(UrlTooLong)
    else
      match libs.parseUrl(raw)
      case None => Err(UrlInvalid)
      case Some(u) =>
        if u.authority == "" || !u.absolute then Err(UrlInvalid)
        else if u.scheme != "https" && (u.scheme != "http" || !Loopback(u.host)) then Err(UrlScheme)
        else if !u.bare || (u.path != "" && u.path != "/") then Err(UrlNotOrigin)
        else if !Ascii(u.host) then Err(UrlHostAscii)
        else if !PortOk(u.port) then Err(UrlPort)
        else Ok(Origin(u.scheme, u.host, EffectivePort(u)))
  }

  /** The last colon before digits is the one that separates them. */
  lemma LastColon(x: string, p: string, y: string, q: string)
    requires IsDigits(p) && x + ":" + p == y + ":" + q
    ensures |x| >= |y|
  {
    var s := x + ":" + p;
    assert s[|y|] == (y + ":" + q)[|y|] == ':';
    assert forall i :: |x| < i < |s| ==> s[i] == p[i - |x| - 1];
  }

  lemma ColonKept(h: string)
    ensures ':' in Bracketed(h) <==> ':' in h
    ensures ':' in h ==> Bracketed(h)[|h| + 1] == ']' && |Bracketed(h)| == |h| + 2 && Bracketed(h)[1..|h| + 1] == h
  {
    if ':' in h {
      var i :| 0 <= i < |h| && h[i] == ':';
      assert Bracketed(h)[i + 1] == ':';
    }
  }

  lemma BracketedIsInjective(h: string, g: string)
    requires Bracketed(h) == Bracketed(g)
    ensures h == g
  {
    ColonKept(h);
    ColonKept(g);
  }

  lemma BareIsNotPorted(h: string, x: string, q: string)
    requires IsDigits(q) && q != ""
    ensures Bracketed(h) != x + ":" + q
  {
    ColonKept(h);
    var s := x + ":" + q;
    assert s[|x|] == ':' && s[|s| - 1] == q[|q| - 1];
  }

  lemma HostPortIsInjective(h: string, p: string, g: string, q: string)
    requires IsDigits(p) && IsDigits(q) && HostPort(h, p) == HostPort(g, q)
    ensures h == g && p == q
  {
    hide Bracketed, IsDigits;
    if p == "" && q != "" {
      BareIsNotPorted(h, Bracketed(g), q);
    } else if p != "" && q == "" {
      BareIsNotPorted(g, Bracketed(h), p);
    } else if p != "" {
      LastColon(Bracketed(h), p, Bracketed(g), q);
      LastColon(Bracketed(g), q, Bracketed(h), p);
      SameSplit(Bracketed(h), p, Bracketed(g), q);
      BracketedIsInjective(h, g);
    } else {
      BracketedIsInjective(h, g);
    }
  }

  lemma SameSplit(x: string, p: string, y: string, q: string)
    requires |x| == |y| && x + ":" + p == y + ":" + q
    ensures x == y && p == q
  {
    assert (x + ":" + p)[..|x|] == x && (x + ":" + p)[|x| + 1..] == p;
    assert (y + ":" + q)[..|x|] == y && (y + ":" + q)[|x| + 1..] == q;
  }

  /** Two accepted endpoints have the same canonical form exactly when they name the same origin. */
  lemma CanonicalNamesOneOrigin(libs: Libs, a: string, b: string)
    requires CanonicalIngestURL(libs, a).Ok? && CanonicalIngestURL(libs, b).Ok?
    ensures var u, v := libs.parseUrl(a).value, libs.parseUrl(b).value;
            CanonicalIngestURL(libs, a) == CanonicalIngestURL(libs, b) <==>
            u.scheme == v.scheme && u.host == v.host && EffectivePort(u) == EffectivePort(v)
  {
    hide PortOk, HostPort, Ascii;
    var u, v := libs.parseUrl(a).value, libs.parseUrl(b).value;
    var x, y := HostPort(u.host, EffectivePort(u)), HostPort(v.host, EffectivePort(v));
    if CanonicalIngestURL(libs, a) == CanonicalIngestURL(libs, b) {
      assert (u.scheme + "://" + x)[4] == (v.scheme + "://" + y)[4];
      assert u.scheme == v.scheme;
      assert (u.scheme + "://" + x)[|u.scheme| + 3..] == x && (v.scheme + "://" + y)[|v.scheme| + 3..] == y;
      PortIsDigits(u.port);
      PortIsDigits(v.port);
      HostPortIsInjective(u.host, EffectivePort(u), v.host, EffectivePort(v));
    }
  }

  lemma PortIsDigits(port: string)
    requires PortOk(port)
    ensures IsDigits(port)
  {
  }

  // ---------------------------------------------------------------- payloads

  datatype Payload = Payload(version: int, iat: string, url: string)

  /** A character of a JSON string as encoding/json writes it, with the characters special to HTML escaped as well. */
  function EscapeChar(c: char): (s: string)
    ensures |s| == CharCost(c)
  {
    if c == '\"' then "\\\""
    else if c == '\\' then "\\\\"
    else if c == '\n' then "\\n"
    else if c == '\r' then "\\r"
    else if c == '\t' then "\\t"
    else if c == '<' || c == '>' || c == '&' || c < ' ' then "\\u00" + [HexDigit(c as int / 16 % 16), HexDigit(c as int % 16)]
    else [c]
  }

  function HexDigit(n: nat): char
    requires n < 16
  {
    if n < 10 then '0' + n as char else 'a' + (n - 10) as char
  }

  /** How many bytes a character takes in a JSON string. */
  function CharCost(c: char): nat {
    if c == '\"' || c == '\\' || c == '\n' || c == '\r' || c == '\t' then 2
    else if c == '<' || c == '>' || c == '&' || c < ' ' then 6
    else 1
  }

  function Escape(s: string): (r: string)
    ensures |r| == EscapedLength(s)
  {
    if s == "" then "" else EscapeChar(s[0]) + Escape(s[1..])
  }

  function EscapedLength(s: string): nat {
    if s == "" then 0 else CharCost(s[0]) + EscapedLength(s[1..])
  }

  /** The body of a payload: an object with the version, the time and the endpoint. */
  function Marshal(iat: string, url: string): string {
    "{\"v\":1,\"iat\":\"" + Escape(iat) + "\",\"url\":\"" + Escape(url) + "\"}"
  }

  function ToBytes(s: string): (bytes: Bytes)
    ensures |bytes| == |s|
  {
    seq(|s|, i requires 0 <= i < |s| => (s[i] as int % 256) as byte)
  }

  function Body(libs: Libs, now: int, url: string): Bytes {
    ToBytes(Marshal(libs.formatTime(now), url))
  }

  predicate Plain(s: string) { forall i :: 0 <= i < |s| ==> CharCost(s[i]) == 1 }

  lemma {:induction false} PlainLength(s: string)
    requires Plain(s)
    ensures EscapedLength(s) == |s|
  {
    if s != "" {
      PlainLength(s[1..]);
    }
  }

  lemma {:induction false} EscapedLengthConcat(a: string, b: string)
    ensures EscapedLength(a + b) == EscapedLength(a) + EscapedLength(b)
  {
    if a == "" {
      assert a + b == b;
    } else {
      assert (a + b)[1..] == a[1..] + b;
      EscapedLengthConcat(a[1..], b);
    }
  }

  /** A formatted UTC time, such as 2026-01-02T03:04:05Z. */
  predicate IsTimestamp(s: string) {
    |s| == 20 && forall i :: 0 <= i < |s| ==> '0' <= s[i] <= '9' || s[i] == '-' || s[i] == ':' || s[i] == 'T' || s[i] == 'Z'
  }

  /** The bytes of a body besides those of its endpoint. */
  const BODY_OVERHEAD := 45

  lemma BodyLength(libs: Libs, now: int, url: string)
    requires IsTimestamp(libs.formatTime(now))
    ensures |Body(libs, now, url)| == BODY_OVERHEAD + EscapedLength(url)
  {
    PlainLength(libs.formatTime(now));
  }

  function EncodeSKPayload(libs: Libs, canonical: string, now: int): Result<string> {
    if CanonicalIngestURL(libs, canonical) != Ok(canonical) then Err(UrlNotCanonical)
    else Ok(Base64(Body(libs, now, canonical)))
  }

  predicate Distinct(list: seq<(string, Value)>) {
    forall i, j :: 0 <= i < j < |list| ==> list[i].0 != list[j].0
  }

  /** The members by name, unless a name is repeated. */
  function Collect(list: seq<(string, Value)>): Option<map<string, Value>> {
    if list == [] then Some(map[])
    else
      var n := |list| - 1;
      match Collect(list[..n])
      case None => None
      case Some(fields) => if list[n].0 in fields then None else Some(fields[list[n].0 := list[n].1])
  }

  predicate Holds(fields: map<string, Value>, list: seq<(string, Value)>) {
    && |fields| == |list|
    && (forall i :: 0 <= i < |list| ==> list[i].0 in fields && fields[list[i].0] == list[i].1)
    && (forall name :: name in fields ==> exists i :: 0 <= i < |list| && list[i].0 == name)
  }

  lemma {:induction false} CollectMeaning(list: seq<(string, Value)>)
    ensures Collect(list).Some? <==> Distinct(list)
    ensures Collect(list).Some? ==> Holds(Collect(list).value, list)
  {
    if list != [] {
      hide Holds, Distinct;
      var n := |list| - 1;
      CollectMeaning(list[..n]);
      DistinctNext(list);
      if Collect(list[..n]).Some? {
        var fields := Collect(list[..n]).value;
        HoldsTells(fields, list[..n], list[n].0);
        if list[n].0 !in fields {
          HoldsNext(fields, list);
        }
      }
    }
  }

  predicate Named(list: seq<(string, Value)>, name: string) { exists i :: 0 <= i < |list| && list[i].0 == name }

  lemma DistinctNext(list: seq<(string, Value)>)
    requires list != []
    ensures var n := |list| - 1; Distinct(list) <==> Distinct(list[..n]) && !Named(list[..n], list[n].0)
  {
    var n := |list| - 1;
    assert forall i :: 0 <= i < n ==> list[..n][i] == list[i];
  }

  lemma HoldsTells(fields: map<string, Value>, list: seq<(string, Value)>, name: string)
    requires Holds(fields, list)
    ensures name in fields <==> Named(list, name)
  {
  }

  lemma HoldsNext(fields: map<string, Value>, list: seq<(string, Value)>)
    requires list != [] && Holds(fields, list[..|list| - 1]) && list[|list| - 1].0 !in fields
    ensures Holds(fields[list[|list| - 1].0 := list[|list| - 1].1], list)
  {
    var n := |list| - 1;
    assert forall i :: 0 <= i < n ==> list[..n][i] == list[i];
    var more := fields[list[n].0 := list[n].1];
    forall name | name in more ensures exists i :: 0 <= i < |list| && list[i].0 == name {
      if name != list[n].0 {
        var i :| 0 <= i < n && list[..n][i].0 == name;
        assert list[i].0 == name;
      }
    }
  }

  function Walk(m: Members): Result<map<string, Value>> {
    match Collect(m.list)
    case None => Err(DuplicateField)
    case Some(fields) =>
      if !m.closed then Err(BadJson)
      else if "v" !in fields || "iat" !in fields || "url" !in fields then Err(MissingField)
      else if |fields| != 3 then Err(UnknownField)
      else Ok(fields)
  }

  lemma ThreeNames(list: seq<(string, Value)>)
    requires |list| == 3 && Named(list, "v") && Named(list, "iat") && Named(list, "url")
    ensures Distinct(list)
  {
    var a :| 0 <= a < 3 && list[a].0 == "v";
    var b :| 0 <= b < 3 && list[b].0 == "iat";
    var c :| 0 <= c < 3 && list[c].0 == "url";
    assert "iat"[0] != "url"[0];
    assert a != b && b != c && a != c;
  }

  /** The strict decoder accepts exactly one whole object with the members v, iat and url, each once and no other. */
  lemma WalkAcceptsExactly(m: Members)
    ensures Walk(m).Ok? <==> m.closed && |m.list| == 3 && Named(m.list, "v") && Named(m.list, "iat") && Named(m.list, "url")
    ensures Walk(m).Ok? ==> Holds(Walk(m).value, m.list)
  {
    hide Collect, Named;
    CollectMeaning(m.list);
    if Collect(m.list).Some? {
      HoldsTells(Collect(m.list).value, m.list, "v");
      HoldsTells(Collect(m.list).value, m.list, "iat");
      HoldsTells(Collect(m.list).value, m.list, "url");
    } else if |m.list| == 3 && Named(m.list, "v") && Named(m.list, "iat") && Named(m.list, "url") {
      ThreeNames(m.list);
    }
  }

  lemma {:induction false} RepeatedStays(list: seq<(string, Value)>, n: nat)
    requires n <= |list| && Collect(list[..n]).None?
    ensures Collect(list).None?
    decreases |list|
  {
    if n < |list| {
      var k := |list| - 1;
      assert list[..k][..n] == list[..n];
      RepeatedStays(list[..k], n);
    } else {
      assert list[..n] == list;
    }
  }

  method WalkStrictObject(m: Members) returns (r: Result<map<string, Value>>)
    ensures r == Walk(m)
  {
    var fields: map<string, Value> := map[];
    var i := 0;
    while i < |m.list|
      invariant 0 <= i <= |m.list|
      invariant Collect(m.list[..i]) == Some(fields)
    {
      var (name, value) := m.list[i];
      assert m.list[..i + 1][..i] == m.list[..i];
      if name in fields {
        RepeatedStays(m.list, i + 1);
        return Err(DuplicateField);
      }
      fields := fields[name := value];
      i := i + 1;
    }
    assert m.list[..i] == m.list;
    if !m.closed {
      return Err(BadJson);
    }
    if "v" !in fields || "iat" !in fields || "url" !in fields {
      return Err(MissingField);
    }
    if |fields| != 3 {
      return Err(UnknownField);
    }
    r := Ok(fields);
  }

  /** JSON null leaves the zero value. */
  function IntField(v: Value): Option<int> {
    match v case Number(n) => Some(n) case Null => Some(0) case _ => None
  }

  function TextField(v: Value): Option<string> {
    match v case Text(s) => Some(s) case Null => Some("") case _ => None
  }

  function ParseSKPayload(libs: Libs, segment: string): Result<Payload> {
    if segment == "" then Err(EmptyPayload)
    else if Decode64(segment).None? || '=' in segment then Err(BadBase64)
    else
      match Walk(libs.members(Decode64(segment).value))
      case Err(e) => Err(e)
      case Ok(fields) =>
        var v, iat, url := IntField(fields["v"]), TextField(fields["iat"]), TextField(fields["url"]);
        if v.None? || iat.None? || url.None? then Err(BadFieldType)
        else if v.value != 1 then Err(BadVersion)
        else if !libs.isUtcTime(iat.value) then Err(BadIat)
        else
          match CanonicalIngestURL(libs, url.value)
          case Err(e) => Err(e)
          case Ok(canonical) =>
            if canonical != url.value then Err(UrlNotCanonical) else Ok(Payload(v.value, iat.value, url.value))
  }

  /** What the JSON decoder and the time library are relied on for: what was written is read back. */
  ghost predicate ReadsBack(libs: Libs, now: int, url: string) {
    var iat := libs.formatTime(now);
    && IsTimestamp(iat) && libs.isUtcTime(iat)
    && libs.members(Body(libs, now, url)) == Members([("v", Number(1)), ("iat", Text(iat)), ("url", Text(url))], true)
  }

  lemma WalkReads(iat: string, url: string)
    ensures var r := Walk(Members([("v", Number(1)), ("iat", Text(iat)), ("url", Text(url))], true));
            && r.Ok? && "v" in r.value && "iat" in r.value && "url" in r.value
            && r.value["v"] == Number(1) && r.value["iat"] == Text(iat) && r.value["url"] == Text(url)
  {
    hide Collect, Walk;
    var m := Members([("v", Number(1)), ("iat", Text(iat)), ("url", Text(url))], true);
    assert m.list[0].0 == "v" && m.list[1].0 == "iat" && m.list[2].0 == "url";
    WalkAcceptsExactly(m);
  }

  /** Every payload that is encoded parses back to its own time and endpoint. */
  lemma PayloadRoundTrip(libs: Libs, url: string, now: int)
    requires ReadsBack(libs, now, url) && EncodeSKPayload(libs, url, now).Ok?
    ensures ParseSKPayload(libs, EncodeSKPayload(libs, url, now).value) == Ok(Payload(1, libs.formatTime(now), url))
  {
    BodyLength(libs, now, url);
    hide Base64, Decode64, CanonicalIngestURL, Walk, Body, IsTimestamp, EscapedLength, Escape;
    var body := Body(libs, now, url);
    DecodeEncode(body);
    Base64Length(body);
    NoPadding(body);
    WalkReads(libs.formatTime(now), url);
  }

  lemma NoPadding(body: Bytes)
    ensures '=' !in Base64(body)
  {
    assert forall i :: 0 <= i < |Base64(body)| ==> IsDigit64(Base64(body)[i]);
  }

  // ---------------------------------------------------------------- keys

  datatype Minted = Minted(keyId: string, scope: string, tokenPrefix: string, secretHash: string, raw: string)
  datatype Parsed = Parsed(keyId: string, secret: string, scope: string)

  function PrefixForScope(scope: string): Option<string> {
    match scope
    case "ingest" => Some("opslane_pk")
    case "sourcemaps" => Some("opslane_sk")
    case "api" => Some("opslane_ak")
    case _ => None
  }

  function ScopeForPrefix(prefix: string): Option<string> {
    match prefix
    case "opslane_pk" => Some("ingest")
    case "opslane_sk" => Some("sourcemaps")
    case "opslane_ak" => Some("api")
    case _ => None
  }

  predicate IsKeyId(s: string) { |s| == KEY_ID_LEN && forall i :: 0 <= i < |s| ==> IsDigit32(s[i]) }
  predicate IsSecret(s: string) { |s| == SECRET_LEN && forall i :: 0 <= i < |s| ==> IsDigit64(s[i]) }

  function IndexOf(s: string, sep: char): (i: nat)
    ensures i <= |s| && (i < |s| ==> s[i] == sep) && sep !in s[..i]
  {
    if s == [] || s[0] == sep then 0
    else
      var i := IndexOf(s[1..], sep);
      assert s[..i + 1] == [s[0]] + s[1..][..i];
      i + 1
  }

  /** At most `n` parts; the last one is the whole remainder. */
  function SplitN(s: string, sep: char, n: nat): (parts: seq<string>)
    requires n > 0
    ensures 0 < |parts| <= n
  {
    var i := IndexOf(s, sep);
    if n == 1 || i == |s| then [s] else [s[..i]] + SplitN(s[i + 1..], sep, n - 1)
  }

  function ParseProjectKey(libs: Libs, raw: string): Option<Parsed> {
    if |raw| > MAX_RAW_KEY_LEN then None
    else
      var parts := SplitN(raw, SEP, 4);
      if |parts| != 4 then None
      else
        var scope, remainder := ScopeForPrefix(parts[0] + [SEP] + parts[1]), parts[3];
        if scope.None? || !IsKeyId(parts[2]) || |remainder| < SECRET_LEN || !IsSecret(remainder[..SECRET_LEN]) then None
        else
          var key := Parsed(parts[2], remainder[..SECRET_LEN], scope.value);
          if |remainder| == SECRET_LEN then Some(key)
          else if remainder[SECRET_LEN] != SEP then None
          else if scope.value != "sourcemaps" then None
          else if ParseSKPayload(libs, remainder[SECRET_LEN + 1..]).Err? then None
          else Some(key)
  }

  /** What the random bytes, the endpoint and the clock make of a key. */
  function MintedKey(libs: Libs, scope: string, endpoint: string, idRaw: Bytes, secretRaw: Bytes, now: int): Result<Minted> {
    match PrefixForScope(scope)
    case None => Err(UnknownScope)
    case Some(prefix) =>
      if scope == "sourcemaps" && endpoint == "" then Err(EndpointRequired)
      else if scope != "sourcemaps" && endpoint != "" then Err(EndpointForbidden)
      else
        var keyId, secret := Base32(idRaw), Base64(secretRaw);
        var bare := prefix + [SEP] + keyId + [SEP] + secret;
        if scope != "sourcemaps" then Ok(Minted(keyId, scope, prefix, libs.hash(secret), bare))
        else
          match CanonicalIngestURL(libs, endpoint)
          case Err(e) => Err(e)
          case Ok(canonical) =>
            match EncodeSKPayload(libs, canonical, now)
            case Err(e) => Err(e)
            case Ok(payload) => Ok(Minted(keyId, scope, prefix, libs.hash(secret), bare + [SEP] + payload))
  }

  method NewProjectKey(libs: Libs, scope: string, endpoint: string, idRaw: Bytes, secretRaw: Bytes, now: int)
    returns (r: Result<Minted>)
    ensures r == MintedKey(libs, scope, endpoint, idRaw, secretRaw, now)
  {
    var prefix := PrefixForScope(scope);
    if prefix.None? {
      return Err(UnknownScope);
    }
    if scope == "sourcemaps" {
      if endpoint == "" {
        return Err(EndpointRequired);
      }
    } else if endpoint != "" {
      return Err(EndpointForbidden);
    }
    var keyId, secret := Base32(idRaw), Base64(secretRaw);
    var raw := prefix.value + "_" + keyId + "_" + secret;
    if scope == "sourcemaps" {
      var canonical := CanonicalIngestURL(libs, endpoint);
      if canonical.Err? {
        return Err(canonical.problem);
      }
      var payload := EncodeSKPayload(libs, canonical.value, now);
      if payload.Err? {
        return Err(payload.problem);
      }
      raw := raw + "_" + payload.value;
    }
    r := Ok(Minted(keyId, scope, prefix.value, libs.hash(secret), raw));
  }

  // ---------------------------------------------------------------- one decomposition

  /** `raw` is a key of these parts. */
  predicate IsKey(libs: Libs, raw: string, key: Parsed, payload: Option<string>) {
    && PrefixForScope(key.scope).Some? && IsKeyId(key.keyId) && IsSecret(key.secret)
    && (payload.Some? ==> key.scope == "sourcemaps" && ParseSKPayload(libs, payload.value).Ok?)
    && raw == PrefixForScope(key.scope).value + [SEP] + key.keyId + [SEP] + key.secret
              + (if payload.Some? then [SEP] + payload.value else "")
  }

  lemma {:induction false} FirstSep(a: string, rest: string)
    requires SEP !in a
    ensures IndexOf(a + [SEP] + rest, SEP) == |a|
  {
    if a != "" {
      FirstSep(a[1..], rest);
      assert (a + [SEP] + rest)[1..] == a[1..] + [SEP] + rest;
    }
  }

  lemma SplitFirst(a: string, rest: string, n: nat)
    requires SEP !in a && n > 1
    ensures SplitN(a + [SEP] + rest, SEP, n) == [a] + SplitN(rest, SEP, n - 1)
  {
    FirstSep(a, rest);
    var s := a + [SEP] + rest;
    assert s[..|a|] == a && s[|a| + 1..] == rest;
  }

  lemma SplitFour(a: string, b: string, c: string, rest: string)
    requires SEP !in a && SEP !in b && SEP !in c
    ensures SplitN(a + [SEP] + b + [SEP] + c + [SEP] + rest, SEP, 4) == [a, b, c, rest]
  {
    hide SplitN;
    SplitFirst(c, rest, 2);
    SplitOne(rest);
    SplitFirst(b, c + [SEP] + rest, 3);
    SplitFirst(a, b + [SEP] + (c + [SEP] + rest), 4);
    Flatten(a, b, c, rest);
  }

  lemma SplitOne(rest: string)
    ensures SplitN(rest, SEP, 1) == [rest]
  {
  }

  lemma SplitJoins(s: string, n: nat) returns (rest: string)
    requires n > 1 && |SplitN(s, SEP, n)| > 1
    ensures s == SplitN(s, SEP, n)[0] + [SEP] + rest
    ensures SplitN(s, SEP, n)[1..] == SplitN(rest, SEP, n - 1)
  {
    var i := IndexOf(s, SEP);
    rest := s[i + 1..];
    assert s == s[..i] + [s[i]] + rest;
  }

  lemma FourJoin(s: string)
    requires |SplitN(s, SEP, 4)| == 4
    ensures var p := SplitN(s, SEP, 4); s == p[0] + [SEP] + p[1] + [SEP] + p[2] + [SEP] + p[3]
  {
    hide SplitN;
    var p := SplitN(s, SEP, 4);
    var s1 := SplitJoins(s, 4);
    var s2 := SplitJoins(s1, 3);
    var s3 := SplitJoins(s2, 2);
    SplitOne(s3);
    var p1, p2 := SplitN(s1, SEP, 3), SplitN(s2, SEP, 2);
    assert p[1] == p1[0] && p[2] == p1[1] == p2[0] && p[3] == p1[2] == p2[1] == s3;
    Flatten(p[0], p[1], p[2], p[3]);
  }

  lemma Flatten(a: string, b: string, c: string, d: string)
    ensures a + [SEP] + b + [SEP] + c + [SEP] + d == a + [SEP] + (b + [SEP] + (c + [SEP] + d))
  {
  }

  lemma PrefixParts(scope: string)
    requires PrefixForScope(scope).Some?
    ensures exists b :: SEP !in b && PrefixForScope(scope).value == "opslane" + [SEP] + b
    ensures ScopeForPrefix(PrefixForScope(scope).value) == Some(scope)
  {
    match scope {
      case "ingest" => assert SEP !in "pk" && "opslane_pk" == "opslane" + [SEP] + "pk";
      case "sourcemaps" => assert SEP !in "sk" && "opslane_sk" == "opslane" + [SEP] + "sk";
      case _ => assert SEP !in "ak" && "opslane_ak" == "opslane" + [SEP] + "ak";
    }
  }

  lemma ScopeOfPrefix(prefix: string)
    requires ScopeForPrefix(prefix).Some?
    ensures PrefixForScope(ScopeForPrefix(prefix).value) == Some(prefix)
  {
  }

  /** The remainder after the key id. */
  function Tail(key: Parsed, payload: Option<string>): string {
    key.secret + (if payload.Some? then [SEP] + payload.value else "")
  }

  lemma KeySplits(libs: Libs, raw: string, key: Parsed, payload: Option<string>)
    requires IsKey(libs, raw, key, payload)
    ensures var parts := SplitN(raw, SEP, 4);
            && |parts| == 4 && parts[0] + [SEP] + parts[1] == PrefixForScope(key.scope).value
            && parts[2] == key.keyId && parts[3] == Tail(key, payload)
  {
    hide SplitN, ParseSKPayload;
    PrefixParts(key.scope);
    var b :| SEP !in b && PrefixForScope(key.scope).value == "opslane" + [SEP] + b;
    assert SEP !in "opslane" && SEP !in key.keyId;
    SplitFour("opslane", b, key.keyId, Tail(key, payload));
    assert raw == "opslane" + [SEP] + b + [SEP] + key.keyId + [SEP] + Tail(key, payload);
  }

  /** The separator may occur in the secret and in the payload, and still a string is a key in at most one way. */
  lemma DecomposesOneWay(libs: Libs, raw: string, a: Parsed, p: Option<string>, b: Parsed, q: Option<string>)
    ensures IsKey(libs, raw, a, p) && IsKey(libs, raw, b, q) ==> a == b && p == q
  {
    if IsKey(libs, raw, a, p) && IsKey(libs, raw, b, q) {
      KeySplits(libs, raw, a, p);
      KeySplits(libs, raw, b, q);
      PrefixParts(a.scope);
      PrefixParts(b.scope);
      hide IsKeyId, ParseSKPayload, PrefixForScope, SplitN;
      assert Tail(a, p)[..SECRET_LEN] == a.secret && Tail(b, q)[..SECRET_LEN] == b.secret;
      assert Tail(a, p)[SECRET_LEN..] == if p.Some? then [SEP] + p.value else "";
      assert Tail(b, q)[SECRET_LEN..] == if q.Some? then [SEP] + q.value else "";
      if p.Some? && q.Some? {
        assert p.value == ([SEP] + p.value)[1..] && q.value == ([SEP] + q.value)[1..];
      }
    }
  }

  lemma KeyParses(libs: Libs, raw: string, key: Parsed, payload: Option<string>)
    requires IsKey(libs, raw, key, payload) && |raw| <= MAX_RAW_KEY_LEN
    ensures ParseProjectKey(libs, raw) == Some(key)
  {
    hide IsKeyId, ParseSKPayload, PrefixForScope, SplitN, ScopeForPrefix;
    KeySplits(libs, raw, key, payload);
    PrefixParts(key.scope);
    var rest := Tail(key, payload);
    assert rest[..SECRET_LEN] == key.secret;
    if payload.Some? {
      assert rest[SECRET_LEN] == SEP && rest[SECRET_LEN + 1..] == payload.value;
    }
  }

  lemma ParsedIsKey(libs: Libs, raw: string) returns (payload: Option<string>)
    requires ParseProjectKey(libs, raw).Some?
    ensures |raw| <= MAX_RAW_KEY_LEN && IsKey(libs, raw, ParseProjectKey(libs, raw).value, payload)
  {
    hide IsKeyId, IsSecret, ParseSKPayload, PrefixForScope, SplitN, ScopeForPrefix;
    var parts := SplitN(raw, SEP, 4);
    FourJoin(raw);
    ScopeOfPrefix(parts[0] + [SEP] + parts[1]);
    var rest := parts[3];
    assert rest == rest[..SECRET_LEN] + rest[SECRET_LEN..];
    if |rest| == SECRET_LEN {
      payload := None;
    } else {
      payload := Some(rest[SECRET_LEN + 1..]);
      assert rest[SECRET_LEN..] == [SEP] + payload.value;
    }
  }

  /** A string is accepted as exactly the key it is a rendering of, provided it is within the length cap. */
  lemma ParseAcceptsExactly(libs: Libs, raw: string, key: Parsed)
    ensures ParseProjectKey(libs, raw) == Some(key) <==>
            |raw| <= MAX_RAW_KEY_LEN && exists payload :: IsKey(libs, raw, key, payload)
  {
    if ParseProjectKey(libs, raw) == Some(key) {
      var payload := ParsedIsKey(libs, raw);
    }
    if payload :| IsKey(libs, raw, key, payload) && |raw| <= MAX_RAW_KEY_LEN {
      KeyParses(libs, raw, key, payload);
    }
  }

  // ---------------------------------------------------------------- minted keys

  /** A minted key is the key of its own parts. */
  lemma MintedIsKey(libs: Libs, scope: string, endpoint: string, idRaw: Bytes, secretRaw: Bytes, now: int)
      returns (payload: Option<string>, body: Bytes)
    requires |idRaw| == KEY_ID_BYTES && |secretRaw| == SECRET_BYTES
    requires MintedKey(libs, scope, endpoint, idRaw, secretRaw, now).Ok?
    requires var c := CanonicalIngestURL(libs, endpoint); scope == "sourcemaps" && c.Ok? ==> ReadsBack(libs, now, c.value)
    ensures var m := MintedKey(libs, scope, endpoint, idRaw, secretRaw, now).value;
            && IsKey(libs, m.raw, Parsed(m.keyId, Base64(secretRaw), scope), payload)
            && m.keyId == Base32(idRaw) && m.secretHash == libs.hash(Base64(secretRaw)) && m.scope == scope
    ensures payload == if scope == "sourcemaps" then Some(Base64(body)) else None
    ensures scope == "sourcemaps" ==>
              CanonicalIngestURL(libs, endpoint).Ok?
              && body == Body(libs, now, CanonicalIngestURL(libs, endpoint).value)
  {
    hide Base32, Base64, CanonicalIngestURL, ParseSKPayload, Body;
    Base32Length(idRaw);
    Base64Length(secretRaw);
    Base32IsDigits(idRaw);
    Base64IsDigits(secretRaw);
    payload, body := None, [];
    if scope == "sourcemaps" {
      var canonical := CanonicalIngestURL(libs, endpoint).value;
      assert ReadsBack(libs, now, canonical);
      PayloadRoundTrip(libs, canonical, now);
      body := Body(libs, now, canonical);
      payload := Some(Base64(body));
    }
  }

  lemma Base32IsDigits(bytes: Bytes)
    ensures forall i :: 0 <= i < |Base32(bytes)| ==> IsDigit32(Base32(bytes)[i])
  {
  }

  lemma Base64IsDigits(bytes: Bytes)
    ensures forall i :: 0 <= i < |Base64(bytes)| ==> IsDigit64(Base64(bytes)[i])
  {
  }

  /** The longest escaped endpoint whose key stays within the length cap. */
  const MAX_ESCAPED := 2965

  /** Every minted key parses back to its own id, secret and scope, except a source-map key whose canonical endpoint takes
      more than `MAX_ESCAPED` bytes in JSON, which minting does not refuse and parsing does. */
  lemma MintedParsesExactly(libs: Libs, scope: string, endpoint: string, idRaw: Bytes, secretRaw: Bytes, now: int)
    requires |idRaw| == KEY_ID_BYTES && |secretRaw| == SECRET_BYTES
    requires MintedKey(libs, scope, endpoint, idRaw, secretRaw, now).Ok?
    requires var c := CanonicalIngestURL(libs, endpoint); scope == "sourcemaps" && c.Ok? ==> ReadsBack(libs, now, c.value)
    ensures var m := MintedKey(libs, scope, endpoint, idRaw, secretRaw, now).value;
            && (scope != "sourcemaps" ==> ParseProjectKey(libs, m.raw) == Some(Parsed(m.keyId, Base64(secretRaw), scope)))
            && (scope == "sourcemaps" ==>
                  ParseProjectKey(libs, m.raw)
                  == if EscapedLength(CanonicalIngestURL(libs, endpoint).value) <= MAX_ESCAPED
                     then Some(Parsed(m.keyId, Base64(secretRaw), scope)) else None)
  {
    hide Base32, Base64, CanonicalIngestURL, ParseSKPayload, MintedKey, IsKeyId, PrefixForScope, Body;
    var m := MintedKey(libs, scope, endpoint, idRaw, secretRaw, now).value;
    var payload, body := MintedIsKey(libs, scope, endpoint, idRaw, secretRaw, now);
    var key := Parsed(m.keyId, Base64(secretRaw), scope);
    KeyLength(libs, m.raw, key, payload);
    if scope == "sourcemaps" {
      BodyLength(libs, now, CanonicalIngestURL(libs, endpoint).value);
      Base64Length(body);
    }
    if |m.raw| <= MAX_RAW_KEY_LEN {
      KeyParses(libs, m.raw, key, payload);
    }
  }

  /** A key for an endpoint without characters that JSON escapes always parses, however long the endpoint. */
  lemma PlainEndpointsParse(libs: Libs, endpoint: string, idRaw: Bytes, secretRaw: Bytes, now: int)
    requires |idRaw| == KEY_ID_BYTES && |secretRaw| == SECRET_BYTES
    requires MintedKey(libs, "sourcemaps", endpoint, idRaw, secretRaw, now).Ok?
    requires ReadsBack(libs, now, CanonicalIngestURL(libs, endpoint).value)
    requires Plain(CanonicalIngestURL(libs, endpoint).value)
    ensures var m := MintedKey(libs, "sourcemaps", endpoint, idRaw, secretRaw, now).value;
            ParseProjectKey(libs, m.raw) == Some(Parsed(m.keyId, Base64(secretRaw), "sourcemaps"))
  {
    MintedParsesExactly(libs, "sourcemaps", endpoint, idRaw, secretRaw, now);
    CanonicalIsShort(libs, endpoint, idRaw, secretRaw, now);
    PlainLength(CanonicalIngestURL(libs, endpoint).value);
  }

  lemma CanonicalIsShort(libs: Libs, endpoint: string, idRaw: Bytes, secretRaw: Bytes, now: int)
    requires MintedKey(libs, "sourcemaps", endpoint, idRaw, secretRaw, now).Ok?
    ensures CanonicalIngestURL(libs, endpoint).Ok? && |CanonicalIngestURL(libs, endpoint).value| <= MAX_PAYLOAD_URL
  {
    hide Base32, Base64, Body;
  }

  // ---------------------------------------------------------------- a key that is minted and does not parse

  const AMPERSANDS: string := seq(500, i => '&')

  const LONG_ENDPOINT := "https://" + AMPERSANDS

  const NOON := "2026-01-02T12:00:00Z"

  /** Libraries that parse that endpoint, format that time and read its body. */
  const LONG_LIBS := Libs(
    (body: Bytes) => Members([("v", Number(1)), ("iat", Text(NOON)), ("url", Text(LONG_ENDPOINT))], true),
    (now: int) => NOON, (iat: string) => iat == NOON,
    (raw: string) => if raw == LONG_ENDPOINT then Some(Url("https", AMPERSANDS, AMPERSANDS, "", "", true, true)) else None,
    (secret: string) => secret)

  lemma {:induction false} RepeatedCost(s: string)
    requires forall i :: 0 <= i < |s| ==> s[i] == '&'
    ensures EscapedLength(s) == 6 * |s|
  {
    if s != "" {
      RepeatedCost(s[1..]);
    }
  }

  lemma LongEndpointIsCanonical()
    ensures CanonicalIngestURL(LONG_LIBS, LONG_ENDPOINT) == Ok(LONG_ENDPOINT)
  {
    assert ':' !in AMPERSANDS && AMPERSANDS != "" && Ascii(AMPERSANDS);
    assert Origin("https", AMPERSANDS, "") == LONG_ENDPOINT;
  }

  lemma LongEndpointIsCostly()
    ensures EscapedLength(LONG_ENDPOINT) == 3008 > MAX_ESCAPED && |LONG_ENDPOINT| == 508 <= MAX_PAYLOAD_URL
  {
    hide EscapedLength;
    EscapedLengthConcat("https://", AMPERSANDS);
    RepeatedCost(AMPERSANDS);
    PlainLength("https://");
  }

  lemma LongEndpointReadsBack(now: int)
    ensures ReadsBack(LONG_LIBS, now, LONG_ENDPOINT)
  {
    hide Body;
  }

  lemma CanonicalIsMinted(libs: Libs, endpoint: string, idRaw: Bytes, secretRaw: Bytes, now: int)
    requires endpoint != "" && CanonicalIngestURL(libs, endpoint) == Ok(endpoint)
    ensures MintedKey(libs, "sourcemaps", endpoint, idRaw, secretRaw, now).Ok?
  {
    hide CanonicalIngestURL, Base32, Base64, Body;
  }

  /** A host name of 500 ampersands is within the endpoint cap and canonical; its key is minted and does not parse. */
  lemma LongEndpointIsMintedAndNotParsed(idRaw: Bytes, secretRaw: Bytes, now: int)
    requires |idRaw| == KEY_ID_BYTES && |secretRaw| == SECRET_BYTES
    ensures ReadsBack(LONG_LIBS, now, LONG_ENDPOINT) && |LONG_ENDPOINT| <= MAX_PAYLOAD_URL
    ensures var r := MintedKey(LONG_LIBS, "sourcemaps", LONG_ENDPOINT, idRaw, secretRaw, now);
            r.Ok? && ParseProjectKey(LONG_LIBS, r.value.raw) == None
  {
    hide *;
    LongEndpointIsCanonical();
    LongEndpointIsCostly();
    LongEndpointReadsBack(now);
    CanonicalIsMinted(LONG_LIBS, LONG_ENDPOINT, idRaw, secretRaw, now);
    MintedParsesExactly(LONG_LIBS, "sourcemaps", LONG_ENDPOINT, idRaw, secretRaw, now);
  }

  lemma KeyLength(libs: Libs, raw: string, key: Parsed, payload: Option<string>)
    requires IsKey(libs, raw, key, payload)
    ensures |raw| == 81 + if payload.Some? then 1 + |payload.value| else 0
  {
    hide ParseSKPayload;
  }

  /** Two keys minted from different random ids have different key ids, so parsing never confuses them. */
  lemma KeyIdTellsKeysApart(libs: Libs, a: Bytes, b: Bytes, s: Bytes, t: Bytes, scope: string, endpoint: string, now: int, later: int)
    requires MintedKey(libs, scope, endpoint, a, s, now).Ok? && MintedKey(libs, scope, endpoint, b, t, later).Ok?
    ensures MintedKey(libs, scope, endpoint, a, s, now).value.keyId == MintedKey(libs, scope, endpoint, b, t, later).value.keyId <==> a == b
  {
    hide Base32, Base64, CanonicalIngestURL;
    if Base32(a) == Base32(b) {
      Base32IsInjective(a, b);
    }
  }
}
