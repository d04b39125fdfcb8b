/**
 What the texts of project keys are, told by character: alphabets, bits, escapes, ports, prefixes and reasons.
 (packages/ingestion/db/project_keys.go, packages/ingestion/db/sk_payload.go)
 */
module ProjectKeyFacts {
  import opened Wrappers
  import opened ProjectKey

  const UPPER := "ABCDEFGHIJKLMNOPQRSTUVWXYZ"
  const LOWER := "abcdefghijklmnopqrstuvwxyz"
  const NUMERALS := "0123456789"
  const ALPHABET32 := LOWER + "234567"
  const ALPHABET64 := UPPER + LOWER + NUMERALS + "-_"

  lemma Digit32Is(v: nat)
    requires v < 32
    ensures |ALPHABET32| == 32 && Digit32(v) == ALPHABET32[v]
  {
    Letters(if v < 26 then v else 0);
    hide LOWER;
  }

  lemma Letters(v: nat)
    requires v < 26
    ensures |UPPER| == 26 && UPPER[v] == 'A' + v as char
    ensures |LOWER| == 26 && LOWER[v] == 'a' + v as char
  {
  }

  lemma Numeral(d: nat)
    requires d < 10
    ensures |NUMERALS| == 10 && NUMERALS[d] == '0' + d as char
  {
  }

  /** The letter of that number in the base64url alphabet. */
  function Letter64(v: nat): char
    requires v < 64
  {
    ALPHABET64[v]
  }

  lemma Digit64Is(v: nat)
    requires v < 64
    ensures Digit64(v) == Letter64(v)
  {
    Letters(if v < 26 then v else if v < 52 then v - 26 else 0);
    Numeral(if 52 <= v < 62 then v - 52 else 0);
    hide UPPER, LOWER, NUMERALS;
  }

  lemma InAlphabet32(c: char)
    ensures IsDigit32(c) <==> c in ALPHABET32
  {
    IsLower(c);
    hide LOWER;
  }

  lemma IsUpper(c: char)
    ensures c in UPPER <==> 'A' <= c <= 'Z'
  {
    if 'A' <= c <= 'Z' {
      Letters((c - 'A') as nat);
    }
  }

  lemma IsLower(c: char)
    ensures c in LOWER <==> 'a' <= c <= 'z'
  {
    if 'a' <= c <= 'z' {
      Letters((c - 'a') as nat);
    }
  }

  lemma IsNumeral(c: char)
    ensures c in NUMERALS <==> '0' <= c <= '9'
  {
    if '0' <= c <= '9' {
      Numeral((c - '0') as nat);
    }
  }

  lemma InAlphabet64(c: char)
    ensures IsDigit64(c) <==> c in ALPHABET64
  {
    IsUpper(c);
    IsLower(c);
    IsNumeral(c);
    hide UPPER, LOWER, NUMERALS;
  }

  /** The characters that count as digits are those of the alphabets of RFC 4648, sections 5 and 6, in lower case. */
  lemma AlphabetsAre()
    ensures forall c :: IsDigit32(c) <==> c in ALPHABET32
    ensures forall c :: IsDigit64(c) <==> c in ALPHABET64
  {
    forall c ensures IsDigit32(c) <==> c in ALPHABET32 {
      InAlphabet32(c);
    }
    forall c ensures IsDigit64(c) <==> c in ALPHABET64 {
      InAlphabet64(c);
    }
  }

  // ---------------------------------------------------------------- bits and digits

  const WEIGHTS := [128, 64, 32, 16, 8, 4, 2, 1]

  /** Bit `j` of the bytes, counted from the most significant bit of the first one; zero past the end. */
  function BitOf(bytes: Bytes, j: nat): nat {
    if j / 8 < |bytes| then bytes[j / 8] as nat / WEIGHTS[j % 8] % 2 else 0
  }

  function Bit(bits: seq<bool>, j: nat): nat { if j < |bits| && bits[j] then 1 else 0 }

  lemma HalfWeight(v: nat, m: nat)
    requires m < 7
    ensures v / 2 / WEIGHTS[m + 1] == v / WEIGHTS[m]
  {
    match m {
      case 0 => case 1 => case 2 => case 3 => case 4 => case 5 => case _ =>
    }
  }

  lemma {:induction false} ToBitsAt(v: nat, w: nat, i: nat)
    requires i < w <= 8
    ensures Bit(ToBits(v, w), i) == v / WEIGHTS[8 - w + i] % 2
  {
    if i < w - 1 {
      ToBitsAt(v / 2, w - 1, i);
      HalfWeight(v, 8 - w + i);
    }
  }

  lemma {:induction false} JoinAt(vs: seq<nat>, j: nat)
    requires j < 8 * |vs|
    ensures |Join(vs, 8)| == 8 * |vs| && Bit(Join(vs, 8), j) == vs[j / 8] / WEIGHTS[j % 8] % 2
  {
    hide ToBits, WEIGHTS;
    JoinedBytes(vs);
    var head, tail := ToBits(vs[0], 8), Join(vs[1..], 8);
    assert Join(vs, 8) == head + tail;
    if j < 8 {
      ToBitsAt(vs[0], 8, j);
      assert Bit(head + tail, j) == Bit(head, j);
    } else {
      JoinAt(vs[1..], j - 8);
      assert Bit(head + tail, j) == Bit(tail, j - 8);
      assert (j - 8) / 8 == j / 8 - 1 && (j - 8) % 8 == j % 8;
    }
  }

  /** The number that `w` bits from the `j`-th on spell, with zeros past the end. */
  function Spelled(bits: seq<bool>, j: nat, w: nat): nat {
    if w == 0 then 0 else 2 * Spelled(bits, j, w - 1) + Bit(bits, j + w - 1)
  }

  lemma {:induction false} FromBitsIs(group: seq<bool>, bits: seq<bool>, j: nat)
    requires forall i :: 0 <= i < |group| ==> Bit(group, i) == Bit(bits, j + i)
    ensures FromBits(group) == Spelled(bits, j, |group|)
  {
    if group != [] {
      var n := |group| - 1;
      assert forall i :: 0 <= i < n ==> Bit(group[..n], i) == Bit(group, i);
      FromBitsIs(group[..n], bits, j);
      assert Bit(group, n) == Bit(bits, j + n);
    }
  }

  lemma {:induction false} SpelledShifts(bits: seq<bool>, j: nat, w: nat, v: nat)
    requires v <= |bits|
    ensures Spelled(bits[v..], j, w) == Spelled(bits, v + j, w)
  {
    if w > 0 {
      SpelledShifts(bits, j, w - 1, v);
    }
  }

  lemma {:induction false} RegroupAt(bits: seq<bool>, w: nat, k: nat, j: nat)
    requires w > 0 && k < |Regroup(bits, w)| && j == w * k
    ensures Regroup(bits, w)[k] == Spelled(bits, j, w)
  {
    hide FromBits, Spelled, Pow2;
    if |bits| < w {
      Padded(bits, w);
    } else if k == 0 {
      FromBitsIs(bits[..w], bits, 0);
    } else {
      hide Bit;
      assert j - w == w * (k - 1) >= 0;
      RegroupAt(bits[w..], w, k - 1, j - w);
      SpelledShifts(bits, j - w, w, w);
    }
  }

  lemma Padded(bits: seq<bool>, w: nat)
    requires |bits| < w
    ensures FromBits(bits + Zeros(w - |bits|)) == Spelled(bits, 0, w)
  {
    FromBitsIs(bits + Zeros(w - |bits|), bits, 0);
  }

  lemma BitIs(bytes: Bytes, j: nat)
    ensures Bit(Join(Values(bytes), 8), j) == BitOf(bytes, j)
  {
    hide Join;
    JoinedBytes(Values(bytes));
    if j < 8 * |bytes| {
      JoinAt(Values(bytes), j);
    }
  }

  lemma SixSpell(bits: seq<bool>, j: nat)
    ensures Spelled(bits, j, 5) == 16 * Bit(bits, j) + 8 * Bit(bits, j + 1) + 4 * Bit(bits, j + 2) + 2 * Bit(bits, j + 3) + Bit(bits, j + 4)
    ensures Spelled(bits, j, 6) == 2 * Spelled(bits, j, 5) + Bit(bits, j + 5)
  {
    hide Bit;
    assert Spelled(bits, j, 1) == 2 * Spelled(bits, j, 0) + Bit(bits, j) == Bit(bits, j);
    assert Spelled(bits, j, 2) == 2 * Spelled(bits, j, 1) + Bit(bits, j + 1);
    assert Spelled(bits, j, 3) == 2 * Spelled(bits, j, 2) + Bit(bits, j + 2);
    assert Spelled(bits, j, 4) == 2 * Spelled(bits, j, 3) + Bit(bits, j + 3);
    assert Spelled(bits, j, 5) == 2 * Spelled(bits, j, 4) + Bit(bits, j + 4);
  }

  /** The number of the five bits from the `j`-th on. */
  function Five(bytes: Bytes, j: nat): nat {
    16 * BitOf(bytes, j) + 8 * BitOf(bytes, j + 1) + 4 * BitOf(bytes, j + 2) + 2 * BitOf(bytes, j + 3) + BitOf(bytes, j + 4)
  }

  lemma FiveIs(bytes: Bytes, j: nat)
    ensures Spelled(Join(Values(bytes), 8), j, 5) == Five(bytes, j)
    ensures Spelled(Join(Values(bytes), 8), j, 6) == 2 * Five(bytes, j) + BitOf(bytes, j + 5)
  {
    hide Join, Bit, BitOf, Spelled;
    SixSpell(Join(Values(bytes), 8), j);
    BitIs(bytes, j);
    BitIs(bytes, j + 1);
    BitIs(bytes, j + 2);
    BitIs(bytes, j + 3);
    BitIs(bytes, j + 4);
    BitIs(bytes, j + 5);
  }

  /** Every character of a base32 text is the alphabet's at the number that the next five bits spell. */
  lemma Base32ByBits(bytes: Bytes, k: nat)
    requires k < |Base32(bytes)|
    ensures |Base32(bytes)| == (8 * |bytes| + 4) / 5
    ensures Five(bytes, 5 * k) < 32 && Base32(bytes)[k] == ALPHABET32[Five(bytes, 5 * k)]
  {
    Base32Length(bytes);
    assert Pow2(5) == 32;
    hide Regroup, Join, Five, Spelled, Pow2, Digit32;
    var bits := Join(Values(bytes), 8);
    FiveIs(bytes, 5 * k);
    RegroupAt(bits, 5, k, 5 * k);
    Digit32Is(Regroup(bits, 5)[k]);
  }

  /** Every character of a base64url text is the alphabet's at the number that the next six bits spell, and there are as many as
      cover the bits. */
  lemma Base64ByBits(bytes: Bytes, k: nat)
    requires k < |Base64(bytes)|
    ensures |Base64(bytes)| == (8 * |bytes| + 5) / 6
    ensures var v := 2 * Five(bytes, 6 * k) + BitOf(bytes, 6 * k + 5); v < 64 && Base64(bytes)[k] == Letter64(v)
  {
    hide *;
    Base64Length(bytes);
    Base64At(bytes, k);
    Digit64Is(Spelled(Join(Values(bytes), 8), 6 * k, 6));
    FiveIs(bytes, 6 * k);
  }

  lemma Base64At(bytes: Bytes, k: nat)
    requires k < |Base64(bytes)|
    ensures var v := Spelled(Join(Values(bytes), 8), 6 * k, 6); v < 64 && Base64(bytes)[k] == Digit64(v)
  {
    assert Pow2(6) == 64;
    hide Regroup, Join, Spelled, Pow2, Digit64;
    RegroupAt(Join(Values(bytes), 8), 6, k, 6 * k);
  }

  // ---------------------------------------------------------------- escapes

  function HexValue(c: char): nat {
    if '0' <= c <= '9' then (c - '0') as nat else if 'a' <= c <= 'f' then (c - 'a') as nat + 10 else 0
  }

  /** What the inside of a JSON string stands for, as far as these escapes go (RFC 8259, section 7). */
  function Unescape(r: string): string {
    if r == "" then ""
    else if r[0] != '\\' || |r| < 2 then [r[0]] + Unescape(r[1..])
    else if r[1] == 'u' && |r| >= 6 then [(16 * HexValue(r[4]) + HexValue(r[5])) as char] + Unescape(r[6..])
    else [if r[1] == 'n' then '\n' else if r[1] == 'r' then '\r' else if r[1] == 't' then '\t' else r[1]] + Unescape(r[2..])
  }

  predicate Printable(s: string) { forall i :: 0 <= i < |s| ==> s[i] >= ' ' && s[i] != '<' && s[i] != '>' && s[i] != '&' }

  lemma EscapeCharReads(c: char, rest: string)
    ensures Unescape(EscapeChar(c) + rest) == [c] + Unescape(rest) && Printable(EscapeChar(c))
  {
    var e := EscapeChar(c);
    if c == '\"' || c == '\\' || c == '\n' || c == '\r' || c == '\t' {
      PairReads(c, rest);
    } else if c == '<' || c == '>' || c == '&' || c < ' ' {
      UnitReads(c, rest);
    } else {
      assert (e + rest)[1..] == rest;
    }
  }

  lemma PairReads(c: char, rest: string)
    requires c == '\"' || c == '\\' || c == '\n' || c == '\r' || c == '\t'
    ensures Unescape(EscapeChar(c) + rest) == [c] + Unescape(rest) && Printable(EscapeChar(c))
  {
    assert (EscapeChar(c) + rest)[2..] == rest;
  }

  lemma HexDigitReads(n: nat)
    requires n < 16
    ensures HexValue(HexDigit(n)) == n && HexDigit(n) > '&' && HexDigit(n) != '<' && HexDigit(n) != '>'
  {
  }

  lemma UnitReads(c: char, rest: string)
    requires c == '<' || c == '>' || c == '&' || (c < ' ' && c != '\n' && c != '\r' && c != '\t')
    ensures Unescape(EscapeChar(c) + rest) == [c] + Unescape(rest) && Printable(EscapeChar(c))
  {
    var a, b := HexDigit(c as int / 16 % 16), HexDigit(c as int % 16);
    HexDigitReads(c as nat / 16 % 16);
    HexDigitReads(c as nat % 16);
    assert c as nat < 64 && 16 * (c as nat / 16 % 16) + c as nat % 16 == c as nat;
    UnitIs(c, a, b);
    hide EscapeChar, HexDigit, HexValue;
    var text := EscapeChar(c) + rest;
    assert text[0] == '\\' && text[1] == 'u' && text[4] == a && text[5] == b && text[6..] == rest;
  }

  lemma UnitIs(c: char, a: char, b: char)
    requires c == '<' || c == '>' || c == '&' || (c < ' ' && c != '\n' && c != '\r' && c != '\t')
    requires a == HexDigit(c as int / 16 % 16) && b == HexDigit(c as int % 16)
    ensures EscapeChar(c) == ['\\', 'u', '0', '0', a, b]
  {
    hide HexDigit;
  }

  /** The escaped text stands for the text, and has neither control characters nor those special to HTML. */
  lemma {:induction false} EscapedReads(s: string)
    ensures Unescape(Escape(s)) == s && Printable(Escape(s))
  {
    if s != "" {
      EscapedReads(s[1..]);
      EscapeCharReads(s[0], Escape(s[1..]));
    }
  }

  /** The body is the object of version, time and endpoint in this order, byte for byte where nothing needs an escape. */
  lemma BodyIs(libs: Libs, now: int, url: string)
    ensures exists t, u ::
              && Unescape(t) == libs.formatTime(now) && Unescape(u) == url && Printable(t) && Printable(u)
              && Body(libs, now, url) == ToBytes("{\"v\":1,\"iat\":\"" + t + "\",\"url\":\"" + u + "\"}")
  {
    EscapedReads(libs.formatTime(now));
    EscapedReads(url);
    hide Escape, Unescape, ToBytes;
    assert Body(libs, now, url) == ToBytes("{\"v\":1,\"iat\":\"" + Escape(libs.formatTime(now)) + "\",\"url\":\"" + Escape(url) + "\"}");
  }

  // ---------------------------------------------------------------- endpoints

  function Decimal(n: nat): (s: string)
    ensures s != ""
  {
    (if n < 10 then "" else Decimal(n / 10)) + [NUMERALS[n % 10]]
  }

  lemma {:induction false} DecimalReads(n: nat)
    ensures IsDigits(Decimal(n)) && NumberOf(Decimal(n)) == n && (n > 0 ==> Decimal(n)[0] != '0')
  {
    hide IsDigits, NumberOf, NUMERALS;
    Numeral(n % 10);
    DigitAfter(if n < 10 then "" else Decimal(n / 10), n % 10);
    if n >= 10 {
      DecimalReads(n / 10);
    } else {
      NoDigits();
    }
  }

  lemma NoDigits()
    ensures IsDigits("") && NumberOf("") == 0
  {
  }

  lemma DigitAfter(front: string, d: nat)
    requires d < 10
    ensures IsDigits(front) ==>
              IsDigits(front + ['0' + d as char]) && NumberOf(front + ['0' + d as char]) == 10 * NumberOf(front) + d
  {
    var s := front + ['0' + d as char];
    assert s[..|s| - 1] == front && s[|s| - 1] == '0' + d as char;
  }

  lemma {:induction false} DigitsAreDecimal(s: string)
    requires IsDigits(s) && s != "" && s[0] != '0'
    ensures NumberOf(s) > 0 && s == Decimal(NumberOf(s))
  {
    hide IsDigits, NumberOf, Decimal;
    FrontIsDigits(s);
    NoDigits();
    var n := |s| - 1;
    var front, d := s[..n], (s[n] - '0') as nat;
    DigitAfter(front, d);
    assert s == front + ['0' + d as char];
    if n > 0 {
      DigitsAreDecimal(front);
      DecimalNext(NumberOf(front), d);
    } else {
      assert front == "" && s == ['0' + d as char];
      DecimalOne(d);
    }
  }

  lemma FrontIsDigits(s: string)
    requires IsDigits(s) && s != ""
    ensures IsDigits(s[..|s| - 1]) && '0' <= s[|s| - 1] <= '9'
  {
  }

  lemma DecimalOne(d: nat)
    requires d < 10
    ensures Decimal(d) == ['0' + d as char]
  {
    Numeral(d);
    hide NUMERALS;
  }

  lemma DecimalNext(m: nat, d: nat)
    requires m > 0 && d < 10
    ensures Decimal(m * 10 + d) == Decimal(m) + ['0' + d as char]
  {
    Numeral(d);
    hide NUMERALS;
    assert (m * 10 + d) / 10 == m && (m * 10 + d) % 10 == d;
  }

  lemma LoneZero(s: string)
    ensures IsDigits(s) && |s| == 1 && s[0] == '0' ==> NumberOf(s) == 0
  {
    if s == "0" {
      assert NumberOf(s[..0]) == 0;
    }
  }

  /** A port is absent or the decimal of a number from 1 to 65535. */
  lemma PortMeans(port: string)
    ensures PortOk(port) <==> port == "" || exists n: nat :: 1 <= n <= 65535 && port == Decimal(n)
  {
    hide Decimal;
    if PortOk(port) && port != "" {
      LoneZero(port);
      DigitsAreDecimal(port);
    }
    if n: nat :| 1 <= n <= 65535 && port == Decimal(n) {
      DecimalReads(n);
    }
  }

  /** The kinds of hosts that plain HTTP may be used with. */
  predicate IsLocal(host: string) { host in {"localhost", "127.0.0.1", "::1"} }

  lemma HostMeans(host: string)
    ensures Loopback(host) <==> IsLocal(host)
    ensures Ascii(host) <==> forall i :: 0 <= i < |host| ==> host[i] as int < 128
  {
  }

  /** An endpoint is accepted exactly if it is short enough and the origin alone of an absolute HTTPS URL, or of an HTTP one of this
      host, with an ASCII host and a proper port. */
  lemma EndpointAccepted(libs: Libs, raw: string)
    ensures CanonicalIngestURL(libs, raw).Ok? <==>
              && |raw| <= 2048 && libs.parseUrl(raw).Some?
              && var u := libs.parseUrl(raw).value;
                 && u.absolute && u.authority != "" && u.bare && u.path in {"", "/"}
                 && (u.scheme == "https" || (u.scheme == "http" && IsLocal(u.host)))
                 && (forall i :: 0 <= i < |u.host| ==> u.host[i] as int < 128)
                 && (u.port == "" || exists n: nat :: 1 <= n <= 65535 && u.port == Decimal(n))
  {
    if libs.parseUrl(raw).Some? {
      PortMeans(libs.parseUrl(raw).value.port);
    }
    hide PortOk, Decimal, Origin, EffectivePort;
    if libs.parseUrl(raw).Some? {
      HostMeans(libs.parseUrl(raw).value.host);
    }
    hide Ascii, Loopback, IsLocal;
  }

  /** The origin is written with its scheme, its host, an IPv6 address in brackets, and its port unless that is the scheme's own. */
  lemma EndpointWritten(libs: Libs, raw: string)
    requires CanonicalIngestURL(libs, raw).Ok?
    ensures var u := libs.parseUrl(raw).value;
            var host := if exists i :: 0 <= i < |u.host| && u.host[i] == ':' then "[" + u.host + "]" else u.host;
            var own := u.port == if u.scheme == "https" then "443" else "80";
            CanonicalIngestURL(libs, raw).value == u.scheme + "://" + host + if own || u.port == "" then "" else ":" + u.port
  {
    var u := libs.parseUrl(raw).value;
    hide PortOk, Ascii, Loopback;
    assert u.scheme == "https" || u.scheme == "http";
    assert CanonicalIngestURL(libs, raw).value == Origin(u.scheme, u.host, EffectivePort(u));
    hide CanonicalIngestURL;
    OriginIs(u);
  }

  lemma OriginIs(u: Url)
    requires u.scheme in {"https", "http"}
    ensures var host := if exists i :: 0 <= i < |u.host| && u.host[i] == ':' then "[" + u.host + "]" else u.host;
            var own := u.port == if u.scheme == "https" then "443" else "80";
            Origin(u.scheme, u.host, EffectivePort(u)) == u.scheme + "://" + host + if own || u.port == "" then "" else ":" + u.port
  {
    var host := if exists i :: 0 <= i < |u.host| && u.host[i] == ':' then "[" + u.host + "]" else u.host;
    assert host == Bracketed(u.host);
    hide Bracketed;
    if EffectivePort(u) == "" {
      assert u.scheme + "://" + host + "" == u.scheme + "://" + host;
    } else {
      assert u.scheme + "://" + host + (":" + u.port) == u.scheme + "://" + (host + ":" + u.port);
    }
  }

  /** The reason of a refused endpoint is the first that applies. */
  lemma EndpointRefused(libs: Libs, raw: string)
    ensures var r := CanonicalIngestURL(libs, raw);
            && (r == Err(UrlTooLong) <==> |raw| > 2048)
            && (|raw| <= 2048 && libs.parseUrl(raw).None? ==> r == Err(UrlInvalid))
            && (|raw| <= 2048 && libs.parseUrl(raw).Some? ==>
                  var u := libs.parseUrl(raw).value;
                  var local := u.host in {"localhost", "127.0.0.1", "::1"};
                  && (!u.absolute || u.authority == "" <==> r == Err(UrlInvalid))
                  && (u.absolute && u.authority != "" ==>
                        && (r == Err(UrlScheme) <==> u.scheme !in {"http", "https"} || (u.scheme == "http" && !local))
                        && (r == Err(UrlNotOrigin) ==> !u.bare || u.path !in {"", "/"})
                        && (!u.bare || u.path !in {"", "/"} ==> r in {Err(UrlScheme), Err(UrlNotOrigin)})
                        && (r == Err(UrlHostAscii) ==> exists i :: 0 <= i < |u.host| && u.host[i] as int >= 128)
                        && ((exists i :: 0 <= i < |u.host| && u.host[i] as int >= 128) ==>
                              r in {Err(UrlScheme), Err(UrlNotOrigin), Err(UrlHostAscii)})
                        && (r == Err(UrlPort) ==> u.port != "" && forall n: nat :: u.port == Decimal(n) ==> n == 0 || n > 65535)))
    ensures CanonicalIngestURL(libs, raw).Err? ==>
              CanonicalIngestURL(libs, raw).problem in {UrlTooLong, UrlInvalid, UrlScheme, UrlNotOrigin, UrlHostAscii, UrlPort}
  {
    if libs.parseUrl(raw).Some? {
      PortMeans(libs.parseUrl(raw).value.port);
    }
    hide PortOk, Decimal;
  }

  // ---------------------------------------------------------------- payloads

  predicate Stands(v: Value, s: string) { v == Text(s) || (v == Null && s == "") }

  predicate IsBreak(c: char) { c == '\n' || c == '\r' }

  lemma {:induction false} SkipsBreaks(s: string)
    ensures forall c :: c in SkipBreaks(s) <==> c in s && !IsBreak(c)
    ensures (forall i :: 0 <= i < |s| ==> !IsBreak(s[i])) ==> SkipBreaks(s) == s
  {
    if s != "" {
      SkipsBreaks(s[1..]);
      assert s == [s[0]] + s[1..];
    }
  }

  /** A text without line breaks decodes exactly if it has only characters of the alphabet and not one more than a multiple of four. */
  lemma Decodes(s: string)
    requires forall i :: 0 <= i < |s| ==> !IsBreak(s[i])
    ensures Decode64(s).Some? <==> |s| % 4 != 1 && forall i :: 0 <= i < |s| ==> s[i] in ALPHABET64
  {
    SkipsBreaks(s);
    AlphabetsAre();
    hide IsDigit64, SkipBreaks;
  }

  /** A payload is accepted exactly if it is base64url of a whole object of three members, the version 1, a UTC time and an endpoint
      in canonical form, and then these are what it says. */
  lemma PayloadAccepted(libs: Libs, segment: string, p: Payload)
    ensures ParseSKPayload(libs, segment) == Ok(p) <==>
              && segment != "" && '=' !in segment && Decode64(segment).Some? && libs.members(Decode64(segment).value).closed
              && Says(libs.members(Decode64(segment).value).list, p)
              && p.version == 1 && libs.isUtcTime(p.iat) && CanonicalIngestURL(libs, p.url) == Ok(p.url)
  {
    if Decode64(segment).Some? {
      hide CanonicalIngestURL, Decode64, Walk, Says;
      ObjectSays(libs.members(Decode64(segment).value), p);
    }
  }

  /** The members are the version 1, a time and an endpoint, and nothing else. */
  ghost predicate Says(list: seq<(string, Value)>, p: Payload) {
    && |list| == 3
    && (exists i :: 0 <= i < 3 && list[i] == ("v", Number(1)))
    && (exists i :: 0 <= i < 3 && list[i].0 == "iat" && Stands(list[i].1, p.iat))
    && (exists i :: 0 <= i < 3 && list[i].0 == "url" && Stands(list[i].1, p.url))
  }

  lemma ObjectSays(m: Members, p: Payload)
    ensures Walk(m).Ok? ==>
              var fields := Walk(m).value;
              && "v" in fields && "iat" in fields && "url" in fields
              && (Says(m.list, p) <==> fields["v"] == Number(1) && Stands(fields["iat"], p.iat) && Stands(fields["url"], p.url))
    ensures m.closed && Says(m.list, p) ==> Walk(m).Ok?
  {
    WalkAcceptsExactly(m);
    hide Walk, Stands;
    if Walk(m).Ok? {
      var fields := Walk(m).value;
      var a :| 0 <= a < 3 && m.list[a].0 == "v";
      var b :| 0 <= b < 3 && m.list[b].0 == "iat";
      var c :| 0 <= c < 3 && m.list[c].0 == "url";
      assert fields["v"] == m.list[a].1 && fields["iat"] == m.list[b].1 && fields["url"] == m.list[c].1;
      ThreeOnly(m.list, a, b, c);
    }
  }

  lemma ThreeOnly(list: seq<(string, Value)>, a: nat, b: nat, c: nat)
    requires |list| == 3 && a < 3 && b < 3 && c < 3 && list[a].0 == "v" && list[b].0 == "iat" && list[c].0 == "url"
    ensures forall i :: 0 <= i < 3 ==>
              && (list[i].0 == "v" ==> i == a) && (list[i].0 == "iat" ==> i == b) && (list[i].0 == "url" ==> i == c)
  {
    assert "iat"[0] != "url"[0];
  }

  /** The reason of a refused object: a repeated name first, then an object that is not whole, a missing name, and another name. */
  lemma ObjectRefused(m: Members)
    ensures Walk(m) == Err(DuplicateField) <==> exists i, j :: 0 <= i < j < |m.list| && m.list[i].0 == m.list[j].0
    ensures Walk(m) == Err(BadJson) <==> Distinct(m.list) && !m.closed
    ensures Walk(m) == Err(MissingField) <==>
              Distinct(m.list) && m.closed && !(Named(m.list, "v") && Named(m.list, "iat") && Named(m.list, "url"))
    ensures Walk(m) == Err(UnknownField) <==>
              Distinct(m.list) && m.closed && Named(m.list, "v") && Named(m.list, "iat") && Named(m.list, "url") && |m.list| != 3
  {
    CollectMeaning(m.list);
    hide Collect, Named;
    if Collect(m.list).Some? {
      var fields := Collect(m.list).value;
      HoldsTells(fields, m.list, "v");
      HoldsTells(fields, m.list, "iat");
      HoldsTells(fields, m.list, "url");
    }
  }

  predicate IsInt(v: Value) { v.Number? || v.Null? }
  predicate IsText(v: Value) { v.Text? || v.Null? }

  /** The reason of a refused payload whose object is fit: the first of the type, the version, the time and the endpoint. */
  lemma PayloadRefused(libs: Libs, segment: string, v: Value, iat: Value, url: Value)
    requires segment != "" && '=' !in segment && Decode64(segment).Some?
    requires Walk(libs.members(Decode64(segment).value)) == Ok(map["v" := v, "iat" := iat, "url" := url])
    ensures var r := ParseSKPayload(libs, segment);
            var t, u := if iat.Text? then iat.s else "", if url.Text? then url.s else "";
            && (r == Err(BadFieldType) <==> !IsInt(v) || !IsText(iat) || !IsText(url))
            && (r == Err(BadVersion) <==> IsInt(v) && IsText(iat) && IsText(url) && v != Number(1))
            && (r == Err(BadIat) <==> v == Number(1) && IsText(iat) && IsText(url) && !libs.isUtcTime(t))
            && (r.Err? && v == Number(1) && IsText(iat) && IsText(url) && libs.isUtcTime(t) ==>
                  || (CanonicalIngestURL(libs, u).Err? && r == Err(CanonicalIngestURL(libs, u).problem))
                  || (CanonicalIngestURL(libs, u).Ok? && CanonicalIngestURL(libs, u).value != u && r == Err(UrlNotCanonical)))
  {
    EndpointRefused(libs, if url.Text? then url.s else "");
    hide CanonicalIngestURL, Decode64, Walk;
  }

  lemma PayloadUnread(libs: Libs, segment: string)
    ensures ParseSKPayload(libs, segment) == Err(EmptyPayload) <==> segment == ""
    ensures segment != "" && (Decode64(segment).None? || '=' in segment) ==> ParseSKPayload(libs, segment) == Err(BadBase64)
    ensures segment != "" && Decode64(segment).Some? && '=' !in segment && Walk(libs.members(Decode64(segment).value)).Err? ==>
              ParseSKPayload(libs, segment) == Err(Walk(libs.members(Decode64(segment).value)).problem)
  {
    if Decode64(segment).Some? {
      ObjectRefused(libs.members(Decode64(segment).value));
    }
    hide Decode64, CanonicalIngestURL;
  }

  // ---------------------------------------------------------------- keys

  /** The text that keys of the scope start with. */
  function Start(scope: string): string
  {
    if scope == "ingest" then "opslane_pk_" else if scope == "sourcemaps" then "opslane_sk_" else "opslane_ak_"
  }

  /** A key is its prefix, 26 base32 characters, 43 base64url characters and, for source maps only, possibly a payload. */
  lemma KeyMeans(libs: Libs, raw: string, key: Parsed, payload: Option<string>)
    ensures IsKey(libs, raw, key, payload) <==>
              && key.scope in {"ingest", "sourcemaps", "api"}
              && |key.keyId| == 26 && (forall i :: 0 <= i < 26 ==> key.keyId[i] in ALPHABET32)
              && |key.secret| == 43 && (forall i :: 0 <= i < 43 ==> key.secret[i] in ALPHABET64)
              && (payload.Some? ==> key.scope == "sourcemaps" && exists p :: ParseSKPayload(libs, payload.value) == Ok(p))
              && raw == Start(key.scope) + key.keyId + "_" + key.secret + if payload.Some? then "_" + payload.value else ""
  {
    AlphabetsAre();
    hide ParseSKPayload, IsDigit32, IsDigit64;
    if PrefixForScope(key.scope).Some? {
      assert PrefixForScope(key.scope).value + [SEP] == Start(key.scope);
    }
  }

  /** A text of at most 4096 bytes is read as exactly the key that it spells. */
  lemma KeysRead(libs: Libs, raw: string, key: Parsed)
    ensures ParseProjectKey(libs, raw) == Some(key) <==>
              && |raw| <= 4096 && key.scope in {"ingest", "sourcemaps", "api"}
              && |key.keyId| == 26 && (forall i :: 0 <= i < 26 ==> key.keyId[i] in ALPHABET32)
              && |key.secret| == 43 && (forall i :: 0 <= i < 43 ==> key.secret[i] in ALPHABET64)
              && var bare := Start(key.scope) + key.keyId + "_" + key.secret;
                 || raw == bare
                 || (key.scope == "sourcemaps" && exists payload, p :: raw == bare + "_" + payload && ParseSKPayload(libs, payload) == Ok(p))
  {
    ParseAcceptsExactly(libs, raw, key);
    hide ParseProjectKey, ParseSKPayload, IsKey;
    var bare := Start(key.scope) + key.keyId + "_" + key.secret;
    if payload :| IsKey(libs, raw, key, payload) {
      KeyMeans(libs, raw, key, payload);
      assert payload == None ==> raw == bare + "" == bare;
      assert payload.Some? ==> raw == bare + ("_" + payload.value) == bare + "_" + payload.value;
    }
    if raw == bare {
      KeyMeans(libs, raw, key, None);
      assert raw == bare + "";
    }
    if payload, p :| raw == bare + "_" + payload && ParseSKPayload(libs, payload) == Ok(p) {
      KeyMeans(libs, raw, key, Some(payload));
      assert raw == bare + ("_" + payload);
    }
  }

  /** What minting answers: the three refusals of arguments, the refusals of the endpoint, and otherwise the spelled key, whose
      stored hash is that of the secret alone. */
  lemma MintingAnswers(libs: Libs, scope: string, endpoint: string, idRaw: Bytes, secretRaw: Bytes, now: int)
    ensures var r := MintedKey(libs, scope, endpoint, idRaw, secretRaw, now);
            && (r == Err(UnknownScope) <==> scope !in {"ingest", "sourcemaps", "api"})
            && (r == Err(EndpointRequired) <==> scope == "sourcemaps" && endpoint == "")
            && (r == Err(EndpointForbidden) <==> scope in {"ingest", "api"} && endpoint != "")
            && (scope in {"ingest", "api"} && endpoint == "" ==>
                  r == Ok(Minted(Base32(idRaw), scope, if scope == "ingest" then "opslane_pk" else "opslane_ak",
                                 libs.hash(Base64(secretRaw)), Start(scope) + Base32(idRaw) + "_" + Base64(secretRaw))))
            && (scope == "sourcemaps" && endpoint != "" ==>
                  var c := CanonicalIngestURL(libs, endpoint);
                  && (c.Err? ==> r == Err(c.problem))
                  && (c.Ok? && CanonicalIngestURL(libs, c.value) != c ==> r == Err(UrlNotCanonical))
                  && (c.Ok? && CanonicalIngestURL(libs, c.value) == c ==>
                        r == Ok(Minted(Base32(idRaw), scope, "opslane_sk", libs.hash(Base64(secretRaw)),
                                       Start(scope) + Base32(idRaw) + "_" + Base64(secretRaw) + "_" + Base64(Body(libs, now, c.value))))))
  {
    EndpointRefused(libs, endpoint);
    hide Base32, Base64, CanonicalIngestURL, Body;
    if PrefixForScope(scope).Some? {
      assert PrefixForScope(scope).value + [SEP] == Start(scope);
    }
  }
}
