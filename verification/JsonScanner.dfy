/**
 The strict JSON scanner of packages/ingestion/debugid/debugid.go.

 The functions below read a suffix of the input and return what is left of it or the rejection
 reason; class `Scanner` at the end is the program, and each of its methods is proved to do what
 the function of the same name says.  The theorems say that the accepted inputs are exactly the
 JSON texts of `JsonGrammar`.
 */
module JsonScanner {
  import opened Wrappers
  import opened JsonGrammar

  datatype Reason =
    | InvalidJson | DepthExceeded | DuplicateKey | TrailingData | InvalidUnicode | NonFiniteNumber

  datatype Outcome = Rest(rest: Bytes) | Reject(reason: Reason)

  datatype LexOutcome = Items(items: seq<Item>, rest: Bytes) | BadString(reason: Reason)

  // ---------------------------------------------------------------- tokens

  function SkipBlank(s: Bytes): (r: Bytes)
    ensures |r| <= |s|
  {
    if s != [] && IsBlank(s[0]) then SkipBlank(s[1..]) else s
  }

  /** The next character of a string literal, as written in the first `length` bytes. */
  datatype ItemOutcome = One(item: Item, length: nat) | BadItem(reason: Reason)

  function NextItem(s: Bytes): (o: ItemOutcome)
    requires s != [] && s[0] != QUOTE
    ensures o.One? ==> 0 < o.length <= |s| && ItemOk(o.item) && RenderItem(o.item) == s[..o.length]
  {
    if s[0] < 0x20 then BadItem(InvalidJson)
    else if s[0] != BACKSLASH then One(Plain(s[0]), 1)
    else if |s| < 2 then BadItem(InvalidJson)
    else if s[1] != LOWER_U then
      if IsEscape(s[1]) then One(Escape(s[1]), 2) else BadItem(InvalidJson)
    else if |s| < 6 || !IsHex4(s[2..6]) then BadItem(InvalidJson)
    else if IsHigh(HexValue(s[2..6])) then
      if |s| < 12 || s[6] != BACKSLASH || s[7] != LOWER_U then BadItem(InvalidUnicode)
      else if !IsHex4(s[8..12]) then BadItem(InvalidJson)
      else if !IsLow(HexValue(s[8..12])) then BadItem(InvalidUnicode)
      else
        assert s[..12] == [BACKSLASH, LOWER_U] + (s[2..6] + ([BACKSLASH, LOWER_U] + s[8..12]));
        One(Pair(s[2..6], s[8..12]), 12)
    else if IsLow(HexValue(s[2..6])) then BadItem(InvalidUnicode)
    else
      assert s[..6] == [BACKSLASH, LOWER_U] + s[2..6];
      One(Code(s[2..6]), 6)
  }

  /** A string literal after its opening quote. */
  function LexString(s: Bytes): (o: LexOutcome)
    ensures o.Items? ==> |o.rest| < |s|
  {
    if s == [] then BadString(InvalidJson)
    else if s[0] == QUOTE then Items([], s[1..])
    else
      var next := NextItem(s);
      if next.BadItem? then BadString(next.reason)
      else
        var o := LexString(s[next.length..]);
        if o.Items? then Items([next.item] + o.items, o.rest) else o
  }

  function StringStart(s: Bytes): (o: LexOutcome)
    ensures o.Items? ==> |o.rest| < |s|
  {
    if s == [] || s[0] != QUOTE then BadString(InvalidJson) else LexString(s[1..])
  }

  function DigitCount(s: Bytes): (n: nat)
    ensures n <= |s|
    ensures AllDigits(s[..n])
    ensures n < |s| ==> !IsDigit(s[n])
  {
    if s != [] && IsDigit(s[0]) then
      assert forall k :: 0 < k < |s| ==> s[k] == s[1..][k - 1];
      1 + DigitCount(s[1..])
    else 0
  }

  function SignLength(s: Bytes): (n: nat)
    ensures n <= |s|
  {
    if s != [] && s[0] == MINUS then 1 else 0
  }

  function IntLength(s: Bytes): (n: Option<nat>)
    ensures n.Some? ==> 0 < n.value <= |s|
  {
    if s == [] then None
    else if s[0] == 0x30 then if |s| > 1 && IsDigit(s[1]) then None else Some(1)
    else if 0x31 <= s[0] <= 0x39 then Some(DigitCount(s))
    else None
  }

  function FracLength(s: Bytes): (n: Option<nat>)
    ensures n.Some? ==> n.value <= |s|
  {
    if s == [] || s[0] != POINT then Some(0)
    else
      var digits := DigitCount(s[1..]);
      if digits == 0 then None else Some(1 + digits)
  }

  function ExpLength(s: Bytes): (n: Option<nat>)
    ensures n.Some? ==> n.value <= |s|
  {
    if s == [] || (s[0] != 0x65 && s[0] != 0x45) then Some(0)
    else
      var sign := if |s| > 1 && (s[1] == PLUS || s[1] == MINUS) then 1 else 0;
      var digits := DigitCount(s[1 + sign..]);
      if digits == 0 then None else Some(1 + sign + digits)
  }

  /** The fraction and the exponent. */
  function TailLength(s: Bytes): (n: Option<nat>)
    ensures n.Some? ==> n.value <= |s|
  {
    var c := FracLength(s);
    if c.None? then None
    else
      var d := ExpLength(s[c.value..]);
      if d.None? then None else Some(c.value + d.value)
  }

  function UnsignedLength(s: Bytes): (n: Option<nat>)
    ensures n.Some? ==> 0 < n.value <= |s|
  {
    var b := IntLength(s);
    if b.None? then None
    else
      var e := TailLength(s[b.value..]);
      if e.None? then None else Some(b.value + e.value)
  }

  /** The length of the number text in front of `s`; None where the scanner rejects it as invalid JSON. */
  function NumberLength(s: Bytes): (n: Option<nat>)
    ensures n.Some? ==> 0 < n.value <= |s|
  {
    var a := SignLength(s);
    var u := UnsignedLength(s[a..]);
    if u.None? then None else Some(a + u.value)
  }

  function ScanNumber(fin: Bytes -> bool, s: Bytes): (o: Outcome)
    ensures o.Rest? ==> |o.rest| < |s|
  {
    var n := NumberLength(s);
    if n.None? then Reject(InvalidJson)
    else if !fin(s[..n.value]) then Reject(NonFiniteNumber)
    else Rest(s[n.value..])
  }

  function ScanLiteral(s: Bytes, text: Bytes): (o: Outcome)
    ensures o.Rest? && text != [] ==> |o.rest| < |s|
  {
    if text <= s then Rest(s[|text|..]) else Reject(InvalidJson)
  }

  // ---------------------------------------------------------------- values

  function ScanValue(fin: Bytes -> bool, s: Bytes, depth: nat): (o: Outcome)
    ensures o.Rest? ==> |o.rest| < |s|
    decreases |s|, 0
  {
    if depth > MAX_DEPTH then Reject(DepthExceeded)
    else if s == [] then Reject(InvalidJson)
    else if s[0] == OPEN_BRACE then
      var t := SkipBlank(s[1..]);
      if t != [] && t[0] == CLOSE_BRACE then Rest(t[1..]) else ScanMembers(fin, t, depth, {})
    else if s[0] == OPEN_BRACKET then
      var t := SkipBlank(s[1..]);
      if t != [] && t[0] == CLOSE_BRACKET then Rest(t[1..]) else ScanElements(fin, t, depth)
    else if s[0] == QUOTE then
      var o := StringStart(s);
      if o.Items? then Rest(o.rest) else Reject(o.reason)
    else if s[0] == 0x74 then ScanLiteral(s, TRUE_TEXT)
    else if s[0] == 0x66 then ScanLiteral(s, FALSE_TEXT)
    else if s[0] == 0x6E then ScanLiteral(s, NULL_TEXT)
    else if s[0] == MINUS || IsDigit(s[0]) then ScanNumber(fin, s)
    else Reject(InvalidJson)
  }

  /** The elements of a non-empty array, up to and including its closing bracket. */
  function ScanElements(fin: Bytes -> bool, s: Bytes, depth: nat): (o: Outcome)
    ensures o.Rest? ==> |o.rest| < |s|
    decreases |s|, 1
  {
    var v := ScanValue(fin, s, depth + 1);
    if v.Reject? then v
    else
      var t := SkipBlank(v.rest);
      if t != [] && t[0] == CLOSE_BRACKET then Rest(t[1..])
      else if t == [] || t[0] != COMMA then Reject(InvalidJson)
      else ScanElements(fin, SkipBlank(t[1..]), depth)
  }

  /** The members of a non-empty object whose earlier names are `seen`. */
  function ScanMembers(fin: Bytes -> bool, s: Bytes, depth: nat, seen: set<Bytes>): (o: Outcome)
    ensures o.Rest? ==> |o.rest| < |s|
    decreases |s|, 1
  {
    var name := StringStart(s);
    if name.BadString? then Reject(name.reason)
    else
      StringItemsOk(s);
      if Meanings(name.items) in seen then Reject(DuplicateKey)
      else
        var c := SkipBlank(name.rest);
        if c == [] || c[0] != COLON then Reject(InvalidJson)
        else
          var v := ScanValue(fin, SkipBlank(c[1..]), depth + 1);
          if v.Reject? then v
          else
            var t := SkipBlank(v.rest);
            if t != [] && t[0] == CLOSE_BRACE then Rest(t[1..])
            else if t == [] || t[0] != COMMA then Reject(InvalidJson)
            else ScanMembers(fin, SkipBlank(t[1..]), depth, seen + {Meanings(name.items)})
  }

  /** After the value of a member: the end of the object, or a comma and the members that follow. */
  function AfterValue(fin: Bytes -> bool, s: Bytes, depth: nat, seen: set<Bytes>): Outcome {
    var t := SkipBlank(s);
    if t != [] && t[0] == CLOSE_BRACE then Rest(t[1..])
    else if t == [] || t[0] != COMMA then Reject(InvalidJson)
    else ScanMembers(fin, SkipBlank(t[1..]), depth, seen)
  }

  lemma ArrayRead(fin: Bytes -> bool, s: Bytes, depth: nat)
    requires s != [] && s[0] == OPEN_BRACKET && depth <= MAX_DEPTH
    ensures ScanValue(fin, s, depth) ==
            var t := SkipBlank(s[1..]);
            if t != [] && t[0] == CLOSE_BRACKET then Rest(t[1..]) else ScanElements(fin, t, depth)
  {
    hide SkipBlank, ScanElements, ScanMembers, ScanNumber, ScanLiteral, StringStart;
  }

  /** The element at the front, and what may follow it. */
  lemma ElementRead(fin: Bytes -> bool, s: Bytes, depth: nat)
    ensures ScanElements(fin, s, depth) ==
            var v := ScanValue(fin, s, depth + 1);
            if v.Reject? then v
            else
              var t := SkipBlank(v.rest);
              if t != [] && t[0] == CLOSE_BRACKET then Rest(t[1..])
              else if t == [] || t[0] != COMMA then Reject(InvalidJson)
              else ScanElements(fin, SkipBlank(t[1..]), depth)
  {
    hide ScanValue, SkipBlank;
  }

  /** The member at the front, in the order in which it is read. */
  lemma MemberReads(fin: Bytes -> bool, s: Bytes, depth: nat, seen: set<Bytes>)
    ensures var name := StringStart(s);
            && (name.BadString? ==> ScanMembers(fin, s, depth, seen) == Reject(name.reason))
            && (!name.BadString? ==>
                  && ItemsOk(name.items)
                  && var c := SkipBlank(name.rest);
                     ScanMembers(fin, s, depth, seen) ==
                     if Meanings(name.items) in seen then Reject(DuplicateKey)
                     else if c == [] || c[0] != COLON then Reject(InvalidJson)
                     else
                       var v := ScanValue(fin, SkipBlank(c[1..]), depth + 1);
                       if v.Reject? then v else AfterValue(fin, v.rest, depth, seen + {Meanings(name.items)}))
  {
    hide SkipBlank, Meanings, ItemsOk, StringStart, ScanValue;
    if StringStart(s).Items? {
      StringItemsOk(s);
    }
  }

  function Scan(fin: Bytes -> bool, s: Bytes): Outcome {
    var v := ScanValue(fin, SkipBlank(s), 1);
    if v.Reject? then v
    else if SkipBlank(v.rest) != [] then Reject(TrailingData)
    else Rest([])
  }

  predicate Accepts(fin: Bytes -> bool, s: Bytes) {
    Scan(fin, s).Rest?
  }

  // ---------------------------------------------------------------- soundness of the tokens

  lemma LexStringNext(s: Bytes)
    requires LexString(s).Items? && s[0] != QUOTE
    ensures var next := NextItem(s);
            && next.One? && LexString(s[next.length..]).Items?
            && LexString(s) == Items([next.item] + LexString(s[next.length..]).items, LexString(s[next.length..]).rest)
  {
    hide NextItem;
  }

  lemma ItemsNext(i: Item, items: seq<Item>)
    ensures RenderItems([i] + items) == RenderItem(i) + RenderItems(items)
    ensures ItemOk(i) && ItemsOk(items) ==> ItemsOk([i] + items)
  {
    hide RenderItem, ItemOk;
    assert ([i] + items)[1..] == items;
  }

  lemma LexStringEnd(s: Bytes)
    requires s != [] && s[0] == QUOTE
    ensures LexString(s) == Items([], s[1..]) && ItemsOk([]) && s == RenderItems([]) + [QUOTE] + s[1..]
  {
  }

  lemma Regroup(s: Bytes, n: nat, items: Bytes, end: Bytes)
    requires n <= |s| && s[n..] == items + [QUOTE] + end
    ensures s == (s[..n] + items) + [QUOTE] + end
  {
  }

  lemma {:induction false} LexStringSound(s: Bytes)
    requires LexString(s).Items?
    ensures ItemsOk(LexString(s).items)
    ensures s == RenderItems(LexString(s).items) + [QUOTE] + LexString(s).rest
    decreases |s|
  {
    LexStringReads(s);
    hide *;
    if s[0] == QUOTE {
      LexStringEnd(s);
    } else {
      LexStringNext(s);
      var next := NextItem(s);
      var o := LexString(s[next.length..]);
      LexStringSound(s[next.length..]);
      ItemsNext(next.item, o.items);
      Regroup(s, next.length, RenderItems(o.items), o.rest);
    }
  }

  lemma LexStringReads(s: Bytes)
    requires LexString(s).Items?
    ensures s != []
  {
  }

  lemma QuotedIs(s: Bytes, body: Bytes, rest: Bytes)
    requires s != [] && s[0] == QUOTE && s[1..] == body + [QUOTE] + rest
    ensures s == ([QUOTE] + body + [QUOTE]) + rest
  {
    assert s == [QUOTE] + s[1..];
  }

  lemma StringItemsOk(s: Bytes)
    ensures StringStart(s).Items? ==>
              ItemsOk(StringStart(s).items) && s == RenderString(StringStart(s).items) + StringStart(s).rest
  {
    hide ItemsOk, RenderItems, LexString;
    if StringStart(s).Items? {
      LexStringSound(s[1..]);
      QuotedIs(s, RenderItems(StringStart(s).items), StringStart(s).rest);
    }
  }

  lemma SkipBlankNext(s: Bytes)
    ensures s != [] && IsBlank(s[0]) ==> SkipBlank(s) == SkipBlank(s[1..])
    ensures !(s != [] && IsBlank(s[0])) ==> SkipBlank(s) == s
  {
    hide IsBlank;
  }

  lemma BlankCons(b: byte, rest: Bytes)
    requires IsBlank(b) && Blank(rest)
    ensures Blank([b] + rest)
  {
    hide IsBlank;
  }

  lemma NoBlank()
    ensures Blank([])
  {
  }

  lemma ConsText(s: Bytes, head: Bytes, tail: Bytes)
    requires s != [] && s[1..] == head + tail
    ensures s == ([s[0]] + head) + tail
  {
    assert s == [s[0]] + s[1..];
  }

  lemma {:induction false} SkipBlankSound(s: Bytes) returns (blank: Bytes)
    ensures Blank(blank) && s == blank + SkipBlank(s)
    ensures SkipBlank(s) != [] ==> !IsBlank(SkipBlank(s)[0])
  {
    hide *;
    SkipBlankNext(s);
    if s != [] && IsBlank(s[0]) {
      var rest := SkipBlankSound(s[1..]);
      blank := [s[0]] + rest;
      BlankCons(s[0], rest);
      ConsText(s, rest, SkipBlank(s));
    } else {
      blank := [];
      NoBlank();
    }
  }

  lemma TailSound(s: Bytes) returns (frac: Bytes, exp: Bytes)
    requires TailLength(s).Some?
    ensures IsFrac(frac) && IsExp(exp) && frac + exp == s[..TailLength(s).value]
  {
    hide FracLength, ExpLength, IsFrac, IsExp;
    var c := FracLength(s).value;
    var d := ExpLength(s[c..]).value;
    FracSound(s);
    ExpSound(s[c..]);
    frac, exp := s[..c], s[c..][..d];
    TwoPieces(s, c, d);
  }

  lemma UnsignedSound(s: Bytes) returns (whole: Bytes, frac: Bytes, exp: Bytes)
    requires UnsignedLength(s).Some?
    ensures IsInt(whole) && IsFrac(frac) && IsExp(exp) && whole + (frac + exp) == s[..UnsignedLength(s).value]
  {
    hide IntLength, TailLength, IsInt, IsFrac, IsExp;
    var b := IntLength(s).value;
    IntSound(s);
    frac, exp := TailSound(s[b..]);
    whole := s[..b];
    TwoPieces(s, b, TailLength(s[b..]).value);
  }

  lemma NumberSound(s: Bytes) returns (v: Value)
    requires NumberLength(s).Some?
    ensures v.Number? && IsSign(v.sign) && IsInt(v.whole) && IsFrac(v.frac) && IsExp(v.exp)
    ensures NumberText(v.sign, v.whole, v.frac, v.exp) == s[..NumberLength(s).value]
  {
    hide UnsignedLength, IsInt, IsFrac, IsExp;
    var a := SignLength(s);
    var whole, frac, exp := UnsignedSound(s[a..]);
    v := Number(s[..a], whole, frac, exp);
    TwoPieces(s, a, UnsignedLength(s[a..]).value);
  }

  lemma TwoPieces(s: Bytes, a: nat, b: nat)
    requires a + b <= |s|
    ensures s[..a] + s[a..][..b] == s[..a + b]
  {
  }

  lemma IntSound(s: Bytes)
    requires IntLength(s).Some?
    ensures IsInt(s[..IntLength(s).value])
  {
  }

  lemma FracSound(s: Bytes)
    requires FracLength(s).Some?
    ensures IsFrac(s[..FracLength(s).value])
  {
    var n := FracLength(s).value;
    if n > 0 {
      assert s[..n][1..] == s[1..][..n - 1];
    }
  }

  lemma ExpSound(s: Bytes)
    requires ExpLength(s).Some?
    ensures IsExp(s[..ExpLength(s).value])
  {
    var n := ExpLength(s).value;
    if n > 0 {
      var k := if |s| > 1 && (s[1] == PLUS || s[1] == MINUS) then 2 else 1;
      assert s[..n][k..] == s[k..][..n - k];
    }
  }

  // ---------------------------------------------------------------- soundness of values

  /** Room left under the nesting bound for a value that starts at level `depth`. */
  predicate Fits(depth: nat, height: nat) {
    depth + height <= MAX_DEPTH + 1
  }

  lemma LiteralReads(s: Bytes, text: Bytes)
    requires ScanLiteral(s, text).Rest?
    ensures s == text + ScanLiteral(s, text).rest
  {
    assert s == s[..|text|] + s[|text|..];
  }

  lemma {:induction false} ValueSound(fin: Bytes -> bool, s: Bytes, depth: nat) returns (v: Value)
    requires ScanValue(fin, s, depth).Rest?
    ensures s == Render(v) + ScanValue(fin, s, depth).rest
    ensures WellFormed(fin, v) && Fits(depth, Height(v))
    decreases |s|, 1
  {
    var rest := ScanValue(fin, s, depth).rest;
    hide SkipBlank, ScanMembers, ScanElements;
    if s[0] == OPEN_BRACE || s[0] == OPEN_BRACKET {
      v := ContainerSound(fin, s, depth);
    } else if s[0] == QUOTE {
      StringItemsOk(s);
      v := String(StringStart(s).items);
    } else if s[0] == 0x74 || s[0] == 0x66 || s[0] == 0x6E {
      var text := if s[0] == 0x74 then TRUE_TEXT else if s[0] == 0x66 then FALSE_TEXT else NULL_TEXT;
      v := Literal(text);
      LiteralReads(s, text);
    } else {
      v := NumberSound(s);
    }
  }

  /** What an accepted container starts with. */
  lemma ContainerReads(fin: Bytes -> bool, s: Bytes, depth: nat)
    requires ScanValue(fin, s, depth).Rest? && (s[0] == OPEN_BRACE || s[0] == OPEN_BRACKET)
    ensures depth <= MAX_DEPTH
    ensures var t := SkipBlank(s[1..]);
            if s[0] == OPEN_BRACE
            then ScanValue(fin, s, depth) == if t != [] && t[0] == CLOSE_BRACE then Rest(t[1..]) else ScanMembers(fin, t, depth, {})
            else ScanValue(fin, s, depth) == if t != [] && t[0] == CLOSE_BRACKET then Rest(t[1..]) else ScanElements(fin, t, depth)
  {
    hide SkipBlank, ScanMembers, ScanElements, StringStart, ScanLiteral, ScanNumber;
  }

  lemma EmptyIsOk(fin: Bytes -> bool, blank: Bytes, depth: nat)
    requires Blank(blank) && depth <= MAX_DEPTH
    ensures WellFormed(fin, EmptyObject(blank)) && Fits(depth, Height(EmptyObject(blank)))
    ensures WellFormed(fin, EmptyArray(blank)) && Fits(depth, Height(EmptyArray(blank)))
    ensures Render(EmptyObject(blank)) == [OPEN_BRACE] + blank + [CLOSE_BRACE]
    ensures Render(EmptyArray(blank)) == [OPEN_BRACKET] + blank + [CLOSE_BRACKET]
  {
    hide Blank;
  }

  lemma EmptyText(open: byte, blank: Bytes, t: Bytes)
    requires t != []
    ensures [open] + (blank + t) == ([open] + blank + [t[0]]) + t[1..]
  {
  }

  lemma ObjectIsOk(fin: Bytes -> bool, blank: Bytes, ms: Members, depth: nat)
    requires Blank(blank) && MembersOk(fin, ms) && NamesOk(ms) && Distinct(Names(ms)) && Fits(depth + 1, MembersHeight(ms))
    ensures WellFormed(fin, Object(blank, ms)) && Fits(depth, Height(Object(blank, ms)))
    ensures Render(Object(blank, ms)) == [OPEN_BRACE] + blank + RenderMembers(ms) + [CLOSE_BRACE]
  {
    hide Blank, MembersOk, NamesOk, Distinct, Names, MembersHeight, RenderMembers;
  }

  lemma ArrayIsOk(fin: Bytes -> bool, blank: Bytes, es: Elements, depth: nat)
    requires Blank(blank) && ElementsOk(fin, es) && Fits(depth + 1, ElementsHeight(es))
    ensures WellFormed(fin, Array(blank, es)) && Fits(depth, Height(Array(blank, es)))
    ensures Render(Array(blank, es)) == [OPEN_BRACKET] + blank + RenderElements(es) + [CLOSE_BRACKET]
  {
    hide Blank, ElementsOk, ElementsHeight, RenderElements;
  }

  lemma {:induction false} ContainerSound(fin: Bytes -> bool, s: Bytes, depth: nat) returns (v: Value)
    requires ScanValue(fin, s, depth).Rest? && (s[0] == OPEN_BRACE || s[0] == OPEN_BRACKET)
    ensures s == Render(v) + ScanValue(fin, s, depth).rest
    ensures WellFormed(fin, v) && Fits(depth, Height(v))
    decreases |s|, 0
  {
    hide *;
    ContainerReads(fin, s, depth);
    var rest := ScanValue(fin, s, depth).rest;
    var t := SkipBlank(s[1..]);
    var blank := SkipBlankSound(s[1..]);
    assert s == [s[0]] + s[1..];
    if s[0] == OPEN_BRACE {
      if t != [] && t[0] == CLOSE_BRACE {
        v := EmptyObject(blank);
        EmptyIsOk(fin, blank, depth);
        EmptyText(s[0], blank, t);
      } else {
        var ms := MembersSound(fin, t, depth, {});
        v := Object(blank, ms);
        ObjectIsOk(fin, blank, ms, depth);
        Bracketed(OPEN_BRACE, blank, RenderMembers(ms), CLOSE_BRACE, rest);
      }
    } else {
      if t != [] && t[0] == CLOSE_BRACKET {
        v := EmptyArray(blank);
        EmptyIsOk(fin, blank, depth);
        EmptyText(s[0], blank, t);
      } else {
        var es := ElementsSound(fin, t, depth);
        v := Array(blank, es);
        ArrayIsOk(fin, blank, es, depth);
        Bracketed(OPEN_BRACKET, blank, RenderElements(es), CLOSE_BRACKET, rest);
      }
    }
  }

  lemma Bracketed(open: byte, blank: Bytes, inner: Bytes, close: byte, rest: Bytes)
    ensures [open] + (blank + (inner + [close] + rest)) == ([open] + blank + inner + [close]) + rest
  {
  }

  lemma {:induction false} ElementsSound(fin: Bytes -> bool, s: Bytes, depth: nat) returns (es: Elements)
    requires ScanElements(fin, s, depth).Rest?
    ensures s == RenderElements(es) + [CLOSE_BRACKET] + ScanElements(fin, s, depth).rest
    ensures ElementsOk(fin, es) && Fits(depth + 1, ElementsHeight(es))
    decreases |s|, 2
  {
    hide *;
    ElementReads(fin, s, depth);
    var end := ScanElements(fin, s, depth).rest;
    var value := ValueSound(fin, s, depth + 1);
    var after := ScanValue(fin, s, depth + 1).rest;
    var blank := SkipBlankSound(after);
    var t := SkipBlank(after);
    assert t == [t[0]] + t[1..];
    if t[0] == CLOSE_BRACKET {
      es := LastElement(value, blank);
      LastElementIsOk(fin, value, blank, depth, end);
    } else {
      var before := SkipBlankSound(t[1..]);
      var rest := ElementsSound(fin, SkipBlank(t[1..]), depth);
      es := MoreElements(value, blank, before, rest);
      MoreElementsAreOk(fin, es, depth);
      ElementsRendered(es, s, end, SkipBlank(t[1..]));
    }
  }

  lemma ElementReads(fin: Bytes -> bool, s: Bytes, depth: nat)
    requires ScanElements(fin, s, depth).Rest?
    ensures var v := ScanValue(fin, s, depth + 1);
            && v.Rest? && |v.rest| < |s| && |SkipBlank(v.rest)| <= |v.rest|
            && var t := SkipBlank(v.rest);
               && t != [] && (t[0] == CLOSE_BRACKET || t[0] == COMMA)
               && |SkipBlank(t[1..])| < |t|
               && ScanElements(fin, s, depth) ==
                  if t[0] == CLOSE_BRACKET then Rest(t[1..]) else ScanElements(fin, SkipBlank(t[1..]), depth)
  {
    hide ScanValue, SkipBlank;
  }

  lemma LastElementIsOk(fin: Bytes -> bool, value: Value, blank: Bytes, depth: nat, end: Bytes)
    requires WellFormed(fin, value) && Blank(blank) && Fits(depth + 1, Height(value))
    ensures var es := LastElement(value, blank);
            && ElementsOk(fin, es) && Fits(depth + 1, ElementsHeight(es))
            && Render(value) + (blank + ([CLOSE_BRACKET] + end)) == RenderElements(es) + [CLOSE_BRACKET] + end
  {
    hide WellFormed, Blank, Height, Render;
  }

  lemma MoreElementsAreOk(fin: Bytes -> bool, es: Elements, depth: nat)
    requires es.MoreElements? && WellFormed(fin, es.value) && Blank(es.after) && Fits(depth + 1, Height(es.value))
    requires Blank(es.before) && ElementsOk(fin, es.rest) && Fits(depth + 1, ElementsHeight(es.rest))
    ensures ElementsOk(fin, es) && Fits(depth + 1, ElementsHeight(es))
  {
    hide WellFormed, Blank, Height;
  }

  lemma ElementsRendered(es: Elements, s: Bytes, end: Bytes, tail: Bytes)
    requires es.MoreElements?
    requires s == Render(es.value) + (es.after + ([COMMA] + (es.before + tail)))
    requires tail == RenderElements(es.rest) + [CLOSE_BRACKET] + end
    ensures s == RenderElements(es) + [CLOSE_BRACKET] + end
  {
    hide Render;
  }

  lemma LastIsOk(fin: Bytes -> bool, ms: Members, depth: nat)
    requires ms.LastMember? && MembersOk(fin, ms) && Fits(depth + 1, Height(ms.value))
    ensures RenderMembers(ms) == RenderPair(ms) && Fits(depth + 1, MembersHeight(ms))
    ensures NamesOk(ms) && Names(ms) == [Meanings(ms.name)] && Distinct(Names(ms))
  {
  }

  function WithMore(first: Members, before: Bytes, rest: Members): Members {
    MoreMembers(first.name, first.beforeColon, first.afterColon, first.value, first.after, before, rest)
  }

  lemma MoreIsOk(fin: Bytes -> bool, first: Members, before: Bytes, rest: Members, depth: nat)
    requires first.LastMember? && MembersOk(fin, first) && Fits(depth + 1, Height(first.value)) && Blank(before)
    requires MembersOk(fin, rest) && Fits(depth + 1, MembersHeight(rest)) && NamesOk(rest)
    ensures var ms := WithMore(first, before, rest);
            && MembersOk(fin, ms) && Fits(depth + 1, MembersHeight(ms)) && NamesOk(ms)
            && ItemsOk(first.name) && Names(ms) == [Meanings(first.name)] + Names(rest)
  {
    hide WellFormed, Height, Blank, Meanings, ItemsOk;
  }

  lemma {:induction false} MembersSound(fin: Bytes -> bool, s: Bytes, depth: nat, seen: set<Bytes>)
    returns (ms: Members)
    requires ScanMembers(fin, s, depth, seen).Rest?
    ensures s == RenderMembers(ms) + [CLOSE_BRACE] + ScanMembers(fin, s, depth, seen).rest
    ensures MembersOk(fin, ms) && Fits(depth + 1, MembersHeight(ms))
    ensures NamesOk(ms) && Distinct(Names(ms)) && (forall n :: n in Names(ms) ==> n !in seen)
    decreases |s|, 2
  {
    hide *;
    var end := ScanMembers(fin, s, depth, seen).rest;
    var t: Bytes;
    ms, t := PairSound(fin, s, depth, seen);
    assert t == [t[0]] + t[1..];
    LastIsOk(fin, ms, depth);
    if t[0] != CLOSE_BRACE {
      var before := SkipBlankSound(t[1..]);
      var rest := MembersSound(fin, SkipBlank(t[1..]), depth, seen + {Meanings(ms.name)});
      var first := ms;
      MoreIsOk(fin, first, before, rest, depth);
      MoreRendered(first, before, rest, s, end, t);
      assert Meanings(first.name) !in Names(rest);
      ms := WithMore(first, before, rest);
      DistinctCons(Meanings(first.name), Names(rest));
    }
  }

  lemma MoreRendered(first: Members, before: Bytes, rest: Members, s: Bytes, end: Bytes, t: Bytes)
    requires first.LastMember? && s == RenderPair(first) + t && t != [] && t[0] == COMMA
    requires t[1..] == before + (RenderMembers(rest) + [CLOSE_BRACE] + end)
    ensures s == RenderMembers(WithMore(first, before, rest)) + [CLOSE_BRACE] + end
  {
    assert t == [COMMA] + t[1..];
    MembersRendered(WithMore(first, before, rest), s, end, RenderMembers(rest) + [CLOSE_BRACE] + end);
  }

  lemma DistinctCons(name: Bytes, names: seq<Bytes>)
    requires Distinct(names) && name !in names
    ensures Distinct([name] + names)
  {
  }

  /** The first member, as if it were the last one, and the text after it. */
  lemma {:induction false} PairSound(fin: Bytes -> bool, s: Bytes, depth: nat, seen: set<Bytes>)
    returns (ms: Members, t: Bytes)
    requires ScanMembers(fin, s, depth, seen).Rest?
    ensures ms.LastMember? && MembersOk(fin, ms) && Fits(depth + 1, Height(ms.value))
    ensures s == RenderPair(ms) + t && |t| < |s| && t != []
    ensures Meanings(ms.name) !in seen
    ensures ScanMembers(fin, s, depth, seen) ==
            if t[0] == CLOSE_BRACE then Rest(t[1..])
            else ScanMembers(fin, SkipBlank(t[1..]), depth, seen + {Meanings(ms.name)})
    ensures t[0] == CLOSE_BRACE || t[0] == COMMA
    decreases |s|, 1
  {
    hide *;
    PairReads(fin, s, depth, seen);
    StringItemsOk(s);
    var name := StringStart(s);
    var beforeColon := SkipBlankSound(name.rest);
    var c := SkipBlank(name.rest);
    assert c == [COLON] + c[1..];
    var afterColon := SkipBlankSound(c[1..]);
    var u := SkipBlank(c[1..]);
    var value := ValueSound(fin, u, depth + 1);
    var after := ScanValue(fin, u, depth + 1).rest;
    var blank := SkipBlankSound(after);
    t := SkipBlank(after);
    ms := LastMember(name.items, beforeColon, afterColon, value, blank);
    PairIsOk(fin, ms);
    PairRendered(ms, s, t);
  }

  lemma PairIsOk(fin: Bytes -> bool, ms: Members)
    requires ms.LastMember? && ItemsOk(ms.name) && WellFormed(fin, ms.value)
    requires Blank(ms.beforeColon) && Blank(ms.afterColon) && Blank(ms.after)
    ensures MembersOk(fin, ms)
  {
  }

  /** What an accepted list of members starts with. */
  lemma PairReads(fin: Bytes -> bool, s: Bytes, depth: nat, seen: set<Bytes>)
    requires ScanMembers(fin, s, depth, seen).Rest?
    ensures StringStart(s).Items? && ItemsOk(StringStart(s).items)
    ensures var name, c := StringStart(s), SkipBlank(StringStart(s).rest);
            && Meanings(name.items) !in seen && c != [] && c[0] == COLON
            && var v := ScanValue(fin, SkipBlank(c[1..]), depth + 1);
               && v.Rest?
               && var t := SkipBlank(v.rest);
                  && |t| < |s| && t != [] && (t[0] == CLOSE_BRACE || t[0] == COMMA)
                  && ScanMembers(fin, s, depth, seen)
                     == if t[0] == CLOSE_BRACE then Rest(t[1..])
                        else ScanMembers(fin, SkipBlank(t[1..]), depth, seen + {Meanings(name.items)})
  {
    hide StringStart, SkipBlank, ScanValue, ItemsOk, Meanings, RenderString;
    StringItemsOk(s);
  }

  lemma PairRendered(ms: Members, s: Bytes, t: Bytes)
    requires s == RenderString(ms.name) + (ms.beforeColon + ([COLON] + (ms.afterColon + (Render(ms.value) + (ms.after + t)))))
    ensures s == RenderPair(ms) + t
  {
  }

  lemma MembersRendered(ms: Members, s: Bytes, end: Bytes, tail: Bytes)
    requires ms.MoreMembers?
    requires s == RenderPair(LastMember(ms.name, ms.beforeColon, ms.afterColon, ms.value, ms.after))
                  + ([COMMA] + (ms.before + tail))
    requires tail == RenderMembers(ms.rest) + [CLOSE_BRACE] + end
    ensures s == RenderMembers(ms) + [CLOSE_BRACE] + end
  {
  }

  // ---------------------------------------------------------------- completeness of the tokens

  /** The text `t` does not start with whitespace. */
  predicate Trimmed(t: Bytes) {
    t == [] || !IsBlank(t[0])
  }

  /** A number in front of `t` is not continued by `t`. */
  predicate EndsNumber(t: Bytes) {
    t == [] || !(IsDigit(t[0]) || t[0] == POINT || t[0] == 0x65 || t[0] == 0x45)
  }

  lemma {:induction false} SkipBlankComplete(blank: Bytes, t: Bytes)
    requires Blank(blank) && Trimmed(t)
    ensures SkipBlank(blank + t) == t
  {
    if blank == [] {
      assert blank + t == t;
    } else {
      assert (blank + t)[1..] == blank[1..] + t;
      SkipBlankComplete(blank[1..], t);
    }
  }

  lemma NextItemComplete(i: Item, t: Bytes)
    requires ItemOk(i)
    ensures RenderItem(i) != [] && RenderItem(i)[0] != QUOTE
    ensures NextItem(RenderItem(i) + t) == One(i, |RenderItem(i)|)
  {
    var s := RenderItem(i) + t;
    match i
    case Plain(b) =>
    case Escape(c) =>
    case Code(hex) =>
      assert s[2..6] == hex;
    case Pair(high, low) =>
      assert s[2..6] == high && s[8..12] == low;
  }

  lemma LexStringCons(i: Item, t: Bytes)
    requires ItemOk(i) && LexString(t).Items?
    ensures LexString(RenderItem(i) + t) == Items([i] + LexString(t).items, LexString(t).rest)
  {
    var s := RenderItem(i) + t;
    NextItemComplete(i, t);
    hide NextItem, RenderItem, ItemOk;
    assert s[|RenderItem(i)|..] == t;
    assert s[0] == RenderItem(i)[0];
  }

  lemma NoItems(t: Bytes)
    ensures LexString(RenderItems([]) + [QUOTE] + t) == Items([], t)
  {
    hide NextItem;
    assert RenderItems([]) + [QUOTE] + t == [QUOTE] + t;
  }

  lemma FirstItem(items: seq<Item>)
    requires ItemsOk(items) && items != []
    ensures ItemOk(items[0]) && ItemsOk(items[1..]) && items == [items[0]] + items[1..]
    ensures RenderItems(items) == RenderItem(items[0]) + RenderItems(items[1..])
  {
    hide ItemOk, RenderItem;
  }

  lemma {:induction false} LexStringComplete(items: seq<Item>, t: Bytes)
    requires ItemsOk(items)
    ensures LexString(RenderItems(items) + [QUOTE] + t) == Items(items, t)
  {
    hide *;
    if items == [] {
      NoItems(t);
    } else {
      FirstItem(items);
      var head, rest := items[0], items[1..];
      LexStringComplete(rest, t);
      LexStringCons(head, RenderItems(rest) + [QUOTE] + t);
      assert RenderItems(items) + [QUOTE] + t == RenderItem(head) + (RenderItems(rest) + [QUOTE] + t);
    }
  }

  lemma StringComplete(items: seq<Item>, t: Bytes)
    requires ItemsOk(items)
    ensures StringStart(RenderString(items) + t) == Items(items, t)
  {
    var s := RenderString(items) + t;
    assert s[1..] == RenderItems(items) + [QUOTE] + t;
    LexStringComplete(items, t);
  }

  lemma {:induction false} DigitCountComplete(digits: Bytes, t: Bytes)
    requires AllDigits(digits) && (t == [] || !IsDigit(t[0]))
    ensures DigitCount(digits + t) == |digits|
  {
    if digits == [] {
      assert digits + t == t;
    } else {
      assert (digits + t)[1..] == digits[1..] + t;
      assert forall k :: 0 <= k < |digits[1..]| ==> digits[1..][k] == digits[k + 1];
      DigitCountComplete(digits[1..], t);
    }
  }

  lemma IntComplete(whole: Bytes, t: Bytes)
    requires IsInt(whole) && (t == [] || !IsDigit(t[0]))
    ensures IntLength(whole + t) == Some(|whole|)
  {
    if whole != [0x30] {
      DigitCountComplete(whole, t);
    }
  }

  lemma FracComplete(frac: Bytes, t: Bytes)
    requires IsFrac(frac) && (t == [] || (!IsDigit(t[0]) && t[0] != POINT))
    ensures FracLength(frac + t) == Some(|frac|)
  {
    if frac == [] {
      assert frac + t == t;
    } else {
      assert (frac + t)[1..] == frac[1..] + t;
      DigitCountComplete(frac[1..], t);
    }
  }

  lemma ExpComplete(exp: Bytes, t: Bytes)
    requires IsExp(exp) && EndsNumber(t)
    ensures ExpLength(exp + t) == Some(|exp|)
  {
    if exp == [] {
      assert exp + t == t;
    } else {
      var k := if exp[1] == PLUS || exp[1] == MINUS then 2 else 1;
      assert !IsDigit(PLUS) && !IsDigit(MINUS);
      assert k == 2 ==> !AllDigits(exp[1..]) by {
        assert exp[1..][0] == exp[1];
      }
      assert (exp + t)[k..] == exp[k..] + t;
      DigitCountComplete(exp[k..], t);
    }
  }

  lemma NumberComplete(sign: Bytes, whole: Bytes, frac: Bytes, exp: Bytes, t: Bytes)
    requires IsSign(sign) && IsInt(whole) && IsFrac(frac) && IsExp(exp) && EndsNumber(t)
    ensures NumberLength(NumberText(sign, whole, frac, exp) + t) == Some(|NumberText(sign, whole, frac, exp)|)
  {
    hide IsInt, IsFrac, IsExp, EndsNumber, UnsignedLength;
    NumberTailsStart(whole, frac, exp, t);
    UnsignedComplete(whole, frac, exp, t);
    var u := whole + (frac + (exp + t));
    var s := NumberText(sign, whole, frac, exp) + t;
    assert s == sign + u;
    assert u[0] == whole[0];
    assert SignLength(s) == |sign|;
    assert s[|sign|..] == u;
  }

  lemma UnsignedComplete(whole: Bytes, frac: Bytes, exp: Bytes, t: Bytes)
    requires IsInt(whole) && IsFrac(frac) && IsExp(exp) && EndsNumber(t)
    ensures UnsignedLength(whole + (frac + (exp + t))) == Some(|whole| + |frac| + |exp|)
  {
    hide IsInt, IsFrac, IsExp, EndsNumber, TailLength, IntLength;
    NumberTailsStart(whole, frac, exp, t);
    TailComplete(frac, exp, t);
    IntComplete(whole, frac + (exp + t));
    assert (whole + (frac + (exp + t)))[|whole|..] == frac + (exp + t);
  }

  lemma TailComplete(frac: Bytes, exp: Bytes, t: Bytes)
    requires IsFrac(frac) && IsExp(exp) && EndsNumber(t)
    ensures TailLength(frac + (exp + t)) == Some(|frac| + |exp|)
  {
    hide IsFrac, IsExp, EndsNumber, FracLength, ExpLength;
    ExpTailStart(exp, t);
    FracComplete(frac, exp + t);
    ExpComplete(exp, t);
    assert (frac + (exp + t))[|frac|..] == exp + t;
  }

  lemma ExpTailStart(exp: Bytes, t: Bytes)
    requires IsExp(exp) && EndsNumber(t)
    ensures exp + t == [] || !(IsDigit((exp + t)[0]) || (exp + t)[0] == POINT)
  {
    if exp != [] {
      assert (exp + t)[0] == exp[0];
    } else {
      assert exp + t == t;
    }
  }

  lemma NumberTailsStart(whole: Bytes, frac: Bytes, exp: Bytes, t: Bytes)
    requires IsInt(whole) && IsFrac(frac) && IsExp(exp) && EndsNumber(t)
    ensures exp + t == [] || !(IsDigit((exp + t)[0]) || (exp + t)[0] == POINT)
    ensures frac + (exp + t) == [] || !IsDigit((frac + (exp + t))[0])
    ensures whole != [] && whole[0] != MINUS
  {
    ExpTailStart(exp, t);
    if frac != [] {
      assert (frac + (exp + t))[0] == frac[0];
    } else {
      assert frac + (exp + t) == exp + t;
    }
  }

  // ---------------------------------------------------------------- completeness of values

  lemma RenderStarts(fin: Bytes -> bool, v: Value)
    requires WellFormed(fin, v)
    ensures Render(v) != [] && !IsBlank(Render(v)[0])
    ensures Render(v)[0] != CLOSE_BRACKET && Render(v)[0] != CLOSE_BRACE
  {
    hide RenderItems, RenderElements, RenderMembers, ElementsOk, MembersOk, NamesOk, Names, IsFrac, IsExp;
    if v.Number? {
      assert Render(v)[0] == if v.sign == [] then v.whole[0] else MINUS;
    }
  }

  lemma {:induction false} ValueComplete(fin: Bytes -> bool, v: Value, t: Bytes, depth: nat)
    requires WellFormed(fin, v) && Fits(depth, Height(v)) && EndsNumber(t)
    ensures ScanValue(fin, Render(v) + t, depth) == Rest(t)
    decreases v, 1
  {
    hide *;
    match v
    case Number(_, _, _, _) => NumberValueComplete(fin, v, t, depth);
    case Array(_, _) => ArrayComplete(fin, v, t, depth);
    case Object(_, _) => ObjectComplete(fin, v, t, depth);
    case _ => SimpleComplete(fin, v, t, depth);
  }

  lemma SimpleComplete(fin: Bytes -> bool, v: Value, t: Bytes, depth: nat)
    requires WellFormed(fin, v) && Fits(depth, Height(v))
    requires v.Literal? || v.String? || v.EmptyArray? || v.EmptyObject?
    ensures ScanValue(fin, Render(v) + t, depth) == Rest(t)
  {
    hide WellFormed, Height, LexString, ScanLiteral;
    match v
    case Literal(text) => LiteralComplete(fin, v, t, depth);
    case String(items) => StringValueComplete(fin, v, t, depth);
    case EmptyArray(blank) => EmptyComplete(fin, v, t, depth);
    case EmptyObject(blank) => EmptyComplete(fin, v, t, depth);
  }

  lemma LiteralComplete(fin: Bytes -> bool, v: Value, t: Bytes, depth: nat)
    requires WellFormed(fin, v) && Fits(depth, Height(v)) && v.Literal?
    ensures ScanValue(fin, Render(v) + t, depth) == Rest(t)
  {
    assert (v.text + t)[|v.text|..] == t;
  }

  lemma StringValueComplete(fin: Bytes -> bool, v: Value, t: Bytes, depth: nat)
    requires WellFormed(fin, v) && Fits(depth, Height(v)) && v.String?
    ensures ScanValue(fin, Render(v) + t, depth) == Rest(t)
  {
    hide LexString;
    StringComplete(v.items, t);
  }

  lemma EmptyComplete(fin: Bytes -> bool, v: Value, t: Bytes, depth: nat)
    requires WellFormed(fin, v) && Fits(depth, Height(v)) && (v.EmptyArray? || v.EmptyObject?)
    ensures ScanValue(fin, Render(v) + t, depth) == Rest(t)
  {
    hide SkipBlank;
    var open, close := if v.EmptyArray? then OPEN_BRACKET else OPEN_BRACE, if v.EmptyArray? then CLOSE_BRACKET else CLOSE_BRACE;
    SkipAfter(open, v.blank, [close] + t);
    assert Render(v) + t == [open] + (v.blank + ([close] + t));
  }

  lemma NumberFacts(fin: Bytes -> bool, v: Value, t: Bytes, depth: nat)
    requires v.Number? && WellFormed(fin, v) && Fits(depth, Height(v)) && EndsNumber(t)
    ensures depth <= MAX_DEPTH && fin(Render(v)) && Render(v) != []
    ensures IsDigit(Render(v)[0]) || Render(v)[0] == MINUS
    ensures NumberLength(Render(v) + t) == Some(|Render(v)|)
  {
    NumberComplete(v.sign, v.whole, v.frac, v.exp, t);
    hide NumberLength, IsFrac, IsExp, EndsNumber;
    assert Render(v)[0] == if v.sign == [] then v.whole[0] else MINUS;
  }

  lemma NumberScans(fin: Bytes -> bool, s: Bytes, depth: nat, n: nat)
    requires depth <= MAX_DEPTH && s != [] && (IsDigit(s[0]) || s[0] == MINUS)
    requires NumberLength(s) == Some(n) && n <= |s| && fin(s[..n])
    ensures ScanValue(fin, s, depth) == Rest(s[n..])
  {
    hide NumberLength, ScanMembers, ScanElements, StringStart, SkipBlank, ScanLiteral;
  }

  lemma NumberValueComplete(fin: Bytes -> bool, v: Value, t: Bytes, depth: nat)
    requires v.Number? && WellFormed(fin, v) && Fits(depth, Height(v)) && EndsNumber(t)
    ensures ScanValue(fin, Render(v) + t, depth) == Rest(t)
  {
    hide *;
    NumberFacts(fin, v, t, depth);
    var s, n := Render(v) + t, |Render(v)|;
    assert s[..n] == Render(v) && s[n..] == t && s[0] == Render(v)[0];
    NumberScans(fin, s, depth, n);
  }

  lemma SkipAfter(open: byte, blank: Bytes, t: Bytes)
    requires Blank(blank) && Trimmed(t)
    ensures SkipBlank(([open] + (blank + t))[1..]) == t
  {
    assert ([open] + (blank + t))[1..] == blank + t;
    SkipBlankComplete(blank, t);
  }

  lemma {:induction false} ArrayComplete(fin: Bytes -> bool, v: Value, t: Bytes, depth: nat)
    requires v.Array? && WellFormed(fin, v) && Fits(depth, Height(v))
    ensures ScanValue(fin, Render(v) + t, depth) == Rest(t)
    decreases v, 0
  {
    var inner := RenderElements(v.elements) + [CLOSE_BRACKET] + t;
    assert ElementsOk(fin, v.elements) && Fits(depth + 1, ElementsHeight(v.elements)) && Blank(v.open);
    ElementsComplete(fin, v.elements, t, depth);
    RenderStarts(fin, v.elements.value);
    assert inner[0] == Render(v.elements.value)[0];
    assert Render(v) == [OPEN_BRACKET] + v.open + RenderElements(v.elements) + [CLOSE_BRACKET];
    hide Height, Render, RenderElements, ScanElements, SkipBlank, WellFormed, ElementsHeight, ElementsOk;
    Bracketed(OPEN_BRACKET, v.open, RenderElements(v.elements), CLOSE_BRACKET, t);
    SkipAfter(OPEN_BRACKET, v.open, inner);
    assert depth <= MAX_DEPTH;
  }

  lemma ElementsParts(fin: Bytes -> bool, es: Elements, depth: nat)
    requires ElementsOk(fin, es) && Fits(depth + 1, ElementsHeight(es))
    ensures WellFormed(fin, es.value) && Fits(depth + 1, Height(es.value)) && Blank(es.after)
    ensures es.MoreElements? ==>
              Blank(es.before) && ElementsOk(fin, es.rest) && WellFormed(fin, es.rest.value) && Fits(depth + 1, ElementsHeight(es.rest))
  {
    hide WellFormed, Height, Blank;
  }

  lemma ElementsStep(fin: Bytes -> bool, s: Bytes, after: Bytes, depth: nat)
    requires ScanValue(fin, s, depth + 1) == Rest(after) && SkipBlank(after) != []
    ensures var t := SkipBlank(after);
            && (t[0] == CLOSE_BRACKET ==> ScanElements(fin, s, depth) == Rest(t[1..]))
            && (t[0] == COMMA ==> ScanElements(fin, s, depth) == ScanElements(fin, SkipBlank(t[1..]), depth))
  {
    hide ScanValue, SkipBlank;
  }

  lemma CommaAndBracket(t: Bytes)
    requires t != [] && (t[0] == COMMA || t[0] == CLOSE_BRACKET)
    ensures EndsNumber(t) && Trimmed(t)
  {
  }

  lemma RestStarts(fin: Bytes -> bool, es: Elements, t: Bytes)
    requires WellFormed(fin, es.value)
    ensures Trimmed(RenderElements(es) + t)
  {
    RenderStarts(fin, es.value);
    hide Render, WellFormed, IsBlank;
    assert (RenderElements(es) + t)[0] == Render(es.value)[0];
  }

  lemma LastElementText(es: Elements, t: Bytes)
    requires es.LastElement?
    ensures RenderElements(es) + [CLOSE_BRACKET] + t == Render(es.value) + (es.after + ([CLOSE_BRACKET] + t))
  {
    hide Render;
  }

  lemma MoreElementsText(es: Elements, t: Bytes)
    requires es.MoreElements?
    ensures RenderElements(es) + [CLOSE_BRACKET] + t
            == Render(es.value) + (es.after + ([COMMA] + (es.before + (RenderElements(es.rest) + [CLOSE_BRACKET] + t))))
  {
    hide Render;
  }

  lemma {:induction false} ElementsComplete(fin: Bytes -> bool, es: Elements, t: Bytes, depth: nat)
    requires ElementsOk(fin, es) && Fits(depth + 1, ElementsHeight(es))
    ensures ScanElements(fin, RenderElements(es) + [CLOSE_BRACKET] + t, depth) == Rest(t)
    decreases es, 0
  {
    hide *;
    ElementsParts(fin, es, depth);
    var next := if es.LastElement? then [] else RenderElements(es.rest) + [CLOSE_BRACKET] + t;
    var tail := if es.LastElement? then [CLOSE_BRACKET] + t else [COMMA] + (es.before + next);
    CommaAndBracket(tail);
    BlankEndsNumber(es.after, tail);
    ValueComplete(fin, es.value, es.after + tail, depth + 1);
    SkipBlankComplete(es.after, tail);
    ElementsStep(fin, Render(es.value) + (es.after + tail), es.after + tail, depth);
    if es.LastElement? {
      LastElementText(es, t);
    } else {
      MoreElementsText(es, t);
      assert next == RenderElements(es.rest) + ([CLOSE_BRACKET] + t);
      RestStarts(fin, es.rest, [CLOSE_BRACKET] + t);
      SkipAfter(COMMA, es.before, next);
      ElementsComplete(fin, es.rest, t, depth);
    }
  }

  lemma BlankEndsNumber(blank: Bytes, t: Bytes)
    requires Blank(blank) && t != [] && EndsNumber(t)
    ensures EndsNumber(blank + t)
  {
    if blank != [] {
      assert (blank + t)[0] == blank[0];
    } else {
      assert blank + t == t;
    }
  }

  lemma {:induction false} ObjectComplete(fin: Bytes -> bool, v: Value, t: Bytes, depth: nat)
    requires v.Object? && WellFormed(fin, v) && Fits(depth, Height(v))
    ensures ScanValue(fin, Render(v) + t, depth) == Rest(t)
    decreases v, 0
  {
    var inner := RenderMembers(v.members) + [CLOSE_BRACE] + t;
    assert MembersOk(fin, v.members) && Fits(depth + 1, MembersHeight(v.members)) && Blank(v.open);
    MembersComplete(fin, v.members, t, depth, {});
    MembersStart(v.members);
    assert inner[0] == QUOTE;
    assert Render(v) == [OPEN_BRACE] + v.open + RenderMembers(v.members) + [CLOSE_BRACE];
    hide Height, Render, RenderMembers, ScanMembers, SkipBlank, WellFormed, MembersHeight, MembersOk, NamesOk;
    Bracketed(OPEN_BRACE, v.open, RenderMembers(v.members), CLOSE_BRACE, t);
    SkipAfter(OPEN_BRACE, v.open, inner);
    assert depth <= MAX_DEPTH;
  }

  lemma MembersStart(ms: Members)
    ensures RenderMembers(ms) != [] && RenderMembers(ms)[0] == QUOTE
  {
  }

  lemma {:induction false} MembersComplete(fin: Bytes -> bool, ms: Members, t: Bytes, depth: nat, seen: set<Bytes>)
    requires MembersOk(fin, ms) && Fits(depth + 1, MembersHeight(ms))
    requires NamesOk(ms) && Distinct(Names(ms)) && (forall n :: n in Names(ms) ==> n !in seen)
    ensures ScanMembers(fin, RenderMembers(ms) + [CLOSE_BRACE] + t, depth, seen) == Rest(t)
    decreases ms, 1
  {
    FirstMemberOk(fin, ms, depth, seen);
    var close := [CLOSE_BRACE] + t;
    if ms.LastMember? {
      PairComplete(fin, ms, close, depth, seen);
      LastMemberText(ms, t);
    } else {
      var next := RenderMembers(ms.rest) + [CLOSE_BRACE] + t;
      var tail := [COMMA] + (ms.before + next);
      RestOfMembersOk(fin, ms, depth, seen);
      MembersComplete(fin, ms.rest, t, depth, seen + {Meanings(ms.name)});
      PairComplete(fin, ms, tail, depth, seen);
      MembersText(ms, t);
      MembersStart(ms.rest);
      assert next[0] == QUOTE && Trimmed(next);
      SkipAfter(COMMA, ms.before, next);
      hide *;
      assert tail[1..] == ms.before + next;
    }
  }

  lemma LastMemberText(ms: Members, t: Bytes)
    requires ms.LastMember?
    ensures RenderMembers(ms) + [CLOSE_BRACE] + t == RenderPair(ms) + ([CLOSE_BRACE] + t)
    ensures ([CLOSE_BRACE] + t)[1..] == t
  {
  }

  lemma MembersText(ms: Members, t: Bytes)
    requires ms.MoreMembers?
    ensures RenderMembers(ms) + [CLOSE_BRACE] + t ==
            RenderPair(ms) + ([COMMA] + (ms.before + (RenderMembers(ms.rest) + [CLOSE_BRACE] + t)))
  {
    hide RenderPair;
  }

  lemma FirstMemberOk(fin: Bytes -> bool, ms: Members, depth: nat, seen: set<Bytes>)
    requires MembersOk(fin, ms) && Fits(depth + 1, MembersHeight(ms))
    requires NamesOk(ms) && forall n :: n in Names(ms) ==> n !in seen
    ensures Fits(depth + 1, Height(ms.value)) && Meanings(ms.name) !in seen
  {
    assert Names(ms)[0] == Meanings(ms.name);
  }

  lemma RestOfMembersOk(fin: Bytes -> bool, ms: Members, depth: nat, seen: set<Bytes>)
    requires ms.MoreMembers? && MembersOk(fin, ms) && Fits(depth + 1, MembersHeight(ms))
    requires NamesOk(ms) && Distinct(Names(ms)) && forall n :: n in Names(ms) ==> n !in seen
    ensures MembersOk(fin, ms.rest) && Fits(depth + 1, MembersHeight(ms.rest)) && Blank(ms.before)
    ensures NamesOk(ms.rest) && Distinct(Names(ms.rest))
    ensures forall n :: n in Names(ms.rest) ==> n !in seen + {Meanings(ms.name)}
  {
    RestOfNames(ms, seen);
  }

  lemma RestOfNames(ms: Members, seen: set<Bytes>)
    requires ms.MoreMembers? && NamesOk(ms) && Distinct(Names(ms)) && (forall n :: n in Names(ms) ==> n !in seen)
    ensures Distinct(Names(ms.rest)) && (forall n :: n in Names(ms.rest) ==> n !in seen + {Meanings(ms.name)})
  {
    var names := Names(ms);
    assert names[1..] == Names(ms.rest);
    forall i, j | 0 <= i < j < |Names(ms.rest)| ensures Names(ms.rest)[i] != Names(ms.rest)[j] {
      assert names[i + 1] != names[j + 1];
    }
    forall n | n in Names(ms.rest) ensures n !in seen + {Meanings(ms.name)} {
      var k :| 0 <= k < |Names(ms.rest)| && Names(ms.rest)[k] == n;
      assert names[0] != names[k + 1];
      assert names[k + 1] in names;
    }
  }

  /** The first member is read to the blank in front of the bracket or comma that follows it. */
  lemma {:induction false} PairComplete(fin: Bytes -> bool, ms: Members, tail: Bytes, depth: nat, seen: set<Bytes>)
    requires MembersOk(fin, ms) && Fits(depth + 1, Height(ms.value)) && Meanings(ms.name) !in seen
    requires tail != [] && (tail[0] == CLOSE_BRACE || tail[0] == COMMA)
    ensures ScanMembers(fin, RenderPair(ms) + tail, depth, seen) ==
            if tail[0] == CLOSE_BRACE then Rest(tail[1..])
            else ScanMembers(fin, SkipBlank(tail[1..]), depth, seen + {Meanings(ms.name)})
    decreases ms, 0
  {
    hide Render, RenderString, SkipBlank, ScanValue, StringStart, ScanMembers, WellFormed, Height;
    var u := Render(ms.value) + (ms.after + tail);
    var c := ms.afterColon + u;
    RenderStarts(fin, ms.value);
    BlankEndsNumber(ms.after, tail);
    StringComplete(ms.name, ms.beforeColon + ([COLON] + c));
    SkipBlankComplete(ms.beforeColon, [COLON] + c);
    SkipBlankComplete(ms.afterColon, u);
    ValueComplete(fin, ms.value, ms.after + tail, depth + 1);
    SkipBlankComplete(ms.after, tail);
    PairText(ms, tail);
    MembersUnfold(fin, RenderPair(ms) + tail, depth, seen, ms.name, ms.beforeColon + ([COLON] + c), c, ms.after + tail, tail);
  }

  lemma PairText(ms: Members, tail: Bytes)
    ensures RenderPair(ms) + tail ==
            RenderString(ms.name) + (ms.beforeColon + ([COLON] + (ms.afterColon + (Render(ms.value) + (ms.after + tail)))))
  {
    hide Render, RenderString;
  }

  lemma MembersUnfold(fin: Bytes -> bool, s: Bytes, depth: nat, seen: set<Bytes>, name: seq<Item>,
                      afterName: Bytes, c: Bytes, afterValue: Bytes, tail: Bytes)
    requires StringStart(s) == Items(name, afterName) && ItemsOk(name) && Meanings(name) !in seen
    requires SkipBlank(afterName) == [COLON] + c
    requires ScanValue(fin, SkipBlank(c), depth + 1) == Rest(afterValue)
    requires SkipBlank(afterValue) == tail && tail != [] && (tail[0] == CLOSE_BRACE || tail[0] == COMMA)
    ensures ScanMembers(fin, s, depth, seen) ==
            if tail[0] == CLOSE_BRACE then Rest(tail[1..])
            else ScanMembers(fin, SkipBlank(tail[1..]), depth, seen + {Meanings(name)})
  {
    assert ([COLON] + c)[1..] == c;
  }

  // ---------------------------------------------------------------- the theorem

  /** The scanner accepts a text if and only if it is a JSON text nested at most 64 deep. */
  lemma AcceptsExactlyJsonTexts(fin: Bytes -> bool, s: Bytes)
    ensures Accepts(fin, s) <==> IsJsonText(fin, s)
  {
    if Accepts(fin, s) {
      AcceptedIsJson(fin, s);
    }
    if IsJsonText(fin, s) {
      var before, v, after :| IsTextOf(fin, s, before, v, after);
      JsonIsAccepted(fin, s, before, v, after);
    }
  }

  lemma AcceptedIsJson(fin: Bytes -> bool, s: Bytes)
    requires Accepts(fin, s)
    ensures IsJsonText(fin, s)
  {
    hide ScanValue, SkipBlank, Render, Height, WellFormed;
    var before := SkipBlankSound(s);
    var v := ValueSound(fin, SkipBlank(s), 1);
    var rest := ScanValue(fin, SkipBlank(s), 1).rest;
    var after := SkipBlankSound(rest);
    assert rest == after;
    assert before + (Render(v) + after) == before + Render(v) + after;
    assert IsTextOf(fin, s, before, v, after);
  }

  lemma JsonIsAccepted(fin: Bytes -> bool, s: Bytes, before: Bytes, v: Value, after: Bytes)
    requires IsTextOf(fin, s, before, v, after)
    ensures Accepts(fin, s)
  {
    assert EndsNumber(after);
    hide ScanValue, SkipBlank, Render, Height, WellFormed;
    RenderStarts(fin, v);
    assert s == before + (Render(v) + after);
    SkipBlankComplete(before, Render(v) + after);
    ValueComplete(fin, v, after, 1);
    assert after + [] == after;
    SkipBlankComplete(after, []);
  }

  // ---------------------------------------------------------------- the program

  predicate Continuation(b: byte) { 0x80 <= b <= 0xBF }

  /** The width Go's utf8.DecodeRune reports for the first rune of `s`; 1 for an invalid encoding. */
  function RuneSize(s: Bytes): (n: nat)
    requires s != []
    ensures 0 < n <= |s|
    ensures forall k :: 0 < k < n ==> Continuation(s[k])
  {
    var b := s[0];
    if 0xC2 <= b <= 0xDF && |s| >= 2 && Continuation(s[1]) then 2
    else if 0xE0 <= b <= 0xEF && |s| >= 3 && Continuation(s[1]) && Continuation(s[2])
         && (b == 0xE0 ==> s[1] >= 0xA0) && (b == 0xED ==> s[1] <= 0x9F) then 3
    else if 0xF0 <= b <= 0xF4 && |s| >= 4 && Continuation(s[1]) && Continuation(s[2]) && Continuation(s[3])
         && (b == 0xF0 ==> s[1] >= 0x90) && (b == 0xF4 ==> s[1] <= 0x8F) then 4
    else 1
  }

  /** What json.Unmarshal makes of a string literal, quotes included. */
  function UnmarshalString(literal: Bytes): Option<Bytes> {
    var o := StringStart(literal);
    if o.Items? && o.rest == [] then
      StringItemsOk(literal);
      Some(Meanings(o.items))
    else None
  }

  /** A literal that was read to its closing quote always unmarshals. */
  lemma LiteralUnmarshals(s: Bytes)
    requires StringStart(s).Items?
    ensures ItemsOk(StringStart(s).items)
    ensures UnmarshalString(s[..|s| - |StringStart(s).rest|]) == Some(Meanings(StringStart(s).items))
  {
    StringItemsOk(s);
    var o := StringStart(s);
    var literal := RenderString(o.items);
    assert s[..|s| - |o.rest|] == literal;
    StringComplete(o.items, []);
    assert literal + [] == literal;
  }

  /** What the outcome of reading the rest of a literal leaves: the rest, or the reason. */
  function Remainder(o: LexOutcome): Outcome {
    if o.Items? then Rest(o.rest) else Reject(o.reason)
  }

  /** Skipping a whole rune reads as many plain characters as it has bytes. */
  lemma {:induction false} RuneIsPlain(s: Bytes, n: nat)
    requires 0 < n <= |s| && IsPlain(s[0])
    requires forall k :: 0 < k < n ==> Continuation(s[k])
    ensures Remainder(LexString(s)) == Remainder(LexString(s[n..]))
    decreases n
  {
    hide *;
    PlainStep(s);
    if n > 1 {
      assert s[1..][n - 1..] == s[n..];
      assert forall k :: 0 < k < n - 1 ==> s[1..][k] == s[k + 1];
      ContinuationIsPlain(s[1]);
      RuneIsPlain(s[1..], n - 1);
    }
  }

  lemma ContinuationIsPlain(b: byte)
    requires Continuation(b)
    ensures IsPlain(b)
  {
  }

  lemma PlainStep(s: Bytes)
    requires s != [] && IsPlain(s[0])
    ensures Remainder(LexString(s)) == Remainder(LexString(s[1..]))
  {
  }

  /** One `\` escape of a literal that starts at `s`. */
  lemma EscapeStep(s: Bytes)
    requires s != [] && s[0] == BACKSLASH
    ensures var next := NextItem(s);
            Remainder(LexString(s)) ==
            if next.One? then Remainder(LexString(s[next.length..])) else Reject(next.reason)
  {
  }

  /** Where a literal ends: at its quote, or in an error. */
  lemma LiteralEnds(s: Bytes)
    ensures s == [] ==> Remainder(LexString(s)) == Reject(InvalidJson)
    ensures s != [] && s[0] == QUOTE ==> Remainder(LexString(s)) == Rest(s[1..])
    ensures s != [] && s[0] < 0x20 ==> Remainder(LexString(s)) == Reject(InvalidJson)
  {
  }

  class Scanner {
    const input: Bytes
    const fin: Bytes -> bool
    var offset: nat

    ghost predicate Valid()
      reads this
    {
      offset <= |input|
    }

    /** The unread input. */
    ghost function Left(): Bytes
      reads this
      requires Valid()
    {
      input[offset..]
    }

    /** The outcome `o` of a reading function is what happened: an error, or this much left. */
    ghost predicate Did(o: Outcome, err: Option<Reason>)
      reads this
    {
      Valid() && match o
                 case Rest(rest) => err == None && Left() == rest
                 case Reject(reason) => err == Some(reason)
    }

    constructor (input: Bytes, fin: Bytes -> bool)
      ensures Valid() && Left() == input && this.input == input && this.fin == fin
    {
      this.input := input;
      this.fin := fin;
      this.offset := 0;
    }

    method SkipWhitespace()
      requires Valid()
      modifies this
      ensures Valid() && Left() == SkipBlank(old(Left()))
    {
      while offset < |input|
        invariant Valid()
        invariant SkipBlank(Left()) == SkipBlank(old(Left()))
      {
        if !IsBlank(input[offset]) {
          return;
        }
        offset := offset + 1;
      }
    }

    method Consume(character: byte) returns (found: bool)
      requires Valid()
      modifies this
      ensures Valid() && found == (old(Left()) != [] && old(Left())[0] == character)
      ensures Left() == if found then old(Left())[1..] else old(Left())
    {
      if offset >= |input| || input[offset] != character {
        return false;
      }
      offset := offset + 1;
      return true;
    }

    method HexCodeUnit() returns (code: nat, err: Option<Reason>)
      requires Valid()
      modifies this
      ensures Valid()
      ensures |old(Left())| >= 4 && IsHex4(old(Left())[..4]) ==>
                err == None && code == HexValue(old(Left())[..4]) && Left() == old(Left())[4..]
      ensures |old(Left())| < 4 || !IsHex4(old(Left())[..4]) ==> err == Some(InvalidJson)
    {
      if offset + 4 > |input| {
        return 0, Some(InvalidJson);
      }
      assert Left()[..4] == input[offset..offset + 4];
      if !IsHex4(input[offset..offset + 4]) {
        return 0, Some(InvalidJson);
      }
      code := HexValue(input[offset..offset + 4]);
      offset := offset + 4;
      err := None;
    }

    /** Reads one escape, from its backslash. */
    method EscapeSequence() returns (err: Option<Reason>)
      requires Valid() && Left() != [] && Left()[0] == BACKSLASH
      modifies this
      ensures Valid()
      ensures match NextItem(old(Left()))
              case One(_, length) => err == None && Left() == old(Left())[length..]
              case BadItem(reason) => err == Some(reason)
    {
      ghost var s := Left();
      offset := offset + 1;
      if offset >= |input| {
        return Some(InvalidJson);
      }
      if input[offset] != LOWER_U {
        if !IsEscape(input[offset]) {
          return Some(InvalidJson);
        }
        offset := offset + 1;
        return None;
      }
      offset := offset + 1;
      assert Left() == s[2..];
      assert |s| >= 6 ==> s[2..][..4] == s[2..6];
      var code: nat;
      code, err := HexCodeUnit();
      if err.Some? {
        return;
      }
      assert Left() == s[6..];
      if IsHigh(code) {
        if offset + 6 > |input| || input[offset] != BACKSLASH || input[offset + 1] != LOWER_U {
          return Some(InvalidUnicode);
        }
        offset := offset + 2;
        assert Left() == s[8..] && s[8..][..4] == s[8..12];
        var low: nat;
        low, err := HexCodeUnit();
        if err.Some? {
          return;
        }
        if !IsLow(low) {
          return Some(InvalidUnicode);
        }
      } else if IsLow(code) {
        return Some(InvalidUnicode);
      }
    }

    method StringLiteral() returns (decoded: Bytes, err: Option<Reason>)
      requires Valid()
      modifies this
      ensures Did(Remainder(StringStart(old(Left()))), err)
      ensures StringStart(old(Left())).Items? ==>
                ItemsOk(StringStart(old(Left())).items) && decoded == Meanings(StringStart(old(Left())).items)
    {
      ghost var s := Left();
      var start := offset;
      var quoted := Consume(QUOTE);
      if !quoted {
        return [], Some(InvalidJson);
      }
      err := StringBody();
      if err.Some? {
        return [], err;
      }
      LiteralUnmarshals(s);
      assert input[start..offset] == s[..|s| - |StringStart(s).rest|];
      decoded := UnmarshalString(input[start..offset]).GetOr([]);
    }

    /** Reads a string literal after its opening quote, up to and including the closing one. */
    method StringBody() returns (err: Option<Reason>)
      requires Valid()
      modifies this
      ensures Did(Remainder(LexString(old(Left()))), err)
    {
      hide LexString, NextItem, RuneSize, Remainder, Continuation, IsEscape, IsHigh, IsLow, IsHex4;
      while offset < |input|
        invariant Valid()
        invariant Remainder(LexString(Left())) == Remainder(LexString(old(Left())))
      {
        var current := input[offset];
        ghost var s := Left();
        LiteralEnds(s);
        if current == QUOTE {
          offset := offset + 1;
          return None;
        } else if current < 0x20 {
          return Some(InvalidJson);
        } else if current != BACKSLASH {
          var size := RuneSize(input[offset..]);
          RuneIsPlain(s, size);
          offset := offset + size;
          assert Left() == s[size..];
        } else {
          EscapeStep(s);
          err := EscapeSequence();
          if err.Some? {
            return;
          }
        }
      }
      LiteralEnds(Left());
      return Some(InvalidJson);
    }

    method Digits() returns (count: nat)
      requires Valid()
      modifies this
      ensures Valid() && count == DigitCount(old(Left())) && Left() == old(Left())[count..]
    {
      var start := offset;
      while offset < |input| && IsDigit(input[offset])
        invariant start <= offset <= |input|
        invariant DigitCount(input[start..]) == offset - start + DigitCount(input[offset..])
      {
        offset := offset + 1;
      }
      count := offset - start;
    }

    /** The digits of the integer part: a zero alone, or digits that do not start with one. */
    method UnsignedPart() returns (err: Option<Reason>)
      requires Valid()
      modifies this
      ensures Valid()
      ensures match IntLength(old(Left()))
              case None => err == Some(InvalidJson)
              case Some(n) => err == None && Left() == old(Left())[n..]
    {
      var zero := Consume(0x30);
      if zero {
        if offset < |input| && IsDigit(input[offset]) {
          return Some(InvalidJson);
        }
      } else {
        if offset >= |input| || input[offset] < 0x31 || input[offset] > 0x39 {
          return Some(InvalidJson);
        }
        var _ := Digits();
      }
      return None;
    }

    /** The sign and the integer part of a number. */
    method IntegerPart() returns (err: Option<Reason>)
      requires Valid() && Left() != []
      modifies this
      ensures Valid()
      ensures match IntLength(old(Left())[SignLength(old(Left()))..])
              case None => err == Some(InvalidJson)
              case Some(n) => err == None && Left() == old(Left())[SignLength(old(Left())) + n..]
    {
      ghost var s := Left();
      var negative := Consume(MINUS);
      assert Left() == s[SignLength(s)..];
      hide IsDigit, DigitCount;
      if negative && offset >= |input| {
        assert s[SignLength(s)..] == [];
        return Some(InvalidJson);
      }
      hide IntLength;
      err := UnsignedPart();
    }

    method FractionPart() returns (err: Option<Reason>)
      requires Valid()
      modifies this
      ensures Valid()
      ensures match FracLength(old(Left()))
              case None => err == Some(InvalidJson)
              case Some(n) => err == None && Left() == old(Left())[n..]
    {
      var point := Consume(POINT);
      if point {
        var digits := Digits();
        if digits == 0 {
          return Some(InvalidJson);
        }
      }
      return None;
    }

    method ExponentPart() returns (err: Option<Reason>)
      requires Valid()
      modifies this
      ensures Valid()
      ensures match ExpLength(old(Left()))
              case None => err == Some(InvalidJson)
              case Some(n) => err == None && Left() == old(Left())[n..]
    {
      ghost var s := Left();
      if offset < |input| && (input[offset] == 0x65 || input[offset] == 0x45) {
        offset := offset + 1;
        ghost var sign := 0;
        if offset < |input| && (input[offset] == PLUS || input[offset] == MINUS) {
          offset := offset + 1;
          sign := 1;
        }
        assert Left() == s[1 + sign..];
        var digits := Digits();
        if digits == 0 {
          return Some(InvalidJson);
        }
        assert Left() == s[1 + sign + digits..];
      }
      return None;
    }

    /** The fraction and exponent of a number. */
    method NumberTail() returns (err: Option<Reason>)
      requires Valid()
      modifies this
      ensures Valid()
      ensures match TailLength(old(Left()))
              case None => err == Some(InvalidJson)
              case Some(n) => err == None && Left() == old(Left())[n..]
    {
      ghost var s := Left();
      err := FractionPart();
      if err.Some? {
        return;
      }
      ghost var c := FracLength(s).value;
      err := ExponentPart();
      assert err.None? ==> s[c..][ExpLength(s[c..]).value..] == s[c + ExpLength(s[c..]).value..];
    }

    /** Reads a number text, whatever its value. */
    method NumberShape() returns (err: Option<Reason>)
      requires Valid() && Left() != []
      modifies this
      ensures Valid()
      ensures match NumberLength(old(Left()))
              case None => err == Some(InvalidJson)
              case Some(n) => err == None && Left() == old(Left())[n..]
    {
      hide IntLength, TailLength, SignLength, DigitCount;
      ghost var s := Left();
      ghost var a := SignLength(s);
      ghost var u := s[a..];
      err := IntegerPart();
      if err.Some? {
        return;
      }
      ghost var b := IntLength(u).value;
      assert s[a..][b..] == s[a + b..];
      err := NumberTail();
      if err.Some? {
        return;
      }
      ghost var c := TailLength(u[b..]).value;
      assert u[b..][c..] == u[b + c..] == s[a + (b + c)..];
    }

    method NumberLiteral() returns (err: Option<Reason>)
      requires Valid() && Left() != []
      modifies this
      ensures Did(ScanNumber(fin, old(Left())), err)
    {
      hide NumberLength;
      ghost var s := Left();
      var start := offset;
      err := NumberShape();
      if err.Some? {
        return;
      }
      assert input[start..offset] == s[..NumberLength(s).value];
      if !fin(input[start..offset]) {
        return Some(NonFiniteNumber);
      }
    }

    method LiteralText(text: Bytes) returns (err: Option<Reason>)
      requires Valid()
      modifies this
      ensures Did(ScanLiteral(old(Left()), text), err)
    {
      if !(text <= input[offset..]) {
        return Some(InvalidJson);
      }
      offset := offset + |text|;
      return None;
    }

    method ScanValueAt(depth: nat) returns (err: Option<Reason>)
      requires Valid()
      modifies this
      ensures Did(ScanValue(fin, old(Left()), depth), err)
      decreases |input| - offset, 1
    {
      if depth > MAX_DEPTH {
        return Some(DepthExceeded);
      }
      if offset >= |input| {
        return Some(InvalidJson);
      }
      var current := input[offset];
      if current == OPEN_BRACE {
        err := ScanObject(depth);
      } else if current == OPEN_BRACKET {
        err := ScanArray(depth);
      } else if current == QUOTE {
        var name: Bytes;
        name, err := StringLiteral();
      } else if current == 0x74 {
        err := LiteralText(TRUE_TEXT);
      } else if current == 0x66 {
        err := LiteralText(FALSE_TEXT);
      } else if current == 0x6E {
        err := LiteralText(NULL_TEXT);
      } else if current == MINUS || IsDigit(current) {
        err := NumberLiteral();
      } else {
        err := Some(InvalidJson);
      }
    }

    method ScanArray(depth: nat) returns (err: Option<Reason>)
      requires Valid() && depth <= MAX_DEPTH && Left() != [] && Left()[0] == OPEN_BRACKET
      modifies this
      ensures Did(ScanValue(fin, old(Left()), depth), err)
      decreases |input| - offset, 0
    {
      hide SkipBlank, ScanElements, ScanValue;
      ArrayRead(fin, Left(), depth);
      ghost var first := offset;
      offset := offset + 1;
      SkipWhitespace();
      var closed := Consume(CLOSE_BRACKET);
      if closed {
        return None;
      }
      ghost var goal := ScanElements(fin, Left(), depth);
      while true
        invariant Valid() && first < offset
        invariant ScanElements(fin, Left(), depth) == goal
        decreases |input| - offset
      {
        ghost var s := Left();
        ElementRead(fin, s, depth);
        err := ScanValueAt(depth + 1);
        if err.Some? {
          return;
        }
        SkipWhitespace();
        closed := Consume(CLOSE_BRACKET);
        if closed {
          return None;
        }
        var comma := Consume(COMMA);
        if !comma {
          return Some(InvalidJson);
        }
        SkipWhitespace();
      }
    }

    /** The name of a member, which none of `seen` is, and its colon. */
    method MemberName(seen: set<Bytes>) returns (name: Bytes, err: Option<Reason>)
      requires Valid()
      modifies this
      ensures Valid()
      ensures match StringStart(old(Left()))
              case BadString(reason) => err == Some(reason)
              case Items(items, rest) =>
                var c := SkipBlank(rest);
                if ItemsOk(items) && Meanings(items) in seen then err == Some(DuplicateKey)
                else if c == [] || c[0] != COLON then err == Some(InvalidJson)
                else err == None && ItemsOk(items) && name == Meanings(items) && Left() == SkipBlank(c[1..])
    {
      hide SkipBlank, Meanings, ItemsOk, StringStart;
      name, err := StringLiteral();
      if err.Some? {
        return;
      }
      if name in seen {
        return name, Some(DuplicateKey);
      }
      SkipWhitespace();
      var colon := Consume(COLON);
      if !colon {
        return name, Some(InvalidJson);
      }
      SkipWhitespace();
    }

    /** One member of an object whose earlier names are `seen`, up to the end of its value. */
    method ScanMember(depth: nat, seen: set<Bytes>) returns (names: set<Bytes>, err: Option<Reason>)
      requires Valid() && depth <= MAX_DEPTH
      modifies this
      ensures Valid()
      ensures match err
              case Some(reason) => ScanMembers(fin, old(Left()), depth, seen) == Reject(reason)
              case None => |Left()| < |old(Left())| && ScanMembers(fin, old(Left()), depth, seen) == AfterValue(fin, Left(), depth, names)
      decreases |input| - offset, 2
    {
      hide SkipBlank, ScanElements, ScanNumber, ScanLiteral, Meanings, ItemsOk, StringStart, ScanValue, ScanMembers, AfterValue;
      MemberReads(fin, Left(), depth, seen);
      names := seen;
      var name;
      name, err := MemberName(seen);
      if err.Some? {
        return;
      }
      names := names + {name};
      err := ScanValueAt(depth + 1);
    }

    method ScanObject(depth: nat) returns (err: Option<Reason>)
      requires Valid() && depth <= MAX_DEPTH && Left() != [] && Left()[0] == OPEN_BRACE
      modifies this
      ensures Did(ScanValue(fin, old(Left()), depth), err)
      decreases |input| - offset, 0
    {
      hide StringStart, SkipBlank, ScanElements, ScanNumber, ScanLiteral, Meanings, ItemsOk, ScanMembers;
      ghost var first := offset;
      offset := offset + 1;
      SkipWhitespace();
      var names: set<Bytes> := {};
      var closed := Consume(CLOSE_BRACE);
      if closed {
        return None;
      }
      ghost var goal := ScanMembers(fin, Left(), depth, names);
      while true
        invariant Valid() && first < offset
        invariant ScanMembers(fin, Left(), depth, names) == goal
        decreases |input| - offset
      {
        names, err := ScanMember(depth, names);
        if err.Some? {
          return;
        }
        SkipWhitespace();
        closed := Consume(CLOSE_BRACE);
        if closed {
          return None;
        }
        var comma := Consume(COMMA);
        if !comma {
          return Some(InvalidJson);
        }
        SkipWhitespace();
      }
    }

    /** Scans the whole input: no error exactly when it is a JSON text. */
    method ScanAll() returns (err: Option<Reason>)
      requires offset == 0
      modifies this
      ensures err == None <==> IsJsonText(fin, input)
      ensures match Scan(fin, input) case Rest(_) => err == None case Reject(reason) => err == Some(reason)
    {
      AcceptsExactlyJsonTexts(fin, input);
      assert Left() == input;
      SkipWhitespace();
      err := ScanValueAt(1);
      if err.Some? {
        return;
      }
      SkipWhitespace();
      if offset != |input| {
        return Some(TrailingData);
      }
    }
  }
}
