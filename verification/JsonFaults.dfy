/**
 Why the strict scanner rejects a text: each reason has its cause at the first place where the text stops
 being the rendering of a tree that fits, and everything in front of that place is such a rendering.
 */
module JsonFaults {
  import opened Wrappers
  import opened JsonGrammar
  import opened JsonScanner

  // ---------------------------------------------------------------- faults of tokens

  /** No character of a string literal can start here: an unpaired surrogate, or what is no character at all. */
  ghost predicate CharFault(t: Bytes, r: Reason) {
    if t == [] || t[0] < 0x20 then r == InvalidJson
    else if t[0] != 0x5C then false
    else if |t| < 2 || (t[1] != 0x75 && t[1] !in {0x22, 0x5C, 0x2F, 0x62, 0x66, 0x6E, 0x72, 0x74}) then r == InvalidJson
    else if t[1] != 0x75 then false
    else if |t| < 6 || !IsHex4(t[2..6]) then r == InvalidJson
    else if 0xD800 <= HexValue(t[2..6]) <= 0xDBFF then
      if |t| < 12 || t[6] != 0x5C || t[7] != 0x75 then r == InvalidUnicode
      else if !IsHex4(t[8..12]) then r == InvalidJson
      else !(0xDC00 <= HexValue(t[8..12]) <= 0xDFFF) && r == InvalidUnicode
    else 0xDC00 <= HexValue(t[2..6]) <= 0xDFFF && r == InvalidUnicode
  }

  /** A string literal that does not start with a quote, or breaks off after some characters. */
  ghost predicate StringFault(s: Bytes, r: Reason) {
    if s == [] || s[0] != 0x22 then r == InvalidJson
    else exists items: seq<Item>, t: Bytes :: BreaksOff(s, items, t, r)
  }

  ghost predicate BreaksOff(s: Bytes, items: seq<Item>, t: Bytes, r: Reason) {
    ItemsOk(items) && s == [0x22] + RenderItems(items) + t && CharFault(t, r)
  }

  /** A number of the grammar in front. */
  ghost predicate NumberInFront(s: Bytes, text: Bytes, t: Bytes) {
    s == text + t && EndsNumber(t)
    && exists sign, whole, frac, exp :: IsNumber(sign, whole, frac, exp, text)
  }

  ghost predicate IsNumber(sign: Bytes, whole: Bytes, frac: Bytes, exp: Bytes, text: Bytes) {
    IsSign(sign) && IsInt(whole) && IsFrac(frac) && IsExp(exp) && text == NumberText(sign, whole, frac, exp)
  }

  /** No number of the grammar is in front, or one that is not finite. */
  ghost predicate NumberFault(fin: Bytes -> bool, s: Bytes, r: Reason) {
    match r
    case InvalidJson => forall text, t :: !NumberInFront(s, text, t)
    case NonFiniteNumber => exists text, t :: s == text + t && !fin(text) && exists sign, whole, frac, exp :: IsNumber(sign, whole, frac, exp, text)
    case _ => false
  }

  predicate Starts(s: Bytes, text: Bytes) { text <= s }

  /** A token that starts as a string, a literal or a number and is none, or that starts as no value. */
  ghost predicate TokenFault(fin: Bytes -> bool, s: Bytes, r: Reason) {
    if s == [] then r == InvalidJson
    else if s[0] == 0x22 then StringFault(s, r)
    else if s[0] == 0x74 then r == InvalidJson && !Starts(s, [0x74, 0x72, 0x75, 0x65])
    else if s[0] == 0x66 then r == InvalidJson && !Starts(s, [0x66, 0x61, 0x6C, 0x73, 0x65])
    else if s[0] == 0x6E then r == InvalidJson && !Starts(s, [0x6E, 0x75, 0x6C, 0x6C])
    else if s[0] == 0x2D || 0x30 <= s[0] <= 0x39 then NumberFault(fin, s, r)
    else s[0] != 0x7B && s[0] != 0x5B && r == InvalidJson
  }

  // ---------------------------------------------------------------- faults of values

  /** Text that does not start with whitespace. */
  predicate Trim(t: Bytes) { t == [] || t[0] !in {0x20, 0x0A, 0x0D, 0x09} }

  predicate Space(s: Bytes) { forall k :: 0 <= k < |s| ==> s[k] in {0x20, 0x0A, 0x0D, 0x09} }

  /** Whitespace, and text behind it that does not start with any. */
  ghost predicate AfterBlank(s: Bytes, t: Bytes) {
    Trim(t) && exists blank :: Space(blank) && s == blank + t
  }

  /** A value that fits in front, and what is behind it. */
  ghost predicate AfterFitting(fin: Bytes -> bool, s: Bytes, depth: nat, t: Bytes) {
    exists v :: WellFormed(fin, v) && depth + Height(v) <= 65 && s == Render(v) + t
  }

  /** A value that fits in front, whitespace, and what is behind that. */
  ghost predicate BehindFitting(fin: Bytes -> bool, s: Bytes, depth: nat, t: Bytes) {
    exists u :: AfterFitting(fin, s, depth, u) && AfterBlank(u, t)
  }

  /** The place of a fault in a value at level `depth`: nesting deeper than 64 levels, a token, or inside its array or object. */
  ghost predicate ValueFault(fin: Bytes -> bool, s: Bytes, depth: nat, r: Reason)
    decreases |s|, 0
  {
    if depth > 64 then r == DepthExceeded
    else if s != [] && s[0] == 0x5B then
      exists t :: |t| < |s| && AfterBlank(s[1..], t) && (t == [] || t[0] != 0x5D) && ElementsFault(fin, t, depth, r)
    else if s != [] && s[0] == 0x7B then
      exists t :: |t| < |s| && AfterBlank(s[1..], t) && (t == [] || t[0] != 0x7D) && MembersFault(fin, t, depth, {}, r)
    else TokenFault(fin, s, r)
  }

  /** In an element, behind one where neither a comma nor the bracket stands, or in a later one. */
  ghost predicate ElementsFault(fin: Bytes -> bool, s: Bytes, depth: nat, r: Reason)
    decreases |s|, 1
  {
    || ValueFault(fin, s, depth + 1, r)
    || exists t :: |t| < |s| && BehindFitting(fin, s, depth + 1, t) && (t == [] || t[0] != 0x5D)
         && if t == [] || t[0] != 0x2C then r == InvalidJson
            else exists w :: |w| < |t| && AfterBlank(t[1..], w) && ElementsFault(fin, w, depth, r)
  }

  /** In a name, a repeated name, a missing colon, in a value, behind one where neither a comma nor the brace stands, or in a
      later member. */
  ghost predicate MembersFault(fin: Bytes -> bool, s: Bytes, depth: nat, seen: set<Bytes>, r: Reason)
    decreases |s|, 1
  {
    || StringFault(s, r)
    || exists items: seq<Item>, u, c :: |c| < |s| && ItemsOk(items) && s == RenderString(items) + u && AfterBlank(u, c)
         && if Meanings(items) in seen then r == DuplicateKey
            else if c == [] || c[0] != 0x3A then r == InvalidJson
            else exists x :: |x| < |c| && AfterBlank(c[1..], x) && MemberValueFault(fin, x, depth, seen + {Meanings(items)}, r)
  }

  ghost predicate MemberValueFault(fin: Bytes -> bool, s: Bytes, depth: nat, seen: set<Bytes>, r: Reason)
    decreases |s|, 2
  {
    || ValueFault(fin, s, depth + 1, r)
    || exists t :: |t| < |s| && BehindFitting(fin, s, depth + 1, t) && (t == [] || t[0] != 0x7D)
         && if t == [] || t[0] != 0x2C then r == InvalidJson
            else exists w :: |w| < |t| && AfterBlank(t[1..], w) && MembersFault(fin, w, depth, seen, r)
  }

  // ---------------------------------------------------------------- rejections have their faults

  lemma BlankIs(s: Bytes)
    ensures AfterBlank(s, SkipBlank(s)) && |SkipBlank(s)| <= |s|
  {
    var blank := SkipBlankSound(s);
    assert Space(blank) && s == blank + SkipBlank(s);
  }

  lemma {:induction false} LexFault(s: Bytes) returns (items: seq<Item>, t: Bytes)
    requires LexString(s).BadString?
    ensures ItemsOk(items) && s == RenderItems(items) + t && CharFault(t, LexString(s).reason)
    decreases |s|
  {
    hide RenderItem, ItemOk, RenderItems, ItemsOk, NextItem, CharFault;
    if s == [] || NextItem(s).BadItem? {
      items, t := [], s;
      FirstFault(s);
    } else {
      var next := NextItem(s);
      var rest;
      rest, t := LexFault(s[next.length..]);
      items := [next.item] + rest;
      ItemsNext(next.item, rest);
      NextReads(s);
      assert s == RenderItem(next.item) + (RenderItems(rest) + t);
    }
  }

  lemma FirstFault(s: Bytes)
    requires LexString(s).BadString? && (s == [] || NextItem(s).BadItem?)
    ensures ItemsOk([]) && s == RenderItems([]) + s && CharFault(s, LexString(s).reason)
  {
    hide NextItem;
    if s != [] {
      NextFault(s);
    }
    assert RenderItems([]) + s == s;
  }

  lemma NextReads(s: Bytes)
    requires s != [] && s[0] != QUOTE && NextItem(s).One?
    ensures NextItem(s).length <= |s| && ItemOk(NextItem(s).item)
    ensures s == RenderItem(NextItem(s).item) + s[NextItem(s).length..]
  {
    hide *;
    var n := NextItem(s).length;
    assert s == s[..n] + s[n..];
  }

  lemma NextFault(s: Bytes)
    requires s != [] && s[0] != QUOTE && NextItem(s).BadItem?
    ensures CharFault(s, NextItem(s).reason)
  {
  }

  lemma StringHasFault(s: Bytes)
    requires StringStart(s).BadString?
    ensures StringFault(s, StringStart(s).reason)
  {
    if s != [] && s[0] == QUOTE {
      var items, t := LexFault(s[1..]);
      assert s == [0x22] + s[1..];
      assert BreaksOff(s, items, t, StringStart(s).reason);
    }
  }

  lemma NumberHasFault(fin: Bytes -> bool, s: Bytes)
    requires ScanNumber(fin, s).Reject?
    ensures NumberFault(fin, s, ScanNumber(fin, s).reason)
  {
    hide NumberLength, IsSign, IsInt, IsFrac, IsExp, NumberText;
    var n := NumberLength(s);
    if n.None? {
      forall text, t ensures !NumberInFront(s, text, t) {
        if NumberInFront(s, text, t) {
          var sign, whole, frac, exp :| IsNumber(sign, whole, frac, exp, text);
          NumberComplete(sign, whole, frac, exp, t);
          assert false;
        }
      }
    } else {
      var v := NumberSound(s);
      assert IsNumber(v.sign, v.whole, v.frac, v.exp, s[..n.value]);
      assert s == s[..n.value] + s[n.value..];
    }
  }

  lemma TokenHasFault(fin: Bytes -> bool, s: Bytes, depth: nat)
    requires depth <= MAX_DEPTH && ScanValue(fin, s, depth).Reject? && (s == [] || (s[0] != OPEN_BRACE && s[0] != OPEN_BRACKET))
    ensures TokenFault(fin, s, ScanValue(fin, s, depth).reason)
  {
    hide StringStart, ScanNumber, ScanMembers, ScanElements, SkipBlank, StringFault, NumberFault;
    if s != [] {
      if s[0] == QUOTE {
        StringHasFault(s);
      } else if s[0] == MINUS || IsDigit(s[0]) {
        NumberHasFault(fin, s);
      }
    }
  }

  lemma {:induction false} ValueHasFault(fin: Bytes -> bool, s: Bytes, depth: nat)
    requires ScanValue(fin, s, depth).Reject?
    ensures ValueFault(fin, s, depth, ScanValue(fin, s, depth).reason)
    decreases |s|, 0
  {
    hide StringStart, ScanNumber, ScanMembers, ScanElements, SkipBlank, TokenFault, AfterBlank, ElementsFault, MembersFault;
    var r := ScanValue(fin, s, depth).reason;
    if depth <= MAX_DEPTH {
      if s != [] && s[0] == OPEN_BRACKET {
        var t := SkipBlank(s[1..]);
        BlankIs(s[1..]);
        ElementsHaveFault(fin, t, depth);
        assert |t| < |s| && AfterBlank(s[1..], t) && ElementsFault(fin, t, depth, r);
      } else if s != [] && s[0] == OPEN_BRACE {
        var t := SkipBlank(s[1..]);
        BlankIs(s[1..]);
        MembersHaveFault(fin, t, depth, {});
        assert |t| < |s| && AfterBlank(s[1..], t) && MembersFault(fin, t, depth, {}, r);
      } else {
        TokenHasFault(fin, s, depth);
      }
    }
  }

  lemma FittingIs(fin: Bytes -> bool, s: Bytes, depth: nat)
    requires ScanValue(fin, s, depth).Rest?
    ensures AfterFitting(fin, s, depth, ScanValue(fin, s, depth).rest) && |ScanValue(fin, s, depth).rest| < |s|
  {
    hide ScanValue;
    var v := ValueSound(fin, s, depth);
    assert WellFormed(fin, v) && s == Render(v) + ScanValue(fin, s, depth).rest;
  }

  lemma {:induction false} ElementsHaveFault(fin: Bytes -> bool, s: Bytes, depth: nat)
    requires ScanElements(fin, s, depth).Reject?
    ensures ElementsFault(fin, s, depth, ScanElements(fin, s, depth).reason)
    decreases |s|, 1
  {
    hide ScanValue, SkipBlank, ValueFault, AfterBlank, AfterFitting, ScanElements;
    ElementRead(fin, s, depth);
    var r := ScanElements(fin, s, depth).reason;
    if ScanValue(fin, s, depth + 1).Reject? {
      ValueHasFault(fin, s, depth + 1);
    } else {
      var u := ScanValue(fin, s, depth + 1).rest;
      var t := SkipBlank(u);
      FittingIs(fin, s, depth + 1);
      BlankIs(u);
      if t != [] && t[0] == COMMA {
        var w := SkipBlank(t[1..]);
        BlankIs(t[1..]);
        ElementsHaveFault(fin, w, depth);
        assert |w| < |t| && AfterBlank(t[1..], w) && ElementsFault(fin, w, depth, r);
      }
      assert |t| < |s| && BehindFitting(fin, s, depth + 1, t);
    }
  }

  lemma {:induction false} MembersHaveFault(fin: Bytes -> bool, s: Bytes, depth: nat, seen: set<Bytes>)
    requires ScanMembers(fin, s, depth, seen).Reject?
    ensures MembersFault(fin, s, depth, seen, ScanMembers(fin, s, depth, seen).reason)
    decreases |s|, 1
  {
    hide ScanValue, SkipBlank, StringStart, AfterBlank, ScanMembers, StringFault, MemberValueFault, Meanings, ItemsOk, RenderString, AfterValue;
    MemberReads(fin, s, depth, seen);
    var r := ScanMembers(fin, s, depth, seen).reason;
    var name := StringStart(s);
    if name.BadString? {
      StringHasFault(s);
    } else {
      StringItemsOk(s);
      var c := SkipBlank(name.rest);
      BlankIs(name.rest);
      if Meanings(name.items) !in seen && c != [] && c[0] == COLON {
        var x := SkipBlank(c[1..]);
        BlankIs(c[1..]);
        MemberValueHasFault(fin, x, depth, seen + {Meanings(name.items)}, r);
        assert |x| < |c| && AfterBlank(c[1..], x) && MemberValueFault(fin, x, depth, seen + {Meanings(name.items)}, r);
      }
      assert |c| < |s| && s == RenderString(name.items) + name.rest && AfterBlank(name.rest, c);
    }
  }

  lemma {:induction false} MemberValueHasFault(fin: Bytes -> bool, s: Bytes, depth: nat, seen: set<Bytes>, r: Reason)
    requires var v := ScanValue(fin, s, depth + 1); (if v.Reject? then v else AfterValue(fin, v.rest, depth, seen)) == Reject(r)
    ensures MemberValueFault(fin, s, depth, seen, r)
    decreases |s|, 2
  {
    hide ScanValue, SkipBlank, ValueFault, AfterBlank, AfterFitting, ScanMembers;
    if ScanValue(fin, s, depth + 1).Reject? {
      ValueHasFault(fin, s, depth + 1);
    } else {
      var u := ScanValue(fin, s, depth + 1).rest;
      var t := SkipBlank(u);
      FittingIs(fin, s, depth + 1);
      BlankIs(u);
      if t != [] && t[0] == COMMA {
        var w := SkipBlank(t[1..]);
        BlankIs(t[1..]);
        MembersHaveFault(fin, w, depth, seen);
        assert |w| < |t| && AfterBlank(t[1..], w) && MembersFault(fin, w, depth, seen, r);
      }
      assert |t| < |s| && BehindFitting(fin, s, depth + 1, t);
    }
  }

  /** Behind the whitespace and a value that fits there is something other than whitespace. */
  ghost predicate TrailingFault(fin: Bytes -> bool, s: Bytes) {
    exists t, w :: AfterBlank(s, t) && BehindFitting(fin, t, 1, w) && w != []
  }

  ghost predicate TextFault(fin: Bytes -> bool, s: Bytes, r: Reason) {
    if r == TrailingData then TrailingFault(fin, s) else exists t :: AfterBlank(s, t) && ValueFault(fin, t, 1, r)
  }

  /** Every rejection has its cause: trailing data only behind a whole text that fits, and every other reason the fault of the
      first value that has one, where everything before it is well formed and fits. */
  lemma RejectionHasItsFault(fin: Bytes -> bool, s: Bytes)
    requires Scan(fin, s).Reject?
    ensures TextFault(fin, s, Scan(fin, s).reason)
  {
    hide ScanValue, SkipBlank, AfterBlank, AfterFitting, ValueFault;
    var t := SkipBlank(s);
    BlankIs(s);
    if ScanValue(fin, t, 1).Reject? {
      ValueHasFault(fin, t, 1);
      NoTrailing(fin, t, 1);
    } else {
      FittingIs(fin, t, 1);
      BlankIs(ScanValue(fin, t, 1).rest);
      assert BehindFitting(fin, t, 1, SkipBlank(ScanValue(fin, t, 1).rest));
    }
  }

  lemma NoTrailing(fin: Bytes -> bool, s: Bytes, depth: nat)
    requires ScanValue(fin, s, depth).Reject?
    ensures ScanValue(fin, s, depth).reason != TrailingData
  {
    ValueHasFault(fin, s, depth);
    ValueNoTrailing(fin, s, depth);
  }

  lemma {:induction false} ValueNoTrailing(fin: Bytes -> bool, s: Bytes, depth: nat)
    ensures !ValueFault(fin, s, depth, TrailingData)
    decreases |s|, 0
  {
    if depth <= 64 {
      if s != [] && s[0] == 0x5B {
        forall t | |t| < |s| ensures !ElementsFault(fin, t, depth, TrailingData) {
          ElementsNoTrailing(fin, t, depth);
        }
      } else if s != [] && s[0] == 0x7B {
        forall t | |t| < |s| ensures !MembersFault(fin, t, depth, {}, TrailingData) {
          MembersNoTrailing(fin, t, depth, {});
        }
      }
    }
  }

  lemma {:induction false} ElementsNoTrailing(fin: Bytes -> bool, s: Bytes, depth: nat)
    ensures !ElementsFault(fin, s, depth, TrailingData)
    decreases |s|, 1
  {
    ValueNoTrailing(fin, s, depth + 1);
    forall w | |w| < |s| ensures !ElementsFault(fin, w, depth, TrailingData) {
      ElementsNoTrailing(fin, w, depth);
    }
  }

  lemma {:induction false} MembersNoTrailing(fin: Bytes -> bool, s: Bytes, depth: nat, seen: set<Bytes>)
    ensures !MembersFault(fin, s, depth, seen, TrailingData)
    decreases |s|, 1
  {
    forall x, names | |x| < |s| ensures !MemberValueFault(fin, x, depth, names, TrailingData) {
      MemberValueNoTrailing(fin, x, depth, names);
    }
  }

  lemma {:induction false} MemberValueNoTrailing(fin: Bytes -> bool, s: Bytes, depth: nat, seen: set<Bytes>)
    ensures !MemberValueFault(fin, s, depth, seen, TrailingData)
    decreases |s|, 2
  {
    ValueNoTrailing(fin, s, depth + 1);
    forall w | |w| < |s| ensures !MembersFault(fin, w, depth, seen, TrailingData) {
      MembersNoTrailing(fin, w, depth, seen);
    }
  }

  // ---------------------------------------------------------------- characters

  /** Whitespace, digits, escapes and hexadecimal digits are those of RFC 8259, sections 2, 6 and 7. */
  lemma CharacterClasses(b: byte)
    ensures IsBlank(b) <==> b in {0x20, 0x0A, 0x0D, 0x09}
    ensures IsDigit(b) <==> b in {0x30, 0x31, 0x32, 0x33, 0x34, 0x35, 0x36, 0x37, 0x38, 0x39}
    ensures IsEscape(b) <==> b in {0x22, 0x5C, 0x2F, 0x62, 0x66, 0x6E, 0x72, 0x74}
    ensures IsPlain(b) <==> b >= 0x20 && b !in {0x22, 0x5C}
    ensures IsHex(b) <==> IsDigit(b) || b in {0x41, 0x42, 0x43, 0x44, 0x45, 0x46, 0x61, 0x62, 0x63, 0x64, 0x65, 0x66}
    ensures IsHex(b) ==> HexDigit(b) == (b - (if b < 0x40 then 0x30 else if b < 0x60 then 0x37 else 0x57))
  {
  }

  function Payload(b: byte, mark: int): int { b as int - mark }

  predicate Continues(b: byte) { 0x80 <= b < 0xC0 }

  /** A code point in the UTF-8 form of its length (RFC 3629, section 3): marks and payloads. */
  predicate IsUtf8(u: Bytes, code: nat) {
    if code < 0x80 then |u| == 1 && Payload(u[0], 0) == code
    else if code < 0x800 then
      |u| == 2 && 0xC0 <= u[0] < 0xE0 && Continues(u[1]) && Payload(u[0], 0xC0) * 64 + Payload(u[1], 0x80) == code
    else if code < 0x10000 then
      |u| == 3 && 0xE0 <= u[0] < 0xF0 && Continues(u[1]) && Continues(u[2])
      && (Payload(u[0], 0xE0) * 64 + Payload(u[1], 0x80)) * 64 + Payload(u[2], 0x80) == code
    else
      |u| == 4 && 0xF0 <= u[0] < 0xF8 && Continues(u[1]) && Continues(u[2]) && Continues(u[3])
      && ((Payload(u[0], 0xF0) * 64 + Payload(u[1], 0x80)) * 64 + Payload(u[2], 0x80)) * 64 + Payload(u[3], 0x80) == code
  }

  lemma Utf8IsStandard(code: nat)
    requires code < 0x110000
    ensures IsUtf8(Utf8(code), code)
  {
    Sixes(code);
    if code >= 0x40 {
      Sixes(code / 0x40);
      if code >= 0x1000 {
        Sixes(code / 0x1000);
        assert code / 0x40 / 0x40 == code / 0x1000;
        if code >= 0x40000 {
          assert code / 0x1000 / 0x40 == code / 0x40000;
        }
      }
    }
  }

  /** A code point that is not a surrogate. */
  predicate IsScalar(code: nat) { code < 0x110000 && !(0xD800 <= code < 0xE000) }

  /** A text that starts with the encoding of a code point starts with a rune of that width. */
  lemma EncodedIsRune(s: Bytes, n: nat, code: nat)
    requires n <= |s| && IsScalar(code) && IsUtf8(s[..n], code)
    ensures RuneSize(s) == n
  {
  }

  /** The code point of a rune of more than one byte. */
  function CodeOf(u: Bytes): int
    requires 2 <= |u| <= 4
  {
    if |u| == 2 then Payload(u[0], 0xC0) * 64 + Payload(u[1], 0x80)
    else if |u| == 3 then (Payload(u[0], 0xE0) * 64 + Payload(u[1], 0x80)) * 64 + Payload(u[2], 0x80)
    else ((Payload(u[0], 0xF0) * 64 + Payload(u[1], 0x80)) * 64 + Payload(u[2], 0x80)) * 64 + Payload(u[3], 0x80)
  }

  /** The width of the first rune: that of the code point, other than a surrogate, whose shortest encoding the text starts with,
      and one if there is none (RFC 3629, section 3). */
  lemma RunesAreStandard(s: Bytes, n: nat)
    requires s != [] && 1 < n <= |s|
    ensures RuneSize(s) == n <==> exists code: nat :: IsScalar(code) && IsUtf8(s[..n], code)
    ensures RuneSize(s) <= 4
  {
    if RuneSize(s) == n {
      var code := CodeOf(s[..n]);
      assert IsScalar(code) && IsUtf8(s[..n], code);
    }
    if code: nat :| IsScalar(code) && IsUtf8(s[..n], code) {
      EncodedIsRune(s, n, code);
    }
  }

  lemma Sixes(n: nat)
    ensures n == n / 0x40 * 64 + n % 0x40 && n % 0x40 < 64
  {
  }

  /** What the characters of a literal stand for: themselves, the named escapes, the code unit, and for a surrogate pair the code
      point it encodes (RFC 8259, section 7). */
  lemma MeaningsAreStandard(i: Item)
    requires ItemOk(i)
    ensures match i
            case Plain(b) => Meaning(i) == [b]
            case Escape(c) =>
              |Meaning(i)| == 1 && Meaning(i)[0] == (map[0x22 := 0x22, 0x5C := 0x5C, 0x2F := 0x2F, 0x62 := 0x08, 0x66 := 0x0C,
                                                        0x6E := 0x0A, 0x72 := 0x0D, 0x74 := 0x09])[c]
            case Code(hex) => Meaning(i) == Utf8(HexValue(hex))
            case Pair(high, low) =>
              exists code: nat :: code < 0x110000 && Meaning(i) == Utf8(code) && code >= 0x10000
                && (code - 0x10000) / 1024 == HexValue(high) - 0xD800 && (code - 0x10000) % 1024 == HexValue(low) - 0xDC00
  {
    if i.Pair? {
      var code := 0x10000 + (HexValue(i.high) - 0xD800) * 0x400 + (HexValue(i.low) - 0xDC00);
      assert Meaning(i) == Utf8(code);
    }
  }

  /** Hexadecimal digits count most significant first. */
  lemma HexValues(h: Bytes)
    requires IsHex4(h)
    ensures HexValue(h) == HexDigit(h[0]) * 4096 + HexDigit(h[1]) * 256 + HexDigit(h[2]) * 16 + HexDigit(h[3])
  {
  }
}
