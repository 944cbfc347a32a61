/** JavaScript strings as UTF-16 code units, their order, and how JSON.stringify quotes them. */
module JsonText {
  import opened Contracts

  type Unit = u: int | 0 <= u < 0x1_0000

  type Text = seq<Unit>

  const QUOTE: Unit := 0x22
  const COMMA: Unit := 0x2c
  const COLON: Unit := 0x3a
  const OPEN_BRACKET: Unit := 0x5b
  const BACKSLASH: Unit := 0x5c
  const CLOSE_BRACKET: Unit := 0x5d
  const LETTER_U: Unit := 0x75
  const OPEN_BRACE: Unit := 0x7b
  const CLOSE_BRACE: Unit := 0x7d

  // Order by code units, as Array.prototype.sort compares strings.

  predicate Less(a: Text, b: Text) {
    if a == [] || b == [] then a == [] && b != []
    else a[0] < b[0] || (a[0] == b[0] && Less(a[1..], b[1..]))
  }

  lemma {:induction false} LessTotal(a: Text, b: Text)
    ensures !(Less(a, b) && Less(b, a))
    ensures Less(a, b) || Less(b, a) || a == b
    ensures Less(a, b) ==> a != b
  {
    if a != [] && b != [] && a[0] == b[0] {
      LessTotal(a[1..], b[1..]);
      assert a == [a[0]] + a[1..] && b == [b[0]] + b[1..];
    }
  }

  lemma {:induction false} LessTransitive(a: Text, b: Text, c: Text)
    requires Less(a, b) && Less(b, c)
    ensures Less(a, c)
  {
    if a != [] && b != [] && c != [] && a[0] == b[0] == c[0] {
      LessTransitive(a[1..], b[1..], c[1..]);
    }
  }

  /** The first unit in which the two differ decides, or the end of the shorter one. */
  lemma {:induction false} LessExact(a: Text, b: Text)
    ensures Less(a, b) <==>
      exists k: nat | k <= |a| && k < |b| :: a[..k] == b[..k] && (k == |a| || a[k] < b[k])
  {
    if a == [] || b == [] || a[0] != b[0] {
      if b != [] && (a == [] || a[0] < b[0]) {
        assert a[..0] == b[..0];
      }
      forall k: nat | 0 < k <= |a| && k < |b|
        ensures a[..k] != b[..k]
      {
        assert a[..k][0] == a[0] && b[..k][0] == b[0];
      }
    } else {
      LessExact(a[1..], b[1..]);
      var c, d := a[1..], b[1..];
      if k: nat :| k <= |c| && k < |d| && c[..k] == d[..k] && (k == |c| || c[k] < d[k]) {
        assert a[..k + 1] == [a[0]] + c[..k] && b[..k + 1] == [b[0]] + d[..k];
      }
      if k: nat :| k <= |a| && k < |b| && a[..k] == b[..k] && (k == |a| || a[k] < b[k]) {
        assert c[..k - 1] == a[..k][1..] && d[..k - 1] == b[..k][1..];
      }
    }
  }

  // Quoting.

  predicate Lead(u: Unit) {
    0xd800 <= u < 0xdc00
  }

  predicate Trail(u: Unit) {
    0xdc00 <= u < 0xe000
  }

  function HexDigit(n: nat): Unit
    requires n < 16
  {
    if n < 10 then 0x30 + n else 0x57 + n
  }

  function HexValue(u: Unit): Option<nat> {
    if 0x30 <= u < 0x3a then Some(u - 0x30)
    else if 0x61 <= u < 0x67 then Some(u - 0x57)
    else None
  }

  function UnicodeEscape(u: Unit): Text {
    [BACKSLASH, LETTER_U] + [HexDigit(u / 4096), HexDigit(u / 256 % 16), HexDigit(u / 16 % 16), HexDigit(u % 16)]
  }

  /** The letter of a two-character escape. */
  function ShortEscape(u: Unit): Option<Unit> {
    if u == 0x08 then Some(0x62)
    else if u == 0x09 then Some(0x74)
    else if u == 0x0a then Some(0x6e)
    else if u == 0x0c then Some(0x66)
    else if u == 0x0d then Some(0x72)
    else if u == QUOTE || u == BACKSLASH then Some(u)
    else None
  }

  function UnescapeShort(letter: Unit): Option<Unit> {
    if letter == 0x62 then Some(0x08)
    else if letter == 0x74 then Some(0x09)
    else if letter == 0x6e then Some(0x0a)
    else if letter == 0x66 then Some(0x0c)
    else if letter == 0x72 then Some(0x0d)
    else if letter == QUOTE || letter == BACKSLASH then Some(letter)
    else None
  }

  function EscapeUnit(u: Unit): Text {
    if ShortEscape(u).Some? then [BACKSLASH, ShortEscape(u).value]
    else if u < 0x20 || Lead(u) || Trail(u) then UnicodeEscape(u)
    else [u]
  }

  /** A surrogate pair is copied; a lone surrogate is escaped. */
  function Escape(s: Text): Text {
    if s == [] then []
    else if |s| >= 2 && Lead(s[0]) && Trail(s[1]) then s[..2] + Escape(s[2..])
    else EscapeUnit(s[0]) + Escape(s[1..])
  }

  function Quote(s: Text): Text {
    [QUOTE] + Escape(s) + [QUOTE]
  }

  /** What a reader makes of one unit or escape: the unit and what follows it. */
  function ReadUnit(t: Text): Option<(Unit, Text)> {
    if t == [] || t[0] == QUOTE then None
    else if t[0] != BACKSLASH then Some((t[0], t[1..]))
    else if |t| < 2 then None
    else if t[1] == LETTER_U then
      if |t| >= 6 && HexValue(t[2]).Some? && HexValue(t[3]).Some? && HexValue(t[4]).Some? && HexValue(t[5]).Some? then
        Some((HexValue(t[2]).value * 4096 + HexValue(t[3]).value * 256 + HexValue(t[4]).value * 16
              + HexValue(t[5]).value,
              t[6..]))
      else None
    else if UnescapeShort(t[1]).Some? then Some((UnescapeShort(t[1]).value, t[2..]))
    else None
  }

  /** The string up to the closing quote and what follows that quote. */
  function Unescape(t: Text): Option<(Text, Text)> {
    if t == [] then None
    else if t[0] == QUOTE then Some(([], t[1..]))
    else if ReadUnit(t).None? || |ReadUnit(t).value.1| >= |t| then None
    else
      var (u, rest) := ReadUnit(t).value;
      var tail := Unescape(rest);
      if tail.None? then None else Some(([u] + tail.value.0, tail.value.1))
  }

  lemma HexReadsBack(u: Unit)
    ensures var a, b, c, d := HexDigit(u / 4096), HexDigit(u / 256 % 16), HexDigit(u / 16 % 16), HexDigit(u % 16);
            && HexValue(a) == Some(u / 4096) && HexValue(b) == Some(u / 256 % 16)
            && HexValue(c) == Some(u / 16 % 16) && HexValue(d) == Some(u % 16)
    ensures u / 4096 * 4096 + u / 256 % 16 * 256 + u / 16 % 16 * 16 + u % 16 == u
  {
    assert u / 256 / 16 == u / 4096 && u / 16 / 16 == u / 256;
  }

  lemma UnitReadsBack(u: Unit, rest: Text)
    ensures ReadUnit(EscapeUnit(u) + rest) == Some((u, rest))
    ensures (EscapeUnit(u) + rest)[0] != QUOTE
  {
    var t := EscapeUnit(u) + rest;
    if ShortEscape(u).Some? {
      assert t[0] == BACKSLASH && t[1] == ShortEscape(u).value && t[2..] == rest;
    } else if u < 0x20 || Lead(u) || Trail(u) {
      HexReadsBack(u);
      assert t[6..] == rest;
    } else {
      assert t[1..] == rest;
    }
  }

  lemma ReadPair(s: Text, more: Text, tail: Text, rest: Text)
    requires |s| >= 2 && Lead(s[0]) && Trail(s[1]) && Unescape(rest) == Some((more, tail))
    ensures Unescape(s[..2] + rest) == Some((s[..2] + more, tail))
  {
    var t := s[..2] + rest;
    assert t[1..] == [s[1]] + rest && t[1..][1..] == rest;
    assert s[..2] + more == [s[0]] + ([s[1]] + more);
  }

  lemma ReadSingle(u: Unit, more: Text, tail: Text, rest: Text)
    requires Unescape(rest) == Some((more, tail))
    ensures Unescape(EscapeUnit(u) + rest) == Some(([u] + more, tail))
  {
    UnitReadsBack(u, rest);
  }

  lemma Regroup(a: Text, b: Text, c: Text)
    ensures (a + b) + c == a + (b + c)
  {
  }

  /** Quoting reads back, whatever follows the closing quote. */
  lemma {:induction false} EscapeReadsBack(s: Text, rest: Text)
    ensures Unescape(Escape(s) + ([QUOTE] + rest)) == Some((s, rest))
    decreases |s|
  {
    var close := [QUOTE] + rest;
    if s == [] {
      assert Escape(s) + close == close && close[1..] == rest;
    } else if |s| >= 2 && Lead(s[0]) && Trail(s[1]) {
      var head, body := s[..2], Escape(s[2..]);
      EscapeReadsBack(s[2..], rest);
      ReadPair(s, s[2..], rest, body + close);
      Regroup(head, body, close);
      assert s == head + s[2..];
    } else {
      var head, body := EscapeUnit(s[0]), Escape(s[1..]);
      EscapeReadsBack(s[1..], rest);
      ReadSingle(s[0], s[1..], rest, body + close);
      Regroup(head, body, close);
      assert s == [s[0]] + s[1..];
    }
  }

  /** No quoted string is the beginning of another. */
  lemma QuoteUnambiguous(a: Text, s: Text, b: Text, t: Text)
    requires Quote(a) + s == Quote(b) + t
    ensures a == b && s == t
  {
    assert (Quote(a) + s)[1..] == Escape(a) + ([QUOTE] + s);
    assert (Quote(b) + t)[1..] == Escape(b) + ([QUOTE] + t);
    EscapeReadsBack(a, s);
    EscapeReadsBack(b, t);
  }

  // Well-formed UTF-16 keeps its identity in UTF-8.

  predicate WellFormed(t: Text) {
    if t == [] then true
    else if Lead(t[0]) then |t| >= 2 && Trail(t[1]) && WellFormed(t[2..])
    else !Trail(t[0]) && WellFormed(t[1..])
  }

  lemma {:induction false} WellFormedConcat(a: Text, b: Text)
    requires WellFormed(a) && WellFormed(b)
    ensures WellFormed(a + b)
    decreases |a|
  {
    if a == [] {
      assert a + b == b;
    } else {
      var n := if Lead(a[0]) then 2 else 1;
      WellFormedConcat(a[n..], b);
      assert (a + b)[n..] == a[n..] + b;
    }
  }

  lemma {:induction false} WellFormedPlain(t: Text)
    requires forall u <- t :: !Lead(u) && !Trail(u)
    ensures WellFormed(t)
  {
    if t != [] {
      assert t[0] in t;
      WellFormedPlain(t[1..]);
    }
  }

  /** Quoting repairs lone surrogates. */
  lemma {:induction false} EscapeWellFormed(s: Text)
    ensures WellFormed(Escape(s))
    decreases |s|
  {
    if s != [] {
      if |s| >= 2 && Lead(s[0]) && Trail(s[1]) {
        EscapeWellFormed(s[2..]);
        assert s[..2][2..] == [];
        WellFormedConcat(s[..2], Escape(s[2..]));
      } else {
        EscapeWellFormed(s[1..]);
        WellFormedPlain(EscapeUnit(s[0]));
        WellFormedConcat(EscapeUnit(s[0]), Escape(s[1..]));
      }
    }
  }

  lemma QuoteWellFormed(s: Text)
    ensures WellFormed(Quote(s))
  {
    EscapeWellFormed(s);
    WellFormedPlain([QUOTE]);
    WellFormedConcat([QUOTE], Escape(s));
    WellFormedConcat([QUOTE] + Escape(s), [QUOTE]);
  }
}
