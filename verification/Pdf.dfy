/** Counting the page objects of a PDF by their type entries. */
module Pdf {
  import opened Bytes
  import opened Contracts

  const TYPE: Data := [0x2f, 0x54, 0x79, 0x70, 0x65]
  const PAGE: Data := [0x2f, 0x50, 0x61, 0x67, 0x65]

  /** White space of a regular expression among the characters of one byte. */
  predicate Space(c: Byte) {
    0x09 <= c <= 0x0d || c == 0x20 || c == 0xa0
  }

  predicate Word(c: Byte) {
    0x30 <= c <= 0x39 || 0x41 <= c <= 0x5a || c == 0x5f || 0x61 <= c <= 0x7a
  }

  /** `word` stands in `b` at `i`. */
  predicate StandsAt(b: Data, i: nat, word: Data) {
    i + |word| <= |b| && b[i..i + |word|] == word
  }

  function SkipSpace(b: Data, i: nat): (j: nat)
    requires i <= |b|
    ensures i <= j <= |b| && (forall k | i <= k < j :: Space(b[k])) && (j < |b| ==> !Space(b[j]))
    decreases |b| - i
  {
    if i < |b| && Space(b[i]) then SkipSpace(b, i + 1) else i
  }

  /** Where the match of /Type, white space, /Page and a word boundary that starts at `i` ends. */
  function PageEnd(b: Data, i: nat): (end: Option<nat>)
    ensures end.Some? ==> i + 10 <= end.value <= |b|
  {
    if !StandsAt(b, i, TYPE) then None
    else
      var j := SkipSpace(b, i + 5);
      if StandsAt(b, j, PAGE) && (j + 5 < |b| ==> !Word(b[j + 5])) then Some(j + 5) else None
  }

  /** The matches from `i` on, each search resuming where the last match has ended. */
  function PagesFrom(b: Data, i: nat): nat
    decreases |b| - i
  {
    if i >= |b| then 0
    else if PageEnd(b, i).Some? then 1 + PagesFrom(b, PageEnd(b, i).value)
    else PagesFrom(b, i + 1)
  }

  /** No match starts inside another. */
  lemma NoneInside(b: Data, i: nat, k: nat)
    requires PageEnd(b, i).Some? && i < k < PageEnd(b, i).value
    ensures PageEnd(b, k).None?
  {
    var j := SkipSpace(b, i + 5);
    assert b[i..i + 5][1] == b[i + 1] && b[i..i + 5][2] == b[i + 2] && b[i..i + 5][3] == b[i + 3];
    assert b[i..i + 5][4] == b[i + 4];
    assert b[j..j + 5][0] == b[j] && b[j..j + 5][1] == b[j + 1] && b[j..j + 5][2] == b[j + 2];
    assert b[j..j + 5][3] == b[j + 3] && b[j..j + 5][4] == b[j + 4];
    if StandsAt(b, k, TYPE) {
      assert b[k..k + 5][0] == b[k] && b[k..k + 5][1] == b[k + 1];
    }
  }

  /** At `k` stand "/Type", white space up to `j`, and "/Page" without a letter, digit or _ behind it. */
  ghost predicate PageObject(b: Data, k: nat, j: nat) {
    && k + 5 <= j <= |b| - 5 && b[k..k + 5] == Ascii("/Type") && b[j..j + 5] == Ascii("/Page")
    && (forall i | k + 5 <= i < j :: b[i] in {0x09, 0x0a, 0x0b, 0x0c, 0x0d, 0x20, 0xa0})
    && (j + 5 < |b| ==>
      var next := b[j + 5] as char;
      !('a' <= next <= 'z') && !('A' <= next <= 'Z') && !('0' <= next <= '9') && next != '_')
  }

  /** Where a page entry stands. */
  lemma PageStandsIff(b: Data, k: nat)
    ensures PageEnd(b, k).Some? <==> exists j: nat :: PageObject(b, k, j)
  {
    assert TYPE == Ascii("/Type") && PAGE == Ascii("/Page");
    if PageEnd(b, k).Some? {
      assert PageObject(b, k, SkipSpace(b, k + 5));
    }
    if j: nat :| PageObject(b, k, j) {
      var skipped := SkipSpace(b, k + 5);
      assert b[j..j + 5][0] == b[j];
      assert skipped == j;
    }
  }

  function PageStarts(b: Data, i: nat): set<nat> {
    set k: nat | i <= k < |b| && PageEnd(b, k).Some?
  }

  /** The pages counted are the places where a page object's type entry stands. */
  lemma {:induction false} PagesExact(b: Data, i: nat)
    ensures PagesFrom(b, i) == |PageStarts(b, i)|
    decreases |b| - i
  {
    if i >= |b| {
      assert PageStarts(b, i) == {};
    } else if PageEnd(b, i).Some? {
      var end := PageEnd(b, i).value;
      PagesExact(b, end);
      forall k | i < k < end
        ensures PageEnd(b, k).None?
      {
        NoneInside(b, i, k);
      }
      assert PageStarts(b, i) == {i} + PageStarts(b, end);
    } else {
      PagesExact(b, i + 1);
      assert PageStarts(b, i) == PageStarts(b, i + 1);
    }
  }
}
