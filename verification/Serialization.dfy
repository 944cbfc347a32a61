/**
 * The canonical serialization behind every idempotency key and plan hash. Two JavaScript values get
 * the same text exactly when they are equal up to the order of object keys, once what the
 * serialization cannot see (non-finite numbers, an array of one undefined) is set aside.
 */
module Serialization {
  import opened JsonText

  /** A number is the lexeme it prints as. `NonFinite` is NaN or an infinity. */
  datatype Json =
    | Undefined
    | Null
    | Bool(b: bool)
    | NonFinite
    | Num(lexeme: Text)
    | Str(s: Text)
    | Arr(items: seq<Json>)
    | Obj(entries: seq<Entry>)

  datatype Entry = Entry(key: Text, value: Json)

  datatype Field = Field(key: Text, text: Text)

  const NULL: Text := [0x6e, 0x75, 0x6c, 0x6c]
  const TRUE: Text := [0x74, 0x72, 0x75, 0x65]
  const FALSE: Text := [0x66, 0x61, 0x6c, 0x73, 0x65]
  const UNDEFINED: Text := [0x75, 0x6e] + [0x64, 0x65, 0x66, 0x69, 0x6e, 0x65, 0x64]

  predicate Digit(u: Unit) {
    0x30 <= u < 0x3a
  }

  /** The units of numbers and of the four literals. */
  predicate WordUnit(u: Unit) {
    Digit(u) || 0x41 <= u < 0x5b || 0x61 <= u < 0x7b || u == 0x2b || u == 0x2d || u == 0x2e
  }

  predicate Word(t: Text) {
    t != [] && forall u <- t :: WordUnit(u)
  }

  predicate NumberLexeme(t: Text) {
    Word(t) && (Digit(t[0]) || t[0] == 0x2d)
  }

  /** What JavaScript guarantees: numbers print as numbers, keys of one object are distinct. */
  predicate Proper(j: Json) {
    match j
    case Num(lexeme) => NumberLexeme(lexeme)
    case Arr(items) => forall i | 0 <= i < |items| :: Proper(items[i])
    case Obj(entries) =>
      && (forall i | 0 <= i < |entries| :: Proper(entries[i].value))
      && (forall i, k | 0 <= i < k < |entries| :: entries[i].key != entries[k].key)
    case _ => true
  }

  // The serialization.

  function Join(texts: seq<Text>): Text {
    if texts == [] then []
    else if |texts| == 1 then texts[0]
    else texts[0] + ([COMMA] + Join(texts[1..]))
  }

  function FieldText(field: Field): Text {
    Quote(field.key) + ([COLON] + field.text)
  }

  function FieldTexts(fields: seq<Field>): seq<Text> {
    seq(|fields|, i requires 0 <= i < |fields| => FieldText(fields[i]))
  }

  function Insert(field: Field, sorted: seq<Field>): seq<Field> {
    if sorted == [] || !Less(sorted[0].key, field.key) then [field] + sorted
    else [sorted[0]] + Insert(field, sorted[1..])
  }

  function Sort(fields: seq<Field>): seq<Field> {
    if fields == [] then [] else Insert(fields[0], Sort(fields[1..]))
  }

  /** Array.prototype.join prints an undefined element as nothing. */
  function Element(j: Json): Text
    decreases j, 1
  {
    if j.Undefined? then [] else Stable(j)
  }

  function Elements(items: seq<Json>): seq<Text>
    decreases items, 0
  {
    seq(|items|, i requires 0 <= i < |items| => Element(items[i]))
  }

  function Fields(entries: seq<Entry>): seq<Field>
    decreases entries, 0
  {
    seq(|entries|, i requires 0 <= i < |entries| => Field(entries[i].key, Stable(entries[i].value)))
  }

  function Stable(j: Json): Text
    decreases j, 0
  {
    match j
    case Undefined => UNDEFINED
    case Null | NonFinite => NULL
    case Bool(b) => if b then TRUE else FALSE
    case Num(lexeme) => lexeme
    case Str(s) => Quote(s)
    case Arr(items) => Enclosed(OPEN_BRACKET, Elements(items), CLOSE_BRACKET)
    case Obj(entries) => Enclosed(OPEN_BRACE, FieldTexts(Sort(Fields(entries))), CLOSE_BRACE)
  }

  function Enclosed(open: Unit, texts: seq<Text>, close: Unit): Text {
    [open] + Join(texts) + [close]
  }

  // No text of a value is the beginning of another, when both are followed by punctuation.

  predicate StopUnit(u: Unit) {
    u == COMMA || u == CLOSE_BRACKET || u == CLOSE_BRACE
  }

  predicate Stops(t: Text) {
    t == [] || StopUnit(t[0])
  }

  ghost predicate Cut(x: Text, y: Text) {
    forall s, t | Stops(s) && Stops(t) && x + s == y + t :: x == y
  }

  /** Texts of different kinds differ in their first unit. */
  function KindOf(u: Unit): nat {
    if u == QUOTE then 0
    else if u == OPEN_BRACKET then 1
    else if u == OPEN_BRACE then 2
    else if WordUnit(u) then 3
    else 4
  }

  function Kind(j: Json): nat {
    match j
    case Str(_) => 0
    case Arr(_) => 1
    case Obj(_) => 2
    case _ => 3
  }

  lemma FirstUnit(j: Json)
    requires Proper(j)
    ensures Stable(j) != [] && KindOf(Stable(j)[0]) == Kind(j) && !StopUnit(Stable(j)[0])
    ensures Kind(j) == 3 ==> Word(Stable(j))
  {
  }

  lemma WordsCut(x: Text, y: Text)
    requires Word(x) && Word(y)
    ensures Cut(x, y)
  {
    forall s, t | Stops(s) && Stops(t) && x + s == y + t
      ensures x == y
    {
      WordNotLonger(x, s, y, t);
      WordNotLonger(y, t, x, s);
      assert x == (x + s)[..|x|] && y == (y + t)[..|y|];
    }
  }

  lemma WordNotLonger(x: Text, s: Text, y: Text, t: Text)
    requires Word(y) && Stops(s) && x + s == y + t
    ensures |y| <= |x|
  {
    assert forall i | 0 <= i < |y| :: (y + t)[i] in y;
    if s != [] {
      assert (x + s)[|x|] == s[0];
    }
  }

  lemma FirstUnitsCut(x: Text, y: Text)
    requires y != [] && !StopUnit(y[0])
    requires x == [] || x[0] != y[0]
    ensures Cut(x, y) && Cut(y, x)
  {
    forall s, t | Stops(s) && Stops(t)
      ensures x + s != y + t && y + s != x + t
    {
      FirstUnitsDiffer(x, s, y, t);
      FirstUnitsDiffer(x, t, y, s);
    }
  }

  lemma FirstUnitsDiffer(x: Text, s: Text, y: Text, t: Text)
    requires y != [] && !StopUnit(y[0]) && Stops(s)
    requires x == [] || x[0] != y[0]
    ensures x + s != y + t
  {
    assert (y + t)[0] == y[0];
    if x != [] {
      assert (x + s)[0] == x[0];
    } else if s != [] {
      assert (x + s)[0] == s[0];
    }
  }

  lemma QuotesCut(a: Text, b: Text)
    ensures Cut(Quote(a), Quote(b))
  {
    forall s, t | Stops(s) && Stops(t) && Quote(a) + s == Quote(b) + t
      ensures a == b
    {
      QuoteUnambiguous(a, s, b, t);
    }
  }

  lemma CutApplies(x: Text, s: Text, y: Text, t: Text)
    requires Cut(x, y) && Stops(s) && Stops(t) && x + s == y + t
    ensures x == y && s == t
  {
    assert (x + s)[|x|..] == s && (y + t)[|y|..] == t;
  }

  lemma FieldsCut(f: Field, g: Field)
    requires Cut(f.text, g.text)
    ensures Cut(FieldText(f), FieldText(g))
    ensures FieldText(f) == FieldText(g) ==> f == g
  {
    forall s, t | Stops(s) && Stops(t) && FieldText(f) + s == FieldText(g) + t
      ensures f == g
    {
      var fs, gt := [COLON] + f.text, [COLON] + g.text;
      Regroup(Quote(f.key), fs, s);
      Regroup(Quote(g.key), gt, t);
      QuoteUnambiguous(f.key, fs + s, g.key, gt + t);
      assert (fs + s)[1..] == f.text + s && (gt + t)[1..] == g.text + t;
      CutApplies(f.text, s, g.text, t);
    }
    if FieldText(f) == FieldText(g) {
      assert FieldText(f) + [] == FieldText(g) + [];
      assert Stops([]);
    }
  }

  ghost predicate AllCut(xs: seq<Text>, ys: seq<Text>) {
    forall i, k | 0 <= i < |xs| && 0 <= k < |ys| :: Cut(xs[i], ys[k])
  }

  /** Lists of such texts, separated by commas and closed, read back. */
  lemma {:induction false} JoinUnambiguous(xs: seq<Text>, s: Text, ys: seq<Text>, t: Text, close: Unit)
    requires xs != [] && ys != [] && AllCut(xs, ys) && StopUnit(close) && close != COMMA
    requires Join(xs) + ([close] + s) == Join(ys) + ([close] + t)
    ensures xs == ys && s == t
    decreases |xs|
  {
    var u, v := JoinTail(xs, [close] + s), JoinTail(ys, [close] + t);
    JoinHead(xs, [close] + s);
    JoinHead(ys, [close] + t);
    CutApplies(xs[0], u, ys[0], v);
    assert u[0] == v[0];
    if |xs| > 1 {
      assert u[1..] == Join(xs[1..]) + ([close] + s) && v[1..] == Join(ys[1..]) + ([close] + t);
      JoinUnambiguous(xs[1..], s, ys[1..], t, close);
      assert xs == [xs[0]] + xs[1..] && ys == [ys[0]] + ys[1..];
    } else {
      assert u[1..] == s && v[1..] == t;
    }
  }

  function JoinTail(xs: seq<Text>, rest: Text): Text
    requires xs != []
  {
    if |xs| == 1 then rest else [COMMA] + (Join(xs[1..]) + rest)
  }

  lemma JoinHead(xs: seq<Text>, rest: Text)
    requires xs != []
    ensures Join(xs) + rest == xs[0] + JoinTail(xs, rest)
  {
    if |xs| > 1 {
      var more := Join(xs[1..]);
      assert xs[0] + ([COMMA] + more) + rest == xs[0] + ([COMMA] + (more + rest));
    }
  }

  /** Joined, no texts and one empty text look the same. */
  function AtLeastOne(texts: seq<Text>): (r: seq<Text>)
    ensures r != [] && Join(r) == Join(texts)
  {
    if texts == [] then [[]] else texts
  }

  lemma EnclosedUnambiguous(open: Unit, xs: seq<Text>, s: Text, ys: seq<Text>, t: Text, close: Unit)
    requires StopUnit(close) && close != COMMA && AllCut(AtLeastOne(xs), AtLeastOne(ys))
    requires Enclosed(open, xs, close) + s == Enclosed(open, ys, close) + t
    ensures AtLeastOne(xs) == AtLeastOne(ys) && s == t
  {
    var x, y := Join(xs), Join(ys);
    assert (Enclosed(open, xs, close) + s)[1..] == x + ([close] + s);
    assert (Enclosed(open, ys, close) + t)[1..] == y + ([close] + t);
    JoinUnambiguous(AtLeastOne(xs), s, AtLeastOne(ys), t, close);
  }

  lemma EnclosedCut(open: Unit, xs: seq<Text>, ys: seq<Text>, close: Unit)
    requires StopUnit(close) && close != COMMA && AllCut(AtLeastOne(xs), AtLeastOne(ys))
    ensures Cut(Enclosed(open, xs, close), Enclosed(open, ys, close))
  {
    forall s, t | Stops(s) && Stops(t) && Enclosed(open, xs, close) + s == Enclosed(open, ys, close) + t
      ensures Enclosed(open, xs, close) == Enclosed(open, ys, close)
    {
      EnclosedUnambiguous(open, xs, s, ys, t, close);
    }
  }

  /** The text of an element of `xs`, or the empty text of an undefined one or of an empty array. */
  predicate ElementTextOf(xs: seq<Json>, x: Text) {
    x == [] || exists j <- xs :: x == Stable(j)
  }

  lemma ElementCut(xs: seq<Json>, ys: seq<Json>, x: Text, y: Text)
    requires Proper(Arr(xs)) && Proper(Arr(ys)) && ElementTextOf(xs, x) && ElementTextOf(ys, y)
    requires forall i, k | 0 <= i < |xs| && 0 <= k < |ys| :: Cut(Stable(xs[i]), Stable(ys[k]))
    ensures Cut(x, y)
  {
    if x == [] && y != [] {
      var j :| j in ys && y == Stable(j);
      FirstUnit(j);
      FirstUnitsCut(x, y);
    } else if y == [] && x != [] {
      var j :| j in xs && x == Stable(j);
      FirstUnit(j);
      FirstUnitsCut(y, x);
    }
  }

  lemma ElementsAreTexts(xs: seq<Json>, x: Text)
    requires x in AtLeastOne(Elements(xs))
    ensures ElementTextOf(xs, x)
  {
    if xs != [] {
      var i :| 0 <= i < |xs| && Elements(xs)[i] == x;
      assert x == Element(xs[i]) && xs[i] in xs;
    }
  }

  lemma ElementsCut(xs: seq<Json>, ys: seq<Json>)
    requires Proper(Arr(xs)) && Proper(Arr(ys))
    requires forall i, k | 0 <= i < |xs| && 0 <= k < |ys| :: Cut(Stable(xs[i]), Stable(ys[k]))
    ensures AllCut(AtLeastOne(Elements(xs)), AtLeastOne(Elements(ys)))
  {
    forall x, y | x in AtLeastOne(Elements(xs)) && y in AtLeastOne(Elements(ys))
      ensures Cut(x, y)
    {
      ElementsAreTexts(xs, x);
      ElementsAreTexts(ys, y);
      ElementCut(xs, ys, x, y);
    }
  }

  lemma {:induction false} InsertKeeps(field: Field, sorted: seq<Field>)
    ensures forall x :: x in Insert(field, sorted) <==> x == field || x in sorted
  {
    if sorted != [] && Less(sorted[0].key, field.key) {
      InsertKeeps(field, sorted[1..]);
      assert forall x :: x in sorted <==> x == sorted[0] || x in sorted[1..];
    }
  }

  lemma {:induction false} SortKeeps(fields: seq<Field>)
    ensures forall x :: x in Sort(fields) <==> x in fields
  {
    if fields != [] {
      SortKeeps(fields[1..]);
      InsertKeeps(fields[0], Sort(fields[1..]));
      assert forall x :: x in fields <==> x == fields[0] || x in fields[1..];
    }
  }

  predicate Sorted(fields: seq<Field>) {
    forall i, k | 0 <= i < k < |fields| :: Less(fields[i].key, fields[k].key)
  }

  lemma {:induction false} InsertSorts(field: Field, sorted: seq<Field>)
    requires Sorted(sorted) && forall x <- sorted :: x.key != field.key
    ensures Sorted(Insert(field, sorted))
  {
    if sorted != [] {
      LessTotal(sorted[0].key, field.key);
      if Less(sorted[0].key, field.key) {
        InsertSorts(field, sorted[1..]);
        InsertKeeps(field, sorted[1..]);
        forall x | x in Insert(field, sorted[1..])
          ensures Less(sorted[0].key, x.key)
        {
        }
      } else {
        forall x | x in sorted
          ensures Less(field.key, x.key)
        {
          if x != sorted[0] {
            LessTransitive(field.key, sorted[0].key, x.key);
          }
        }
      }
    }
  }

  predicate DistinctKeys(fields: seq<Field>) {
    forall i, k | 0 <= i < k < |fields| :: fields[i].key != fields[k].key
  }

  lemma {:induction false} SortSorts(fields: seq<Field>)
    requires DistinctKeys(fields)
    ensures Sorted(Sort(fields))
  {
    if fields != [] {
      SortSorts(fields[1..]);
      SortKeeps(fields[1..]);
      InsertSorts(fields[0], Sort(fields[1..]));
    }
  }

  /** A strictly sorted list is determined by its elements. */
  lemma {:induction false} SortedUnique(a: seq<Field>, b: seq<Field>)
    requires Sorted(a) && Sorted(b) && forall x :: x in a <==> x in b
    ensures a == b
  {
    assert b == [] || b[0] in b;
    assert b == [] || b[0] in a;
    if a != [] {
      assert a[0] in a && a[0] in b;
      LessTotal(a[0].key, b[0].key);
      forall x
        ensures x in a[1..] <==> x in b[1..]
      {
        TailOf(a, x);
        TailOf(b, x);
      }
      SortedUnique(a[1..], b[1..]);
      assert a == [a[0]] + a[1..] && b == [b[0]] + b[1..];
    }
  }

  lemma TailOf(a: seq<Field>, x: Field)
    requires Sorted(a) && a != []
    ensures x in a[1..] <==> x in a && x != a[0]
  {
    LessTotal(x.key, a[0].key);
    if x in a && x != a[0] {
      var i :| 0 <= i < |a| && a[i] == x;
      assert a[1..][i - 1] == x;
    }
  }

  lemma FieldsAgree(e: seq<Entry>, f: seq<Entry>)
    requires forall x <- e :: x in f
    ensures forall x <- Fields(e) :: x in Fields(f)
  {
    forall i | 0 <= i < |e|
      ensures Fields(e)[i] in Fields(f)
    {
      assert e[i] in f;
      var k :| 0 <= k < |f| && f[k] == e[i];
      assert Fields(f)[k] == Fields(e)[i];
    }
  }

  /** An object is printed with its entries in ascending order of their keys. */
  lemma KeysAscend(entries: seq<Entry>, ordered: seq<Entry>)
    requires Proper(Obj(entries)) && forall x :: x in ordered <==> x in entries
    requires forall i, k | 0 <= i < k < |ordered| :: Less(ordered[i].key, ordered[k].key)
    ensures Stable(Obj(entries)) == [OPEN_BRACE] + Join(FieldTexts(Fields(ordered))) + [CLOSE_BRACE]
  {
    var sorted := Sort(Fields(entries));
    SortSorts(Fields(entries));
    SortKeeps(Fields(entries));
    FieldsAgree(entries, ordered);
    FieldsAgree(ordered, entries);
    assert Sorted(Fields(ordered));
    SortedUnique(sorted, Fields(ordered));
  }

  lemma SortedFieldsCut(e: seq<Entry>, f: seq<Entry>)
    requires forall i, k | 0 <= i < |e| && 0 <= k < |f| :: Cut(Stable(e[i].value), Stable(f[k].value))
    ensures AllCut(AtLeastOne(FieldTexts(Sort(Fields(e)))), AtLeastOne(FieldTexts(Sort(Fields(f)))))
  {
    var xs, ys := AtLeastOne(FieldTexts(Sort(Fields(e)))), AtLeastOne(FieldTexts(Sort(Fields(f))));
    SortKeeps(Fields(e));
    SortKeeps(Fields(f));
    forall i, k | 0 <= i < |xs| && 0 <= k < |ys|
      ensures Cut(xs[i], ys[k])
    {
      SortedFieldCut(e, f, xs[i], ys[k]);
    }
  }

  /** The text of a field of `e`, or the empty text of an object without fields. */
  predicate FieldTextOf(e: seq<Entry>, x: Text) {
    x == [] || exists field <- Fields(e) :: x == FieldText(field)
  }

  lemma SortedFieldCut(e: seq<Entry>, f: seq<Entry>, x: Text, y: Text)
    requires forall i, k | 0 <= i < |e| && 0 <= k < |f| :: Cut(Stable(e[i].value), Stable(f[k].value))
    requires FieldTextOf(e, x) && FieldTextOf(f, y)
    ensures Cut(x, y)
  {
    if x == [] && y != [] {
      FirstUnitsCut(x, y);
    } else if y == [] && x != [] {
      FirstUnitsCut(y, x);
    } else if x != [] {
      var g :| g in Fields(e) && x == FieldText(g);
      var h :| h in Fields(f) && y == FieldText(h);
      FieldsCut(g, h);
    }
  }

  /** Unique decodability: no value's text begins another's, when punctuation follows both. */
  lemma {:induction false} StableCut(a: Json, b: Json)
    requires Proper(a) && Proper(b)
    ensures Cut(Stable(a), Stable(b))
    decreases a
  {
    FirstUnit(a);
    FirstUnit(b);
    if Kind(a) != Kind(b) {
      FirstUnitsCut(Stable(a), Stable(b));
    } else {
      match a
      case Str(s) => QuotesCut(s, b.s);
      case Arr(xs) =>
        forall i, k | 0 <= i < |xs| && 0 <= k < |b.items|
          ensures Cut(Stable(xs[i]), Stable(b.items[k]))
        {
          StableCut(xs[i], b.items[k]);
        }
        ElementsCut(xs, b.items);
        EnclosedCut(OPEN_BRACKET, Elements(xs), Elements(b.items), CLOSE_BRACKET);
      case Obj(e) =>
        forall i, k | 0 <= i < |e| && 0 <= k < |b.entries|
          ensures Cut(Stable(e[i].value), Stable(b.entries[k].value))
        {
          StableCut(e[i].value, b.entries[k].value);
        }
        SortedFieldsCut(e, b.entries);
        EnclosedCut(OPEN_BRACE, FieldTexts(Sort(Fields(e))), FieldTexts(Sort(Fields(b.entries))), CLOSE_BRACE);
      case _ => WordsCut(Stable(a), Stable(b));
    }
  }

  // Which values get the same text.

  /** Equality up to the order of object keys. */
  predicate Equivalent(a: Json, b: Json)
    decreases a, 0
  {
    match a
    case Arr(xs) => b.Arr? && |xs| == |b.items| && forall i | 0 <= i < |xs| :: Equivalent(xs[i], b.items[i])
    case Obj(e) =>
      && b.Obj?
      && (forall i | 0 <= i < |e| :: HasMatch(e[i], b.entries))
      && (forall k | 0 <= k < |b.entries| :: IsMatched(e, b.entries[k]))
    case _ => a == b
  }

  predicate Matches(x: Entry, y: Entry)
    decreases x, 0
  {
    x.key == y.key && Equivalent(x.value, y.value)
  }

  predicate HasMatch(x: Entry, f: seq<Entry>)
    decreases x, 1
  {
    exists k | 0 <= k < |f| :: Matches(x, f[k])
  }

  predicate IsMatched(e: seq<Entry>, y: Entry)
    decreases e, 1
  {
    exists i | 0 <= i < |e| :: Matches(e[i], y)
  }

  /** What the serialization sees: no NaN or infinity, and nothing in an array of one undefined. */
  function Seen(j: Json): Json {
    match j
    case NonFinite => Null
    case Arr(items) =>
      if |items| == 1 && items[0].Undefined? then Arr([])
      else Arr(seq(|items|, i requires 0 <= i < |items| => Seen(items[i])))
    case Obj(entries) =>
      Obj(seq(|entries|, i requires 0 <= i < |entries| => Entry(entries[i].key, Seen(entries[i].value))))
    case _ => j
  }

  lemma {:induction false} SeenHasSameText(j: Json)
    requires Proper(j)
    ensures Proper(Seen(j)) && Stable(Seen(j)) == Stable(j) && Element(Seen(j)) == Element(j)
  {
    match j
    case Arr(items) =>
      if |items| == 1 && items[0].Undefined? {
        assert Elements(items) == [[]];
        assert Join(Elements(items)) == Join(Elements([]));
      } else {
        forall i | 0 <= i < |items|
          ensures Proper(Seen(items[i])) && Element(Seen(items[i])) == Element(items[i])
        {
          SeenHasSameText(items[i]);
        }
        assert Elements(Seen(j).items) == Elements(items);
      }
    case Obj(entries) =>
      forall i | 0 <= i < |entries|
        ensures Proper(Seen(entries[i].value)) && Stable(Seen(entries[i].value)) == Stable(entries[i].value)
      {
        SeenHasSameText(entries[i].value);
      }
      assert Fields(Seen(j).entries) == Fields(entries);
    case _ =>
  }

  predicate Settled(j: Json) {
    match j
    case NonFinite => false
    case Arr(items) => items != [Undefined] && forall i | 0 <= i < |items| :: Settled(items[i])
    case Obj(entries) => forall i | 0 <= i < |entries| :: Settled(entries[i].value)
    case _ => true
  }

  lemma {:induction false} SeenIsSettled(j: Json)
    ensures Settled(Seen(j)) && (Seen(j).Undefined? <==> j.Undefined?)
    ensures Settled(j) ==> Seen(j) == j
  {
    match j
    case Arr(items) =>
      forall i | 0 <= i < |items|
        ensures Settled(Seen(items[i])) && (Seen(items[i]).Undefined? <==> items[i].Undefined?)
        ensures Settled(items[i]) ==> Seen(items[i]) == items[i]
      {
        SeenIsSettled(items[i]);
      }
      assert |items| == 1 && items[0].Undefined? ==> items == [Undefined];
      if Settled(j) {
        assert Seen(j).items == items;
      }
    case Obj(entries) =>
      forall i | 0 <= i < |entries|
        ensures Settled(Seen(entries[i].value))
        ensures Settled(entries[i].value) ==> Seen(entries[i].value) == entries[i].value
      {
        SeenIsSettled(entries[i].value);
      }
      if Settled(j) {
        assert Seen(j).entries == entries;
      }
    case _ =>
  }

  lemma EqualEnclosed(open: Unit, xs: seq<Text>, ys: seq<Text>, close: Unit)
    requires StopUnit(close) && close != COMMA && AllCut(AtLeastOne(xs), AtLeastOne(ys))
    requires Enclosed(open, xs, close) == Enclosed(open, ys, close)
    ensures AtLeastOne(xs) == AtLeastOne(ys)
  {
    assert Enclosed(open, xs, close) + [] == Enclosed(open, ys, close) + [];
    EnclosedUnambiguous(open, xs, [], ys, [], close);
  }

  lemma SameElementAt(xs: seq<Json>, ys: seq<Json>, i: nat)
    requires Proper(Arr(xs)) && Proper(Arr(ys)) && Elements(xs) == Elements(ys) && i < |xs|
    ensures i < |ys| && Stable(xs[i]) == Stable(ys[i]) && (xs[i].Undefined? <==> ys[i].Undefined?)
  {
    var u, v := Elements(xs), Elements(ys);
    assert |u| == |xs| && |v| == |ys|;
    assert u[i] == Element(xs[i]) && v[i] == Element(ys[i]);
  }

  lemma OnlyUndefinedIsEmpty(xs: seq<Json>)
    requires Proper(Arr(xs)) && AtLeastOne(Elements(xs)) == [[]] && xs != [Undefined]
    ensures xs == []
  {
    if xs != [] {
      assert Elements(xs)[0] == Element(xs[0]);
      FirstUnit(xs[0]);
    }
  }

  lemma SameElements(xs: seq<Json>, ys: seq<Json>)
    requires Proper(Arr(xs)) && Proper(Arr(ys)) && xs != [Undefined] && ys != [Undefined]
    requires AtLeastOne(Elements(xs)) == AtLeastOne(Elements(ys))
    ensures |xs| == |ys|
    ensures forall i | 0 <= i < |xs| :: Stable(xs[i]) == Stable(ys[i]) && (xs[i].Undefined? <==> ys[i].Undefined?)
  {
    if xs == [] {
      OnlyUndefinedIsEmpty(ys);
    } else if ys == [] {
      OnlyUndefinedIsEmpty(xs);
    } else {
      forall i | 0 <= i < |xs|
        ensures Stable(xs[i]) == Stable(ys[i]) && (xs[i].Undefined? <==> ys[i].Undefined?)
      {
        SameElementAt(xs, ys, i);
      }
    }
  }

  lemma FieldTextsInjective(a: seq<Field>, b: seq<Field>)
    requires forall x, y | x in a && y in b :: FieldText(x) == FieldText(y) ==> x == y
    requires AtLeastOne(FieldTexts(a)) == AtLeastOne(FieldTexts(b))
    ensures a == b
  {
    if a != [] && b != [] {
      forall i | 0 <= i < |a|
        ensures a[i] == b[i]
      {
        assert FieldTexts(a)[i] == FieldTexts(b)[i];
      }
    }
  }

  /** Objects with the same text have the same fields. */
  lemma SameFields(e: seq<Entry>, f: seq<Entry>)
    requires Proper(Obj(e)) && Proper(Obj(f)) && Stable(Obj(e)) == Stable(Obj(f))
    ensures forall x :: x in Fields(e) <==> x in Fields(f)
  {
    var a, b := Sort(Fields(e)), Sort(Fields(f));
    SortKeeps(Fields(e));
    SortKeeps(Fields(f));
    forall i, k | 0 <= i < |e| && 0 <= k < |f|
      ensures Cut(Stable(e[i].value), Stable(f[k].value))
    {
      StableCut(e[i].value, f[k].value);
    }
    SortedFieldsCut(e, f);
    EqualEnclosed(OPEN_BRACE, FieldTexts(a), FieldTexts(b), CLOSE_BRACE);
    forall x, y | x in a && y in b
      ensures FieldText(x) == FieldText(y) ==> x == y
    {
      FieldsCut(x, y);
    }
    FieldTextsInjective(a, b);
  }

  lemma SameKind(a: Json, b: Json)
    requires Proper(a) && Proper(b) && Settled(a) && Settled(b) && Stable(a) == Stable(b)
    ensures Kind(a) == Kind(b)
    ensures Kind(a) == 3 ==> a == b
  {
    FirstUnit(a);
    FirstUnit(b);
  }

  lemma SameItems(xs: seq<Json>, ys: seq<Json>)
    requires Proper(Arr(xs)) && Proper(Arr(ys)) && xs != [Undefined] && ys != [Undefined]
    requires Stable(Arr(xs)) == Stable(Arr(ys))
    ensures |xs| == |ys| && forall i | 0 <= i < |xs| :: Stable(xs[i]) == Stable(ys[i])
  {
    forall i, k | 0 <= i < |xs| && 0 <= k < |ys|
      ensures Cut(Stable(xs[i]), Stable(ys[k]))
    {
      StableCut(xs[i], ys[k]);
    }
    ElementsCut(xs, ys);
    EqualEnclosed(OPEN_BRACKET, Elements(xs), Elements(ys), CLOSE_BRACKET);
    SameElements(xs, ys);
  }

  lemma SameStrings(s: Text, t: Text)
    requires Quote(s) == Quote(t)
    ensures s == t
  {
    assert Quote(s) + [] == Quote(t) + [];
    QuoteUnambiguous(s, [], t, []);
  }

  /** The same text only for equal values. */
  lemma {:induction false} SameTextOnlyIfEquivalent(a: Json, b: Json)
    requires Proper(a) && Proper(b) && Settled(a) && Settled(b) && Stable(a) == Stable(b)
    ensures Equivalent(a, b)
    decreases a, 0
  {
    SameKind(a, b);
    match a
    case Str(s) => SameStrings(s, b.s);
    case Arr(xs) =>
      SameItems(xs, b.items);
      forall i | 0 <= i < |xs|
        ensures Equivalent(xs[i], b.items[i])
      {
        SameTextOnlyIfEquivalent(xs[i], b.items[i]);
      }
    case Obj(e) =>
      SameFields(e, b.entries);
      SameTextMatches(e, b.entries);
    case _ =>
  }

  lemma {:induction false} SameTextMatches(e: seq<Entry>, f: seq<Entry>)
    requires Proper(Obj(e)) && Proper(Obj(f)) && Settled(Obj(e)) && Settled(Obj(f))
    requires forall x :: x in Fields(e) <==> x in Fields(f)
    ensures forall i | 0 <= i < |e| :: HasMatch(e[i], f)
    ensures forall k | 0 <= k < |f| :: IsMatched(e, f[k])
    decreases e, 1
  {
    var u, v := Fields(e), Fields(f);
    forall i | 0 <= i < |e|
      ensures HasMatch(e[i], f)
    {
      assert u[i] in v;
      var k :| 0 <= k < |f| && v[k] == u[i];
      SameTextOnlyIfEquivalent(e[i].value, f[k].value);
      assert Matches(e[i], f[k]);
    }
    forall k | 0 <= k < |f|
      ensures IsMatched(e, f[k])
    {
      assert v[k] in u;
      var i :| 0 <= i < |e| && u[i] == v[k];
      SameTextOnlyIfEquivalent(e[i].value, f[k].value);
      assert Matches(e[i], f[k]);
    }
  }

  lemma ElementsFollow(xs: seq<Json>, ys: seq<Json>)
    requires |xs| == |ys| && forall i | 0 <= i < |xs| :: Element(xs[i]) == Element(ys[i])
    ensures Elements(xs) == Elements(ys)
  {
  }

  /** Key order does not matter. */
  lemma {:induction false} EquivalentHasSameText(a: Json, b: Json)
    requires Proper(a) && Proper(b) && Equivalent(a, b)
    ensures Stable(a) == Stable(b) && (a.Undefined? <==> b.Undefined?)
    decreases a, 0
  {
    match a
    case Arr(xs) =>
      forall i | 0 <= i < |xs|
        ensures Element(xs[i]) == Element(b.items[i])
      {
        EquivalentHasSameText(xs[i], b.items[i]);
        assert Element(xs[i]) == if xs[i].Undefined? then [] else Stable(xs[i]);
        assert Element(b.items[i]) == if b.items[i].Undefined? then [] else Stable(b.items[i]);
      }
      ElementsFollow(xs, b.items);
    case Obj(e) =>
      MatchesHaveSameFields(e, b.entries);
      SameSortedFields(e, b.entries);
    case _ =>
  }

  lemma {:induction false} MatchHasSameField(x: Entry, f: seq<Entry>)
    requires Proper(x.value) && Proper(Obj(f)) && HasMatch(x, f)
    ensures Field(x.key, Stable(x.value)) in Fields(f)
    decreases x, 1
  {
    var k :| 0 <= k < |f| && Matches(x, f[k]);
    EquivalentHasSameText(x.value, f[k].value);
    assert Fields(f)[k] == Field(x.key, Stable(x.value));
  }

  lemma {:induction false} MatchedHasSameField(e: seq<Entry>, y: Entry)
    requires Proper(Obj(e)) && Proper(y.value) && IsMatched(e, y)
    ensures Field(y.key, Stable(y.value)) in Fields(e)
    decreases e, 1
  {
    var i :| 0 <= i < |e| && Matches(e[i], y);
    EquivalentHasSameText(e[i].value, y.value);
    assert Fields(e)[i] == Field(y.key, Stable(y.value));
  }

  lemma {:induction false} MatchesHaveSameFields(e: seq<Entry>, f: seq<Entry>)
    requires Proper(Obj(e)) && Proper(Obj(f))
    requires forall i | 0 <= i < |e| :: HasMatch(e[i], f)
    requires forall k | 0 <= k < |f| :: IsMatched(e, f[k])
    ensures forall x :: x in Fields(e) <==> x in Fields(f)
    decreases e, 2
  {
    forall i | 0 <= i < |e|
      ensures Field(e[i].key, Stable(e[i].value)) in Fields(f)
    {
      MatchHasSameField(e[i], f);
    }
    forall k | 0 <= k < |f|
      ensures Field(f[k].key, Stable(f[k].value)) in Fields(e)
    {
      MatchedHasSameField(e, f[k]);
    }
  }

  lemma SameSortedFields(e: seq<Entry>, f: seq<Entry>)
    requires Proper(Obj(e)) && Proper(Obj(f))
    requires forall x :: x in Fields(e) <==> x in Fields(f)
    ensures Sort(Fields(e)) == Sort(Fields(f))
  {
    SortKeeps(Fields(e));
    SortKeeps(Fields(f));
    SortSorts(Fields(e));
    SortSorts(Fields(f));
    SortedUnique(Sort(Fields(e)), Sort(Fields(f)));
  }

  /**
   * Canonical serialization is injective: on all values, the texts are equal exactly when what the
   * serialization sees of them is equal up to key order.
   */
  lemma StableExact(a: Json, b: Json)
    requires Proper(a) && Proper(b)
    ensures Stable(a) == Stable(b) <==> Equivalent(Seen(a), Seen(b))
  {
    SeenHasSameText(a);
    SeenHasSameText(b);
    SeenIsSettled(a);
    SeenIsSettled(b);
    if Equivalent(Seen(a), Seen(b)) {
      EquivalentHasSameText(Seen(a), Seen(b));
    }
    if Stable(a) == Stable(b) {
      SameTextOnlyIfEquivalent(Seen(a), Seen(b));
    }
  }

  /** Without non-finite numbers and arrays of one undefined, equality up to key order is all there is. */
  lemma SettledExact(a: Json, b: Json)
    requires Proper(a) && Proper(b) && Settled(a) && Settled(b)
    ensures Stable(a) == Stable(b) <==> Equivalent(a, b)
  {
    if Equivalent(a, b) {
      EquivalentHasSameText(a, b);
    }
    if Stable(a) == Stable(b) {
      SameTextOnlyIfEquivalent(a, b);
    }
  }

  /** The two collisions: an undefined alone in an array, and a number that is not finite. */
  lemma UnsettledCollide()
    ensures Stable(Arr([Undefined])) == Stable(Arr([])) && !Equivalent(Arr([Undefined]), Arr([]))
    ensures Stable(NonFinite) == Stable(Null) && !Equivalent(NonFinite, Null)
  {
    SeenHasSameText(Arr([Undefined]));
  }

  // The text is well-formed UTF-16, so its UTF-8 bytes, which are hashed, determine it.

  lemma {:induction false} JoinWellFormed(texts: seq<Text>)
    requires forall x <- texts :: WellFormed(x)
    ensures WellFormed(Join(texts))
  {
    if |texts| == 1 {
      assert texts[0] in texts;
    } else if |texts| > 1 {
      assert texts[0] in texts;
      JoinWellFormed(texts[1..]);
      WellFormedPlain([COMMA]);
      WellFormedConcat([COMMA], Join(texts[1..]));
      WellFormedConcat(texts[0], [COMMA] + Join(texts[1..]));
    }
  }

  lemma EnclosedWellFormed(open: Unit, texts: seq<Text>, close: Unit)
    requires !Lead(open) && !Trail(open) && !Lead(close) && !Trail(close)
    requires forall x <- texts :: WellFormed(x)
    ensures WellFormed(Enclosed(open, texts, close))
  {
    JoinWellFormed(texts);
    WellFormedPlain([open]);
    WellFormedPlain([close]);
    WellFormedConcat([open], Join(texts));
    WellFormedConcat([open] + Join(texts), [close]);
  }

  lemma FieldTextWellFormed(field: Field)
    requires WellFormed(field.text)
    ensures WellFormed(FieldText(field))
  {
    QuoteWellFormed(field.key);
    WellFormedPlain([COLON]);
    WellFormedConcat([COLON], field.text);
    WellFormedConcat(Quote(field.key), [COLON] + field.text);
  }

  lemma FieldTextsWellFormed(fields: seq<Field>)
    requires forall field <- fields :: WellFormed(field.text)
    ensures forall x <- FieldTexts(Sort(fields)) :: WellFormed(x)
  {
    SortKeeps(fields);
    forall x | x in FieldTexts(Sort(fields))
      ensures WellFormed(x)
    {
      var field :| field in Sort(fields) && x == FieldText(field);
      FieldTextWellFormed(field);
    }
  }

  lemma {:induction false} StableWellFormed(j: Json)
    requires Proper(j)
    ensures WellFormed(Stable(j))
  {
    match j
    case Str(s) => QuoteWellFormed(s);
    case Arr(items) =>
      forall i | 0 <= i < |items|
        ensures WellFormed(Element(items[i]))
      {
        StableWellFormed(items[i]);
      }
      EnclosedWellFormed(OPEN_BRACKET, Elements(items), CLOSE_BRACKET);
    case Obj(entries) =>
      forall i | 0 <= i < |entries|
        ensures WellFormed(Fields(entries)[i].text)
      {
        StableWellFormed(entries[i].value);
      }
      FieldTextsWellFormed(Fields(entries));
      EnclosedWellFormed(OPEN_BRACE, FieldTexts(Sort(Fields(entries))), CLOSE_BRACE);
    case _ =>
      FirstUnit(j);
      WellFormedPlain(Stable(j));
  }
}
