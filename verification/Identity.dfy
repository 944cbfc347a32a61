/** The namespaced keys: distinct inputs, and distinct kinds of key, never share a hash preimage. */
module Identity {
  import opened JsonText
  import opened Serialization

  /** SHA-256 of a text, taken to be injective. */
  datatype Digest = Digest(preimage: Text)

  predicate IsAscii(s: string) {
    forall i | 0 <= i < |s| :: s[i] as int < 0x80
  }

  function Ascii(s: string): (t: Text)
    requires IsAscii(s)
    ensures |t| == |s| && forall i | 0 <= i < |s| :: t[i] == s[i] as int
  {
    seq(|s|, i requires 0 <= i < |s| => s[i] as int)
  }

  /** How JavaScript prints a natural number below 10^21. */
  function Digits(n: nat): Text {
    if n < 10 then [0x30 + n] else Digits(n / 10) + [0x30 + n % 10]
  }

  function Value(t: Text): int {
    if t == [] then 0 else Value(t[..|t| - 1]) * 10 + (t[|t| - 1] as int - 0x30)
  }

  lemma {:induction false} DigitsReadBack(n: nat)
    ensures Value(Digits(n)) == n
    ensures NumberLexeme(Digits(n)) && Digit(Digits(n)[0])
  {
    if n >= 10 {
      DigitsReadBack(n / 10);
      assert Digits(n)[..|Digits(n)| - 1] == Digits(n / 10);
    } else {
      assert [0x30 + n][..0] == [];
    }
  }

  function Number(n: nat): Json {
    Num(Digits(n))
  }

  /** The five kinds of key. */
  datatype KeyInput =
    | Action(caseId: Text, planVersion: nat, actionType: Text, ordinal: nat)
    | Event(source: Text, externalId: Text, caseId: Text)
    | Case(ownerId: Text, sourceChannel: Text, sourceIdentity: Text)
    | Artifact(ownerId: Text, contentSha256: Text)
    | Callback(issuer: Text, nonce: Text, caseId: Text)

  function NamespaceOf(input: KeyInput): Text {
    match input
    case Action(_, _, _, _) => Ascii("dueback/action/v1")
    case Event(_, _, _) => Ascii("dueback/event/v1")
    case Case(_, _, _) => Ascii("dueback/case/v1")
    case Artifact(_, _) => Ascii("dueback/artifact/v1")
    case Callback(_, _, _) => Ascii("dueback/callback/v1")
  }

  function FieldsOf(input: KeyInput): seq<Entry> {
    match input
    case Action(caseId, planVersion, actionType, ordinal) =>
      [Entry(Ascii("caseId"), Str(caseId)), Entry(Ascii("planVersion"), Number(planVersion)),
       Entry(Ascii("actionType"), Str(actionType)), Entry(Ascii("ordinal"), Number(ordinal))]
    case Event(source, externalId, caseId) =>
      [Entry(Ascii("source"), Str(source)), Entry(Ascii("externalId"), Str(externalId)),
       Entry(Ascii("caseId"), Str(caseId))]
    case Case(ownerId, sourceChannel, sourceIdentity) =>
      [Entry(Ascii("ownerId"), Str(ownerId)), Entry(Ascii("sourceChannel"), Str(sourceChannel)),
       Entry(Ascii("sourceIdentity"), Str(sourceIdentity))]
    case Artifact(ownerId, contentSha256) =>
      [Entry(Ascii("ownerId"), Str(ownerId)), Entry(Ascii("contentSha256"), Str(contentSha256))]
    case Callback(issuer, nonce, caseId) =>
      [Entry(Ascii("issuer"), Str(issuer)), Entry(Ascii("nonce"), Str(nonce)), Entry(Ascii("caseId"), Str(caseId))]
  }

  /** `{ namespace, ...input }`. */
  function Namespaced(input: KeyInput): seq<Entry> {
    [Entry(Ascii("namespace"), Str(NamespaceOf(input)))] + FieldsOf(input)
  }

  /** `actionIdempotencyKey` and the four dedupe keys. */
  function Key(input: KeyInput): Digest {
    Digest(Stable(Obj(Namespaced(input))))
  }

  /** Objects whose fields are strings and numbers, as every key input is. */
  predicate Flat(entries: seq<Entry>) {
    && Proper(Obj(entries))
    && forall i | 0 <= i < |entries| :: entries[i].value.Str? || entries[i].value.Num?
  }

  lemma NumberIsProper(n: nat)
    ensures Proper(Number(n)) && Number(n).Num?
  {
    DigitsReadBack(n);
  }

  lemma ActionIsFlat(input: KeyInput)
    requires input.Action?
    ensures Flat(Namespaced(input))
  {
    NumberIsProper(input.planVersion);
    NumberIsProper(input.ordinal);
  }

  lemma EventIsFlat(input: KeyInput)
    requires input.Event?
    ensures Flat(Namespaced(input))
  {
    assert Ascii("caseId")[0] != Ascii("source")[0];
  }

  lemma CallbackIsFlat(input: KeyInput)
    requires input.Callback?
    ensures Flat(Namespaced(input))
  {
    assert Ascii("caseId")[0] != Ascii("issuer")[0];
  }

  lemma InputIsFlat(input: KeyInput)
    ensures Flat(Namespaced(input))
  {
    match input
    case Action(_, _, _, _) => ActionIsFlat(input);
    case Event(_, _, _) => EventIsFlat(input);
    case Callback(_, _, _) => CallbackIsFlat(input);
    case Case(_, _, _) =>
    case Artifact(_, _) =>
  }

  lemma ScalarsAgree(x: Json, y: Json)
    requires Equivalent(x, y) && !x.Arr? && !x.Obj?
    ensures x == y
  {
  }

  /** Flat objects with one text agree on every field they share. */
  lemma SharedFieldAgrees(e: seq<Entry>, f: seq<Entry>, i: nat, k: nat)
    requires Flat(e) && Flat(f) && Stable(Obj(e)) == Stable(Obj(f))
    requires i < |e| && k < |f| && e[i].key == f[k].key
    ensures e[i] == f[k]
  {
    assert Settled(Obj(e)) && Settled(Obj(f));
    SettledExact(Obj(e), Obj(f));
    assert HasMatch(e[i], f);
    var m :| 0 <= m < |f| && Matches(e[i], f[m]);
    assert m == k;
    ScalarsAgree(e[i].value, f[m].value);
  }

  lemma NamespacesDiffer(input: KeyInput, other: KeyInput)
    requires NamespaceOf(input) == NamespaceOf(other)
    ensures input.Action? == other.Action? && input.Event? == other.Event? && input.Case? == other.Case?
    ensures input.Artifact? == other.Artifact? && input.Callback? == other.Callback?
  {
    assert Ascii("dueback/artifact/v1")[8] != Ascii("dueback/callback/v1")[8];
  }

  /** A key determines its kind and every input it was made from. */
  lemma KeysInjective(input: KeyInput, other: KeyInput)
    ensures Key(input) == Key(other) <==> input == other
  {
    if Key(input) == Key(other) {
      var e, f := Namespaced(input), Namespaced(other);
      InputIsFlat(input);
      InputIsFlat(other);
      SharedFieldAgrees(e, f, 0, 0);
      NamespacesDiffer(input, other);
      forall i | 1 <= i < |e|
        ensures e[i] == f[i]
      {
        SharedFieldAgrees(e, f, i, i);
      }
      SameInput(input, other);
    }
  }

  lemma SameInput(input: KeyInput, other: KeyInput)
    requires Namespaced(input) == Namespaced(other)
    ensures input == other
  {
    var e, f := Namespaced(input), Namespaced(other);
    assert e[0] == f[0] && e[1] == f[1] && e[2] == f[2];
    NamespacesDiffer(input, other);
    if input.Action? {
      assert e[3] == f[3] && e[4] == f[4];
      DigitsReadBack(input.planVersion);
      DigitsReadBack(other.planVersion);
      DigitsReadBack(input.ordinal);
      DigitsReadBack(other.ordinal);
    } else if !input.Artifact? {
      assert e[3] == f[3];
    }
  }
}
