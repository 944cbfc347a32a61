/** Decoding UTF-8 as a fatal decoder does: well-formed sequences of table 3-7 of the Unicode Standard. */
module Utf8 {
  import opened Bytes
  import opened Contracts

  /** A Unicode scalar value: a code point that is not a surrogate. */
  predicate Scalar(c: nat) {
    c < 0xd800 || 0xe000 <= c < 0x11_0000
  }

  predicate Continues(t: Data, i: nat) {
    0x80 <= At(t, i) <= 0xbf
  }

  /** The length of the well-formed sequence that `t` starts with; 0 if there is none. */
  function SequenceLength(t: Data): (n: nat)
    ensures n <= 4 && n <= |t|
  {
    var lead, second := At(t, 0), At(t, 1);
    if t == [] then 0
    else if lead < 0x80 then 1
    else if 0xc2 <= lead <= 0xdf && Continues(t, 1) then 2
    else if 0xe0 <= lead <= 0xef && Continues(t, 1) && Continues(t, 2)
            && (lead == 0xe0 ==> 0xa0 <= second) && (lead == 0xed ==> second <= 0x9f) then 3
    else if 0xf0 <= lead <= 0xf4 && Continues(t, 1) && Continues(t, 2) && Continues(t, 3)
            && (lead == 0xf0 ==> 0x90 <= second) && (lead == 0xf4 ==> second <= 0x8f) then 4
    else 0
  }

  function SequenceValue(t: Data): nat
    requires SequenceLength(t) > 0
  {
    match SequenceLength(t)
    case 1 => At(t, 0)
    case 2 => (At(t, 0) - 0xc0) * 0x40 + (At(t, 1) - 0x80)
    case 3 => ((At(t, 0) - 0xe0) * 0x40 + (At(t, 1) - 0x80)) * 0x40 + (At(t, 2) - 0x80)
    case _ =>
      (((At(t, 0) - 0xf0) * 0x40 + (At(t, 1) - 0x80)) * 0x40 + (At(t, 2) - 0x80)) * 0x40 + (At(t, 3) - 0x80)
  }

  /** The code points of the content; nothing if any part of it is ill-formed. */
  function Decode(t: Data): Option<seq<nat>> {
    if t == [] then Some([])
    else
      var n := SequenceLength(t);
      if n == 0 then None
      else
        match Decode(t[n..])
        case None => None
        case Some(rest) => Some([SequenceValue(t)] + rest)
  }

  function Low(c: nat): Byte {
    0x80 + c % 0x40
  }

  function EncodeScalar(c: nat): Data
    requires Scalar(c)
  {
    var d := c / 0x40;
    var e := d / 0x40;
    if c < 0x80 then [c]
    else if c < 0x800 then [0xc0 + d, Low(c)]
    else if c < 0x1_0000 then [0xe0 + e, Low(d), Low(c)]
    else [0xf0 + e / 0x40, Low(e), Low(d), Low(c)]
  }

  predicate Scalars(text: seq<nat>) {
    forall c <- text :: Scalar(c)
  }

  function Encode(text: seq<nat>): Data
    requires Scalars(text)
  {
    if text == [] then [] else EncodeScalar(text[0]) + Encode(text[1..])
  }

  /** A scalar in front is read back. */
  lemma ScalarInFront(c: nat, rest: Data)
    requires Scalar(c)
    ensures var n := |EncodeScalar(c)|;
            SequenceLength(EncodeScalar(c) + rest) == n && SequenceValue(EncodeScalar(c) + rest) == c
            && (EncodeScalar(c) + rest)[n..] == rest
  {
  }

  lemma ThreeWritten(x: nat, y: nat, z: nat)
    requires x < 0x10 && y < 0x40 && z < 0x40
    requires var c := (x * 0x40 + y) * 0x40 + z; 0x800 <= c && Scalar(c)
    ensures EncodeScalar((x * 0x40 + y) * 0x40 + z) == [0xe0 + x, 0x80 + y, 0x80 + z]
  {
  }

  /** A well-formed sequence is the encoding of its value. */
  lemma SequenceEncodes(t: Data)
    requires SequenceLength(t) > 0
    ensures Scalar(SequenceValue(t)) && EncodeScalar(SequenceValue(t)) == t[..SequenceLength(t)]
  {
    match SequenceLength(t)
    case 1 =>
    case 2 =>
    case 3 => ThreeWritten(t[0] - 0xe0, t[1] - 0x80, t[2] - 0x80);
    case _ =>
  }

  lemma {:induction false} EncodingDecodes(text: seq<nat>)
    requires Scalars(text)
    ensures Decode(Encode(text)) == Some(text)
  {
    if text != [] {
      ScalarInFront(text[0], Encode(text[1..]));
      EncodingDecodes(text[1..]);
      assert [text[0]] + text[1..] == text;
    }
  }

  lemma FirstDecoded(t: Data) returns (c: nat, rest: Data)
    requires t != [] && Decode(t).Some?
    ensures Scalar(c) && t == EncodeScalar(c) + rest && |rest| < |t|
    ensures Decode(rest).Some? && Decode(t).value == [c] + Decode(rest).value
  {
    var n := SequenceLength(t);
    c, rest := SequenceValue(t), t[n..];
    SequenceEncodes(t);
    assert t[..n] + t[n..] == t;
  }

  lemma {:induction false} DecodedEncodes(t: Data)
    requires Decode(t).Some?
    ensures Scalars(Decode(t).value) && Encode(Decode(t).value) == t
    decreases |t|
  {
    if t != [] {
      var c, rest := FirstDecoded(t);
      DecodedEncodes(rest);
    }
  }

  /** The decoder reads exactly the encodings of scalar values, and reads them back. */
  lemma DecodeExact(t: Data, text: seq<nat>)
    ensures Decode(t) == Some(text) <==> Scalars(text) && Encode(text) == t
  {
    if Decode(t) == Some(text) {
      DecodedEncodes(t);
    }
    if Scalars(text) && Encode(text) == t {
      EncodingDecodes(text);
    }
  }
}
