/** Byte strings cut into pieces and put together again. */
module Bytes {

  type Byte = b: int | 0 <= b < 0x100

  type Data = seq<Byte>

  /** `bytes[i] ?? 0`. */
  function At(t: Data, i: nat): Byte {
    if i < |t| then t[i] else 0
  }

  /** `(a << 8) | b`. */
  function U16(t: Data, i: nat): nat {
    At(t, i) * 0x100 + At(t, i + 1)
  }

  /** `getUint32`, which throws on missing bytes. */
  function U32(t: Data, i: nat): nat
    requires i + 4 <= |t|
  {
    (t[i] as int) * 0x100_0000 + (t[i + 1] as int) * 0x1_0000 + (t[i + 2] as int) * 0x100 + t[i + 3]
  }

  /** The bytes of a name in ASCII. */
  function Ascii(name: string): Data
    requires forall i | 0 <= i < |name| :: name[i] as int < 0x80
  {
    seq(|name|, i requires 0 <= i < |name| =>
      var byte: Byte := name[i] as int;
      byte)
  }

  /** `slice` clamps its start. */
  function From(t: Data, i: nat): Data {
    if i <= |t| then t[i..] else []
  }

  /** `slice(0, i)`. */
  function UpTo(t: Data, i: nat): Data {
    if i <= |t| then t[..i] else t
  }

  function Concat(pieces: seq<Data>): Data {
    if pieces == [] then [] else pieces[0] + Concat(pieces[1..])
  }

  /** A piece cut out of what is left of the content. */
  lemma SliceOfRest(b: Data, i: nat, j: nat)
    requires i <= j <= |b|
    ensures b[i..][..j - i] == b[i..j] && b[i..][j - i..] == b[j..]
  {
  }

  lemma {:induction false} ConcatAppend(pieces: seq<Data>, last: Data)
    ensures Concat(pieces + [last]) == Concat(pieces) + last
  {
    if pieces == [] {
      assert Concat([last]) == last + Concat([]);
    } else {
      assert (pieces + [last])[1..] == pieces[1..] + [last];
      ConcatAppend(pieces[1..], last);
    }
  }

  /** The output buffer is sized first and then filled piece by piece. */
  method Assemble(pieces: seq<Data>) returns (output: array<Byte>)
    ensures fresh(output) && output[..] == Concat(pieces)
  {
    var size := 0;
    for i := 0 to |pieces|
      invariant size == |Concat(pieces[..i])|
    {
      assert pieces[..i + 1] == pieces[..i] + [pieces[i]];
      ConcatAppend(pieces[..i], pieces[i]);
      size := size + |pieces[i]|;
    }
    assert pieces[..|pieces|] == pieces;
    output := new Byte[size](_ => 0);
    var cursor := 0;
    for i := 0 to |pieces|
      invariant fresh(output) && output.Length == size == |Concat(pieces)|
      invariant cursor == |Concat(pieces[..i])| <= size
      invariant Concat(pieces) == Concat(pieces[..i]) + Concat(pieces[i..])
      invariant output[..cursor] == Concat(pieces[..i])
    {
      assert pieces[..i + 1] == pieces[..i] + [pieces[i]];
      ConcatAppend(pieces[..i], pieces[i]);
      Copy(output, cursor, pieces[i]);
      cursor := cursor + |pieces[i]|;
    }
    assert pieces[..|pieces|] == pieces;
  }

  /** `output.set(piece, cursor)`. */
  method Copy(output: array<Byte>, cursor: nat, piece: Data)
    requires cursor + |piece| <= output.Length
    modifies output
    ensures output[..cursor] == old(output[..cursor])
    ensures output[..cursor + |piece|] == old(output[..cursor]) + piece
    ensures output[cursor + |piece|..] == old(output[cursor + |piece|..])
  {
    for k := 0 to |piece|
      invariant output[..cursor] == old(output[..cursor])
      invariant output[cursor..cursor + k] == piece[..k]
      invariant output[cursor + |piece|..] == old(output[cursor + |piece|..])
    {
      output[cursor + k] := piece[k];
      assert piece[..k + 1] == piece[..k] + [piece[k]];
    }
    assert piece[..|piece|] == piece;
    assert output[..cursor + |piece|] == output[..cursor] + output[cursor..cursor + |piece|];
  }

  /** The pieces that are not to be removed. */
  function Kept(pieces: seq<Data>, removable: Data -> bool): seq<Data> {
    if pieces == [] then []
    else (if removable(pieces[0]) then [] else [pieces[0]]) + Kept(pieces[1..], removable)
  }

  lemma {:induction false} KeptAppend(pieces: seq<Data>, last: Data, removable: Data -> bool)
    ensures Kept(pieces + [last], removable) == Kept(pieces, removable) + if removable(last) then [] else [last]
  {
    if pieces == [] {
      assert pieces + [last] == [last] && [last][1..] == [];
    } else {
      assert (pieces + [last])[1..] == pieces[1..] + [last];
      KeptAppend(pieces[1..], last, removable);
    }
  }

  lemma KeptHead(pieces: seq<Data>, removable: Data -> bool)
    requires pieces != []
    ensures if removable(pieces[0]) then Kept(pieces, removable) == Kept(pieces[1..], removable)
            else
              && Kept(pieces, removable) != [] && Kept(pieces, removable)[0] == pieces[0]
              && Kept(pieces, removable)[1..] == Kept(pieces[1..], removable)
  {
    var rest := Kept(pieces[1..], removable);
    assert [] + rest == rest && ([pieces[0]] + rest)[1..] == rest;
  }

  lemma {:induction false} KeptIsClean(pieces: seq<Data>, removable: Data -> bool)
    ensures forall c :: c in Kept(pieces, removable) <==> c in pieces && !removable(c)
    ensures Kept(Kept(pieces, removable), removable) == Kept(pieces, removable)
  {
    if pieces != [] {
      KeptIsClean(pieces[1..], removable);
      KeptHead(pieces, removable);
      if !removable(pieces[0]) {
        KeptHead(Kept(pieces, removable), removable);
        assert Kept(pieces, removable) == [pieces[0]] + Kept(pieces[1..], removable);
      }
    }
  }

  /** One piece more, kept or not. */
  lemma KeptOne(kept: seq<Data>, c: Data, rest: seq<Data>, removable: Data -> bool)
    ensures Concat(if removable(c) then kept else kept + [c]) + Concat(Kept(rest, removable))
              == Concat(kept) + Concat(Kept([c] + rest, removable))
  {
    ConcatAppend(kept, c);
    var more := Kept(rest, removable);
    assert ([c] + rest)[1..] == rest && Kept([c] + rest, removable) == (if removable(c) then [] else [c]) + more;
    if removable(c) {
      assert [] + more == more;
    } else {
      assert ([c] + more)[1..] == more && Concat([c] + more) == c + Concat(more);
    }
  }
}
