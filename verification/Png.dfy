/** PNG chunks: length, type, data and CRC, as in section 5.3 of the PNG specification. */
module Png {
  import opened Bytes
  import opened Contracts

  const MALFORMED := "MALFORMED_FILE"

  /** tEXt, zTXt, iTXt, eXIf, tIME and IEND; the four bytes decode to a name only if they spell it. */
  const TEXT: Data := [0x74, 0x45, 0x58, 0x74]
  const COMPRESSED_TEXT: Data := [0x7a, 0x54, 0x58, 0x74]
  const INTERNATIONAL_TEXT: Data := [0x69, 0x54, 0x58, 0x74]
  const EXIF: Data := [0x65, 0x58, 0x49, 0x66]
  const TIME: Data := [0x74, 0x49, 0x4d, 0x45]
  const END: Data := [0x49, 0x45, 0x4e, 0x44]

  predicate Chunk(c: Data) {
    |c| >= 12 && U32(c, 0) == |c| - 12
  }

  function TypeOf(c: Data): Data
    requires |c| >= 8
  {
    c[4..8]
  }

  predicate IsEnd(c: Data) {
    |c| >= 8 && TypeOf(c) == END
  }

  predicate Removable(c: Data) {
    && |c| >= 8
    && (TypeOf(c) == TEXT || TypeOf(c) == COMPRESSED_TEXT || TypeOf(c) == INTERNATIONAL_TEXT
        || TypeOf(c) == EXIF || TypeOf(c) == TIME)
  }

  /** The chunks after the signature: nothing may follow IEND, and nothing may be left over. */
  function Walk(t: Data): Result<seq<Data>> {
    if t == [] then Ok([])
    else if |t| < 12 || 12 + U32(t, 0) > |t| then Err(MALFORMED)
    else
      var n := 12 + U32(t, 0);
      if IsEnd(t[..n]) then if n == |t| then Ok([t]) else Err(MALFORMED)
      else
        match Walk(t[n..])
        case Err(e) => Err(e)
        case Ok(chunks) => Ok([t[..n]] + chunks)
  }

  predicate WellFormed(chunks: seq<Data>) {
    && (forall c <- chunks :: Chunk(c))
    && (forall i | 0 <= i < |chunks| - 1 :: !IsEnd(chunks[i]))
  }

  function Strip(b: Data): Result<Data> {
    if |b| < 8 then Err(MALFORMED)
    else
      match Walk(b[8..])
      case Err(e) => Err(e)
      case Ok(chunks) => Ok(b[..8] + Concat(Kept(chunks, Removable)))
  }

  // The walk is the only way to cut a file into chunks.

  lemma {:induction false} WalkCuts(t: Data)
    requires Walk(t).Ok?
    ensures WellFormed(Walk(t).value) && t == Concat(Walk(t).value)
    decreases |t|
  {
    if t != [] {
      var n := 12 + U32(t, 0);
      var c := t[..n];
      assert U32(c, 0) == U32(t, 0);
      if IsEnd(c) {
        assert t == c && Concat([t]) == t + Concat([][..]);
      } else {
        WalkCuts(t[n..]);
        var rest := Walk(t[n..]).value;
        assert ([c] + rest)[1..] == rest;
        assert t == c + Concat(rest);
      }
    }
  }

  lemma {:induction false} CutsWalk(chunks: seq<Data>)
    requires WellFormed(chunks)
    ensures Walk(Concat(chunks)) == Ok(chunks)
    decreases |chunks|
  {
    if chunks != [] {
      var c, rest := chunks[0], Concat(chunks[1..]);
      assert c in chunks;
      var t := c + rest;
      assert U32(t, 0) == U32(c, 0) && t[..|c|] == c && t[|c|..] == rest;
      assert chunks == [c] + chunks[1..];
      if IsEnd(c) {
        assert |chunks| == 1 && rest == [];
        assert t == c && chunks == [t] && Concat(chunks) == t;
      } else {
        CutsWalk(chunks[1..]);
      }
    }
  }

  /** Every accepted input parses exactly into its chunks, and every list of chunks is accepted. */
  lemma WalkExact(t: Data, chunks: seq<Data>)
    ensures Walk(t) == Ok(chunks) <==> WellFormed(chunks) && t == Concat(chunks)
  {
    if Walk(t) == Ok(chunks) {
      WalkCuts(t);
    }
    if WellFormed(chunks) {
      CutsWalk(chunks);
    }
  }

  // Stripping.

  lemma {:induction false} KeptIsWellFormed(chunks: seq<Data>)
    requires WellFormed(chunks)
    ensures WellFormed(Kept(chunks, Removable))
  {
    if chunks != [] {
      KeptIsWellFormed(chunks[1..]);
      KeptHead(chunks, Removable);
      if |chunks| == 1 {
        assert Kept(chunks[1..], Removable) == [];
      }
    }
  }

  lemma KeptWalks(head: Data, chunks: seq<Data>)
    requires |head| == 8 && WellFormed(chunks)
    ensures var kept := Kept(chunks, Removable);
            var stripped := head + Concat(kept);
            && stripped[..8] == head && Walk(stripped[8..]) == Ok(kept) && Strip(stripped) == Ok(stripped)
  {
    var kept := Kept(chunks, Removable);
    var stripped := head + Concat(kept);
    KeptIsClean(chunks, Removable);
    KeptIsWellFormed(chunks);
    CutsWalk(kept);
    assert stripped[..8] == head && stripped[8..] == Concat(kept);
  }

  /**
   * Stripping keeps the signature and exactly the chunks that are not removable, byte for byte and in
   * order; the result parses again, and stripping it again changes nothing.
   */
  lemma StripExact(b: Data, stripped: Data)
    requires Strip(b) == Ok(stripped)
    ensures |b| >= 8 && |stripped| >= 8 && stripped[..8] == b[..8]
    ensures Walk(b[8..]).Ok? && WellFormed(Walk(b[8..]).value) && b == b[..8] + Concat(Walk(b[8..]).value)
    ensures Walk(stripped[8..]) == Ok(Kept(Walk(b[8..]).value, Removable))
    ensures forall c <- Walk(stripped[8..]).value :: !Removable(c)
    ensures Strip(stripped) == Ok(stripped)
  {
    var chunks := Walk(b[8..]).value;
    WalkCuts(b[8..]);
    KeptWalks(b[..8], chunks);
    KeptIsClean(chunks, Removable);
    assert b == b[..8] + b[8..];
  }

  lemma RemovableByName(c: Data)
    requires |c| >= 8
    ensures Removable(c) <==>
      c[4..8] in {Ascii("tEXt"), Ascii("zTXt"), Ascii("iTXt"), Ascii("eXIf"), Ascii("tIME")}
    ensures IsEnd(c) <==> c[4..8] == Ascii("IEND")
  {
    assert TEXT == Ascii("tEXt") && COMPRESSED_TEXT == Ascii("zTXt") && INTERNATIONAL_TEXT == Ascii("iTXt");
    assert EXIF == Ascii("eXIf") && TIME == Ascii("tIME") && END == Ascii("IEND");
  }

  /** Told by the names of the types: what is removed, and that nothing follows the chunk that ends the file. */
  lemma RemovedByName(chunks: seq<Data>, i: nat)
    requires WellFormed(chunks) && i < |chunks|
    ensures |chunks[i]| >= 12
    ensures chunks[i] !in Kept(chunks, Removable) <==>
      chunks[i][4..8] in {Ascii("tEXt"), Ascii("zTXt"), Ascii("iTXt"), Ascii("eXIf"), Ascii("tIME")}
    ensures chunks[i][4..8] == Ascii("IEND") ==> i == |chunks| - 1
  {
    assert chunks[i] in chunks;
    KeptIsClean(chunks, Removable);
    RemovableByName(chunks[i]);
  }

  // Dimensions.

  datatype Dimensions = Dimensions(width: nat, height: nat)

  function DimensionsOf(b: Data): Result<Dimensions> {
    if |b| < 24 then Err(MALFORMED) else Ok(Dimensions(U32(b, 16), U32(b, 20)))
  }

  /** The first chunk carries the dimensions, as IHDR does; section 5.6 puts it first. */
  predicate HeaderFirst(chunks: seq<Data>) {
    chunks != [] && |chunks[0]| >= 20 && !Removable(chunks[0])
  }

  /** The number with the `n` digits from `i` on, the most significant first. */
  function BigEndian(t: Data, i: nat, n: nat): nat
    requires i + n <= |t|
  {
    if n == 0 then 0 else 0x100 * BigEndian(t, i, n - 1) + t[i + n - 1]
  }

  lemma FourDigits(t: Data, i: nat)
    requires i + 4 <= |t|
    ensures BigEndian(t, i, 4) == U32(t, i)
  {
    assert BigEndian(t, i, 1) == t[i] as int;
    assert BigEndian(t, i, 2) == 0x100 * (t[i] as int) + t[i + 1];
  }

  /** The header chunk's data starts with width and height, and stripping leaves them as they are. */
  lemma StripKeepsDimensions(b: Data, stripped: Data)
    requires Strip(b) == Ok(stripped) && HeaderFirst(Walk(b[8..]).value)
    ensures DimensionsOf(stripped) == DimensionsOf(b)
    ensures var header := Walk(b[8..]).value[0];
            DimensionsOf(b) == Ok(Dimensions(BigEndian(header, 8, 4), BigEndian(header, 12, 4)))
    ensures |stripped| >= 8 && Walk(stripped[8..]).Ok? && HeaderFirst(Walk(stripped[8..]).value)
  {
    var chunks := Walk(b[8..]).value;
    StripExact(b, stripped);
    var first, rest := chunks[0], Kept(chunks[1..], Removable);
    KeptHead(chunks, Removable);
    assert b == b[..8] + (first + Concat(chunks[1..]));
    assert stripped == b[..8] + (first + Concat(rest));
    assert b[..28] == b[..8] + first[..20] == stripped[..28];
    assert U32(b, 16) == U32(b[..28], 16) && U32(b, 20) == U32(b[..28], 20);
    FourDigits(first, 8);
    FourDigits(first, 12);
    assert U32(b, 16) == U32(first, 8) && U32(b, 20) == U32(first, 12);
    assert U32(stripped, 16) == U32(stripped[..28], 16) && U32(stripped, 20) == U32(stripped[..28], 20);
  }

  /** The loop over the chunks, with those kept so far. */
  function Cut(kept: seq<Data>, left: Data): Result<seq<Data>>
    decreases |left|
  {
    if left == [] then Ok(kept)
    else if |left| < 12 || 12 + U32(left, 0) > |left| then Err(MALFORMED)
    else
      var n := 12 + U32(left, 0);
      var next := if Removable(left[..n]) then kept else kept + [left[..n]];
      if !IsEnd(left[..n]) then Cut(next, left[n..])
      else if n == |left| then Ok(next) else Err(MALFORMED)
  }

  lemma {:induction false} CutExact(kept: seq<Data>, left: Data)
    ensures Cut(kept, left) == match Walk(left)
                               case Err(e) => Err(e)
                               case Ok(chunks) => Ok(kept + Kept(chunks, Removable))
    decreases |left|
  {
    if left == [] {
      assert kept + Kept([], Removable) == kept;
    } else if |left| >= 12 && 12 + U32(left, 0) <= |left| {
      var n := 12 + U32(left, 0);
      var c, rest := left[..n], left[n..];
      if IsEnd(c) {
        assert n == |left| ==> c == left;
        KeptOne(kept, c, []);
      } else {
        CutExact(if Removable(c) then kept else kept + [c], rest);
        if Walk(rest).Ok? {
          KeptOne(kept, c, Walk(rest).value);
        }
      }
    }
  }

  lemma KeptOne(kept: seq<Data>, c: Data, rest: seq<Data>)
    ensures (if Removable(c) then kept else kept + [c]) + Kept(rest, Removable) == kept + Kept([c] + rest, Removable)
    ensures rest == [] ==> kept + Kept([c], Removable) == if Removable(c) then kept else kept + [c]
  {
    assert ([c] + rest)[1..] == rest;
    if rest == [] {
      assert [c] + rest == [c];
    }
  }

  lemma CutStrips(b: Data)
    ensures Strip(b) == if |b| < 8 then Err(MALFORMED)
                        else match Cut([b[..8]], b[8..])
                             case Err(e) => Err(e)
                             case Ok(chunks) => Ok(Concat(chunks))
  {
    if |b| >= 8 {
      CutExact([b[..8]], b[8..]);
    }
  }

  method StripPngMetadata(bytes: array<Byte>) returns (result: Result<array<Byte>>)
    ensures result.Ok? ==> fresh(result.value)
    ensures match Strip(bytes[..])
            case Ok(stripped) => result.Ok? && result.value[..] == stripped
            case Err(code) => result == Err(code)
  {
    var view := bytes[..];
    var chunks := [UpTo(view, 8)];
    var offset := 8;
    var ended := false;
    ghost var all := Cut(chunks, From(view, 8));
    CutStrips(view);
    while offset + 12 <= |view| && !ended
      invariant 8 <= offset && (offset <= |view| || |view| < 8)
      invariant !ended ==> Cut(chunks, From(view, offset)) == all
      invariant ended ==> all == if offset == |view| then Ok(chunks) else Err(MALFORMED)
      decreases |view| - offset, !ended
    {
      var length := U32(view[offset..], 0);
      var end := offset + 12 + length;
      if end > |view| {
        return Err(MALFORMED);
      }
      var chunk := view[offset..end];
      SliceOfRest(view, offset, end);
      if !Removable(chunk) {
        chunks := chunks + [chunk];
      }
      offset := end;
      ended := IsEnd(chunk);
    }
    if offset != |view| {
      return Err(MALFORMED);
    }
    var output := Assemble(chunks);
    result := Ok(output);
  }
}
