/** JPEG header walking: marker segments as in sections B.1.1.4 and B.2.2 of ITU-T T.81. */
module Jpeg {
  import opened Bytes
  import opened Contracts

  const MALFORMED := "MALFORMED_FILE"

  /** The segments of the header and what follows them, which is never looked at. */
  datatype Walked = Walked(segments: seq<Data>, tail: Data)

  datatype Dimensions = Dimensions(width: nat, height: nat)

  /** Start of scan and end of image end the header. */
  predicate EndsHeader(marker: Byte) {
    marker == 0xda || marker == 0xd9
  }

  predicate StartOfFrame(marker: Byte) {
    0xc0 <= marker <= 0xcf && marker != 0xc4 && marker != 0xc8 && marker != 0xcc
  }

  /** APP1, APP13 and comments. */
  predicate Metadata(marker: Byte) {
    marker == 0xe1 || marker == 0xed || marker == 0xfe
  }

  /** A marker segment; its length field counts itself and what follows. */
  predicate Segment(s: Data) {
    |s| >= 4 && s[0] == 0xff && !EndsHeader(s[1]) && U16(s, 2) == |s| - 2
  }

  predicate Tail(t: Data) {
    |t| < 2 || t[0] != 0xff || EndsHeader(t[1])
  }

  /** The header after the first two bytes. */
  function Walk(t: Data): Result<Walked> {
    if Tail(t) then Ok(Walked([], t))
    else if U16(t, 2) < 2 || 2 + U16(t, 2) > |t| then Err(MALFORMED)
    else
      match Walk(t[2 + U16(t, 2)..])
      case Err(e) => Err(e)
      case Ok(w) => Ok(Walked([t[..2 + U16(t, 2)]] + w.segments, w.tail))
  }

  predicate Removable(s: Data) {
    |s| >= 2 && Metadata(s[1])
  }

  predicate AllSegments(segments: seq<Data>) {
    forall s <- segments :: Segment(s)
  }

  lemma AllSegmentsCons(s: Data, rest: seq<Data>)
    ensures AllSegments([s] + rest) <==> Segment(s) && AllSegments(rest)
  {
    if AllSegments([s] + rest) {
      assert ([s] + rest)[0] == s;
      assert forall i | 0 <= i < |rest| :: ([s] + rest)[i + 1] == rest[i];
    }
  }

  /** The first segment of a header that walks. */
  lemma FirstSegment(t: Data) returns (s: Data, rest: Data)
    requires Walk(t).Ok? && !Tail(t)
    ensures Segment(s) && t == s + rest && |rest| < |t| && Walk(rest).Ok?
    ensures Walk(t) == Ok(Walked([s] + Walk(rest).value.segments, Walk(rest).value.tail))
  {
    var n := 2 + U16(t, 2);
    s, rest := t[..n], t[n..];
  }

  /** The walk cuts `t` into whole segments and a tail, and loses nothing. */
  ghost predicate CutsInto(t: Data, w: Walked) {
    AllSegments(w.segments) && Tail(w.tail) && t == Concat(w.segments) + w.tail
  }

  lemma CutsIntoCons(s: Data, rest: Data, w: Walked)
    ensures Segment(s) && CutsInto(rest, w) <==> CutsInto(s + rest, Walked([s] + w.segments, w.tail))
  {
    AllSegmentsCons(s, w.segments);
    var body := Concat(w.segments);
    assert s + body + w.tail == s + (body + w.tail);
    assert (s + rest)[|s|..] == rest && (s + (body + w.tail))[|s|..] == body + w.tail;
  }

  lemma {:induction false} WalkCuts(t: Data)
    requires Walk(t).Ok?
    ensures CutsInto(t, Walk(t).value)
    decreases |t|
  {
    if Tail(t) {
      assert t == Concat([]) + t;
    } else {
      var s, rest := FirstSegment(t);
      WalkCuts(rest);
      CutsIntoCons(s, rest, Walk(rest).value);
    }
  }

  lemma {:induction false} CutsWalk(t: Data, w: Walked)
    requires CutsInto(t, w)
    ensures Walk(t) == Ok(w)
    decreases |w.segments|
  {
    if w.segments == [] {
      assert t == w.tail;
    } else {
      var s, more := w.segments[0], Walked(w.segments[1..], w.tail);
      var rest := Concat(more.segments) + w.tail;
      assert w.segments == [s] + more.segments;
      assert t == s + rest;
      CutsIntoCons(s, rest, more);
      CutsWalk(rest, more);
    }
  }

  /** The header walk is the only way to cut a header into segments. */
  lemma WalkExact(t: Data, w: Walked)
    ensures Walk(t) == Ok(w) <==> CutsInto(t, w)
  {
    if Walk(t) == Ok(w) {
      WalkCuts(t);
    }
    if CutsInto(t, w) {
      CutsWalk(t, w);
    }
  }

  // Stripping.

  /** The first two bytes, the segments that are not metadata, in order, and the tail. */
  function Strip(b: Data): Result<Data> {
    match Walk(From(b, 2))
    case Err(e) => Err(e)
    case Ok(w) => Ok(UpTo(b, 2) + Concat(Kept(w.segments, Removable)) + w.tail)
  }

  /** The loop over the segments, with the pieces kept so far. */
  function Cut(kept: seq<Data>, left: Data): Result<seq<Data>>
    decreases |left|
  {
    if left == [] then Ok(kept)
    else if Tail(left) then Ok(kept + [left])
    else if U16(left, 2) < 2 || 2 + U16(left, 2) > |left| then Err(MALFORMED)
    else
      var c := left[..2 + U16(left, 2)];
      Cut(if Removable(c) then kept else kept + [c], left[2 + U16(left, 2)..])
  }

  lemma {:induction false} CutExact(kept: seq<Data>, left: Data)
    ensures match Walk(left)
            case Err(e) => Cut(kept, left) == Err(e)
            case Ok(w) =>
              && Cut(kept, left).Ok?
              && Concat(Cut(kept, left).value) == Concat(kept) + Concat(Kept(w.segments, Removable)) + w.tail
    decreases |left|
  {
    if Tail(left) {
      ConcatAppend(kept, left);
      assert Concat(kept) + [] == Concat(kept);
    } else if U16(left, 2) >= 2 && 2 + U16(left, 2) <= |left| {
      var c, rest := left[..2 + U16(left, 2)], left[2 + U16(left, 2)..];
      CutExact(if Removable(c) then kept else kept + [c], rest);
      if Walk(rest).Ok? {
        KeptOne(kept, c, Walk(rest).value.segments, Removable);
      }
    }
  }

  lemma CutStrips(b: Data)
    ensures Strip(b) == match Cut([UpTo(b, 2)], From(b, 2))
                        case Err(e) => Err(e)
                        case Ok(pieces) => Ok(Concat(pieces))
  {
    CutExact([UpTo(b, 2)], From(b, 2));
    assert Concat([UpTo(b, 2)]) == UpTo(b, 2);
  }

  /** The segment from `offset` to `end` is cut off. */
  lemma CutNext(kept: seq<Data>, b: Data, offset: nat, end: nat)
    requires offset < end <= |b| && !Tail(b[offset..]) && U16(b[offset..], 2) >= 2
    requires end == offset + 2 + U16(b[offset..], 2)
    ensures Cut(kept, b[offset..])
              == Cut(if Metadata(b[offset + 1]) then kept else kept + [b[offset..end]], b[end..])
  {
    SliceOfRest(b, offset, end);
  }

  method StripJpegMetadata(bytes: array<Byte>) returns (result: Result<array<Byte>>)
    ensures result.Ok? ==> fresh(result.value)
    ensures match Strip(bytes[..])
            case Ok(stripped) => result.Ok? && result.value[..] == stripped
            case Err(code) => result == Err(code)
  {
    var view := bytes[..];
    var chunks := [UpTo(view, 2)];
    var offset := 2;
    ghost var all := Cut(chunks, From(view, 2));
    CutStrips(view);
    while offset < |view|
      invariant 2 <= offset && (offset <= |view| || |view| < 2)
      invariant Cut(chunks, From(view, offset)) == all
    {
      if view[offset] != 0xff || offset + 1 >= |view| || EndsHeader(view[offset + 1]) {
        chunks := chunks + [view[offset..]];
        var output := Assemble(chunks);
        return Ok(output);
      }
      var marker := view[offset + 1];
      var length := U16(view[offset..], 2);
      var end := offset + 2 + length;
      if length < 2 || end > |view| {
        return Err(MALFORMED);
      }
      var segment := view[offset..end];
      CutNext(chunks, view, offset, end);
      if !Metadata(marker) {
        chunks := chunks + [segment];
      }
      offset := end;
    }
    var output := Assemble(chunks);
    result := Ok(output);
  }

  /** What is left after stripping: the same walk without its metadata segments. */
  lemma StripWalks(b: Data)
    requires Walk(From(b, 2)).Ok? && |b| >= 2
    ensures var w := Walk(From(b, 2)).value;
            && Strip(b).Ok? && From(Strip(b).value, 2) == Concat(Kept(w.segments, Removable)) + w.tail
            && UpTo(Strip(b).value, 2) == UpTo(b, 2)
            && Walk(From(Strip(b).value, 2)) == Ok(Walked(Kept(w.segments, Removable), w.tail))
  {
    var w := Walk(From(b, 2)).value;
    WalkCuts(From(b, 2));
    KeptIsClean(w.segments, Removable);
    CutsWalk(Concat(Kept(w.segments, Removable)) + w.tail, Walked(Kept(w.segments, Removable), w.tail));
    var rest := Concat(Kept(w.segments, Removable)) + w.tail;
    assert Strip(b).value == b[..2] + rest;
    assert (b[..2] + rest)[2..] == rest && (b[..2] + rest)[..2] == b[..2];
  }

  /**
   * Stripping cuts the header into its segments, keeps those that are not metadata, byte for byte
   * and in order, and the tail verbatim; the result has no metadata in its own header walk. Metadata is
   * APP1, APP13 or a comment, and the header ends before start of scan or end of image.
   */
  lemma StripExact(b: Data, stripped: Data)
    requires Strip(b) == Ok(stripped)
    ensures Walk(From(b, 2)).Ok?
    ensures var Walked(segments, tail) := Walk(From(b, 2)).value;
            && CutsInto(From(b, 2), Walked(segments, tail)) && b == UpTo(b, 2) + (Concat(segments) + tail)
            && stripped == UpTo(b, 2) + Concat(Kept(segments, Removable)) + tail
            && Walk(From(stripped, 2)) == Ok(Walked(Kept(segments, Removable), tail))
            && (forall s <- segments :: |s| >= 4 && s[0] == 0xff && s[1] !in {0xd9, 0xda} && U16(s, 2) == |s| - 2)
            && (|tail| >= 2 && tail[0] == 0xff ==> tail[1] in {0xd9, 0xda})
            && forall s :: s in Kept(segments, Removable) <==> s in segments && s[1] !in {0xe1, 0xed, 0xfe}
  {
    var w := Walk(From(b, 2)).value;
    WalkCuts(From(b, 2));
    KeptIsClean(w.segments, Removable);
    assert forall s <- w.segments :: Segment(s);
    if |b| >= 2 {
      StripWalks(b);
    } else {
      assert w == Walked([], []);
    }
  }

  lemma StripIdempotent(b: Data, stripped: Data)
    requires Strip(b) == Ok(stripped)
    ensures Strip(stripped) == Ok(stripped)
  {
    StripExact(b, stripped);
    KeptIsClean(Walk(From(b, 2)).value.segments, Removable);
    if |b| >= 2 {
      StripWalks(b);
    }
  }

  // Dimensions.

  /** From `offset` on, the first start of frame decides; fewer than nine bytes left, or the end, fail. */
  function FrameAt(b: Data, offset: nat): Result<Dimensions>
    decreases |b| - offset
  {
    var length := U16(b, offset + 2);
    if offset + 8 >= |b| || b[offset] != 0xff || EndsHeader(b[offset + 1]) then Err(MALFORMED)
    else if length < 2 || offset + 2 + length > |b| then Err(MALFORMED)
    else if StartOfFrame(b[offset + 1]) then Ok(Dimensions(U16(b, offset + 7), U16(b, offset + 5)))
    else FrameAt(b, offset + 2 + length)
  }

  method JpegDimensions(bytes: array<Byte>) returns (result: Result<Dimensions>)
    ensures result == FrameAt(bytes[..], 2)
  {
    ghost var b := bytes[..];
    var offset := 2;
    while offset + 8 < bytes.Length
      invariant 2 <= offset
      invariant FrameAt(b, offset) == FrameAt(b, 2)
    {
      if bytes[offset] != 0xff {
        return Err(MALFORMED);
      }
      var marker := bytes[offset + 1];
      if marker == 0xd9 || marker == 0xda { break; }
      var length := bytes[offset + 2] as int * 0x100 + bytes[offset + 3] as int;
      assert length == U16(b, offset + 2);
      if length < 2 || offset + 2 + length > bytes.Length {
        return Err(MALFORMED);
      }
      if StartOfFrame(marker) {
        return Ok(Dimensions(U16(bytes[..], offset + 7), U16(bytes[..], offset + 5)));
      }
      offset := offset + 2 + length;
    }
    return Err(MALFORMED);
  }

  /** The segments from the first start of frame on. */
  function FromFrame(segments: seq<Data>): seq<Data> {
    if segments == [] then []
    else if |segments[0]| >= 2 && StartOfFrame(segments[0][1]) then segments
    else FromFrame(segments[1..])
  }

  /** The first start of frame, if any, is long enough to carry its dimensions. */
  predicate FrameComplete(segments: seq<Data>) {
    FromFrame(segments) != [] ==> |FromFrame(segments)[0]| >= 9
  }

  function ReadFrame(t: Data): Result<Dimensions> {
    if |t| < 9 then Err(MALFORMED) else Ok(Dimensions(U16(t, 7), U16(t, 5)))
  }

  function FrameIn(segments: seq<Data>): Result<Dimensions> {
    if FromFrame(segments) == [] then Err(MALFORMED) else ReadFrame(FromFrame(segments)[0])
  }

  /** The bytes of `b` from `offset` on are those of `s`. */
  ghost predicate Holds(b: Data, offset: nat, s: Data) {
    offset + |s| <= |b| && forall i | 0 <= i < |s| :: b[offset + i] == s[i]
  }

  /**
   * The dimensions are bytes 5 to 8 counted from the first start of frame, be they its own or those of
   * what follows it; there are none without a start of frame, or when fewer than nine bytes are left.
   */
  lemma {:induction false} FrameAmongSegments(b: Data, offset: nat, segments: seq<Data>, tail: Data)
    requires offset <= |b| && CutsInto(b[offset..], Walked(segments, tail))
    ensures FrameAt(b, offset)
              == if FromFrame(segments) == [] then Err(MALFORMED) else ReadFrame(Concat(FromFrame(segments)) + tail)
    decreases |segments|
  {
    if segments == [] {
      assert b[offset..] == tail;
    } else {
      var s, more := segments[0], segments[1..];
      var rest := Concat(more) + tail;
      assert segments == [s] + more && b[offset..] == s + rest == Concat(segments) + tail;
      CutsIntoCons(s, rest, Walked(more, tail));
      if !StartOfFrame(s[1]) {
        FrameAmongSegments(b, offset + |s|, more, tail);
      }
    }
  }

  /** SOF0 to SOF15 without DHT, JPG and DAC, as in table B.1 of T.81. */
  predicate Frame(s: Data) {
    && |s| >= 2
    && s[1] in {0xc0, 0xc1, 0xc2, 0xc3, 0xc5, 0xc6, 0xc7, 0xc9, 0xca, 0xcb, 0xcd, 0xce, 0xcf}
  }

  lemma {:induction false} FromFrameAt(segments: seq<Data>, i: nat)
    requires i <= |segments| && (forall s <- segments[..i] :: !Frame(s)) && (i < |segments| ==> Frame(segments[i]))
    ensures FromFrame(segments) == segments[i..]
  {
    if i > 0 {
      assert segments[0] in segments[..i] && segments[1..][..i - 1] == segments[..i][1..];
      FromFrameAt(segments[1..], i - 1);
    }
  }

  /**
   * Told from the bytes `t` that start with the first frame: height and width are the two numbers behind
   * its length and precision.
   */
  lemma DimensionsExact(b: Data, offset: nat, segments: seq<Data>, tail: Data, i: nat, t: Data)
    requires offset <= |b| && CutsInto(b[offset..], Walked(segments, tail))
    requires i <= |segments| && (forall s <- segments[..i] :: !Frame(s)) && (i < |segments| ==> Frame(segments[i]))
    requires t == Concat(segments[i..]) + tail
    ensures FrameAt(b, offset) ==
      if i == |segments| || |t| < 9 then Err("MALFORMED_FILE")
      else Ok(Dimensions((t[7] as int) * 0x100 + t[8], (t[5] as int) * 0x100 + t[6]))
  {
    FrameAmongSegments(b, offset, segments, tail);
    FromFrameAt(segments, i);
  }

  lemma {:induction false} KeptFromFrame(segments: seq<Data>)
    requires AllSegments(segments)
    ensures FromFrame(Kept(segments, Removable)) == Kept(FromFrame(segments), Removable)
    ensures FromFrame(segments) != [] ==>
      var kept := Kept(FromFrame(segments), Removable);
      kept != [] && kept[0] == FromFrame(segments)[0]
  {
    if segments != [] {
      assert Segment(segments[0]);
      KeptHead(segments, Removable);
      if !StartOfFrame(segments[0][1]) {
        KeptFromFrame(segments[1..]);
      }
    }
  }

  lemma KeptHasSameFrame(segments: seq<Data>)
    requires AllSegments(segments)
    ensures FrameIn(Kept(segments, Removable)) == FrameIn(segments)
    ensures FrameComplete(segments) ==> FrameComplete(Kept(segments, Removable))
  {
    KeptFromFrame(segments);
  }

  /** The bytes in which the dimensions are looked for, from a start of frame on. */
  function DimensionBytes(t: Data): Data {
    if |t| < 9 then [] else t[5..9]
  }

  lemma ReadFrameExact(t: Data, u: Data)
    ensures ReadFrame(t) == ReadFrame(u) <==> DimensionBytes(t) == DimensionBytes(u)
  {
    if |t| >= 9 && |u| >= 9 {
      assert DimensionBytes(t) == [t[5], t[6], t[7], t[8]] && DimensionBytes(u) == [u[5], u[6], u[7], u[8]];
    }
  }

  /**
   * Stripping leaves the dimensions, present or missing, as they are if and only if the bytes 5 to 8
   * from the first start of frame on are the same with and without the metadata segments behind it.
   */
  lemma DimensionsSurviveIff(b: Data, stripped: Data)
    requires Strip(b) == Ok(stripped)
    ensures var Walked(segments, tail) := Walk(From(b, 2)).value;
            var frame := FromFrame(segments);
            FrameAt(stripped, 2) == FrameAt(b, 2) <==>
              DimensionBytes(Concat(frame) + tail) == DimensionBytes(Concat(Kept(frame, Removable)) + tail)
  {
    var w := Walk(From(b, 2)).value;
    var frame := FromFrame(w.segments);
    if |b| >= 2 {
      WalkCuts(b[2..]);
      StripWalks(b);
      WalkCuts(stripped[2..]);
      KeptFromFrame(w.segments);
      FrameAmongSegments(b, 2, w.segments, w.tail);
      FrameAmongSegments(stripped, 2, Kept(w.segments, Removable), w.tail);
      ReadFrameExact(Concat(frame) + w.tail, Concat(Kept(frame, Removable)) + w.tail);
    }
  }

  lemma CompleteFrameReads(segments: seq<Data>, tail: Data)
    requires segments != [] && |segments[0]| >= 9
    ensures ReadFrame(Concat(segments) + tail) == ReadFrame(segments[0])
  {
    var s, rest := segments[0], Concat(segments[1..]) + tail;
    assert Concat(segments) + tail == s + rest;
    assert forall i | 0 <= i < 9 :: (s + rest)[i] == s[i];
  }

  /** A first start of frame of length 7 or more, which section B.2.2 of T.81 demands, keeps its dimensions. */
  lemma StripKeepsDimensions(b: Data, stripped: Data)
    requires Strip(b) == Ok(stripped) && FrameComplete(Walk(From(b, 2)).value.segments)
    ensures FrameAt(stripped, 2) == FrameAt(b, 2) == FrameIn(Walk(From(b, 2)).value.segments)
  {
    var w := Walk(From(b, 2)).value;
    var frame := FromFrame(w.segments);
    if |b| >= 2 {
      WalkCuts(b[2..]);
      FrameAmongSegments(b, 2, w.segments, w.tail);
      KeptFromFrame(w.segments);
      if frame != [] {
        CompleteFrameReads(frame, w.tail);
        CompleteFrameReads(Kept(frame, Removable), w.tail);
        ReadFrameExact(Concat(frame) + w.tail, Concat(Kept(frame, Removable)) + w.tail);
      }
      DimensionsSurviveIff(b, stripped);
    }
  }

  // The same, told from the input alone.

  /**
   * Metadata starts within `room` bytes of what ends a short frame. A marker takes the place of a marker,
   * which shows only from the second byte on; and a tail may happen to repeat what it replaces.
   */
  predicate ReplacedAlike(room: nat, after: seq<Data>, tail: Data) {
    if exists s <- after :: !Removable(s) then room == 1
    else
      |tail| >= room
      && if room == 1 then tail[0] == 0xff
         else room == 5 && tail[1..5] == UpTo(Concat(after) + tail, 5)[1..]
  }

  /** The bytes of the dimensions that lie behind a short frame, `room` at most, do not change. */
  predicate Undisturbed(room: nat, after: seq<Data>, tail: Data)
    decreases |after|
  {
    if after == [] then true
    else if Removable(after[0]) then ReplacedAlike(room, after, tail)
    else |after[0]| >= room || Undisturbed(room - |after[0]|, after[1..], tail)
  }

  /** The dimension bytes among the first `room` behind a frame of 9 - `room` bytes. */
  function Window(room: nat, t: Data): Data
    requires 1 <= room <= 5
  {
    if |t| < room then [] else t[(if room == 5 then 1 else 0)..room]
  }

  lemma PrefixCancels(p: Data, t: Data, u: Data)
    ensures p + t == p + u <==> t == u
  {
    assert (p + t)[|p|..] == t && (p + u)[|p|..] == u;
  }

  lemma DimensionsBehind(f: Data, t: Data)
    requires 4 <= |f| < 9 && |f| + |t| >= 9
    ensures DimensionBytes(f + t) == (if |f| < 5 then [] else f[5..]) + Window(9 - |f|, t)
  {
  }

  lemma WindowBehind(f: Data, room: nat, t: Data, u: Data)
    requires 4 <= |f| < 9 && |f| + room == 9
    ensures DimensionBytes(f + t) == DimensionBytes(f + u) <==> Window(room, t) == Window(room, u)
  {
    if |t| >= room && |u| >= room {
      DimensionsBehind(f, t);
      DimensionsBehind(f, u);
      PrefixCancels(if |f| < 5 then [] else f[5..], Window(room, t), Window(room, u));
    } else {
      assert |t| >= room ==> DimensionBytes(f + t) != [] && Window(room, t) != [];
      assert |u| >= room ==> DimensionBytes(f + u) != [] && Window(room, u) != [];
    }
  }

  lemma {:induction false} KeptEmptyIff(segments: seq<Data>)
    ensures Kept(segments, Removable) == [] <==> forall s <- segments :: Removable(s)
  {
    if segments != [] {
      KeptEmptyIff(segments[1..]);
      KeptHead(segments, Removable);
      assert forall s :: s in segments <==> s == segments[0] || s in segments[1..];
    }
  }

  /** What starts with a marker that is no metadata differs from metadata in its second byte. */
  lemma MarkersDiffer(room: nat, metadata: Data, more: Data, kept: Data, rest: Data)
    requires 1 <= room <= 5 && Segment(metadata) && Removable(metadata) && Segment(kept) && !Removable(kept)
    ensures Window(room, metadata + more) == Window(room, kept + rest) <==>
      room == 1 || (|metadata + more| < room && |kept + rest| < room)
  {
    var t, u := metadata + more, kept + rest;
    assert t[0] == u[0] == 0xff && t[1] != u[1];
    if 1 < room <= |t| && room <= |u| {
      var lo := if room == 5 then 1 else 0;
      assert Window(room, t)[1 - lo] == t[1] && Window(room, u)[1 - lo] == u[1];
    }
  }

  lemma TailsDiffer(room: nat, metadata: Data, more: Data, tail: Data)
    requires 1 <= room <= 5 && Segment(metadata) && Removable(metadata) && Tail(tail) && |metadata + more| >= room
    ensures Window(room, metadata + more) == Window(room, tail) <==>
      |tail| >= room && if room == 1 then tail[0] == 0xff
                        else room == 5 && tail[1..5] == UpTo(metadata + more, 5)[1..]
  {
    var t := metadata + more;
    assert t[0] == 0xff && Metadata(t[1]);
    if room <= |tail| && 1 < room < 5 {
      assert Window(room, t)[0] == t[0] && Window(room, t)[1] == t[1];
      assert Window(room, tail)[0] == tail[0] && Window(room, tail)[1] == tail[1];
    }
  }

  lemma ConcatHead(segments: seq<Data>, tail: Data)
    requires segments != []
    ensures Concat(segments) + tail == segments[0] + (Concat(segments[1..]) + tail)
  {
  }

  lemma MetadataAhead(room: nat, after: seq<Data>, tail: Data)
    requires 1 <= room <= 5 && AllSegments(after) && Tail(tail) && after != [] && Removable(after[0])
    ensures var t := Concat(after) + tail;
            Window(room, t) == Window(room, Concat(Kept(after[1..], Removable)) + tail) <==>
              |t| < room || ReplacedAlike(room, after, tail)
  {
    var kept := Kept(after[1..], Removable);
    KeptEmptyIff(after[1..]);
    assert forall s :: s in after <==> s == after[0] || s in after[1..];
    ConcatHead(after, tail);
    assert Segment(after[0]);
    if kept != [] {
      KeptIsClean(after[1..], Removable);
      assert kept[0] in kept && Segment(kept[0]);
      ConcatHead(kept, tail);
      MarkersDiffer(room, after[0], Concat(after[1..]) + tail, kept[0], Concat(kept[1..]) + tail);
    } else {
      assert Concat(kept) + tail == tail;
      if |Concat(after) + tail| >= room {
        TailsDiffer(room, after[0], Concat(after[1..]) + tail, tail);
      }
    }
  }

  lemma WindowAfterFour(a: Data, t: Data, u: Data)
    requires |a| == 4
    ensures Window(5, a + t) == Window(5, a + u) <==> Window(1, t) == Window(1, u)
  {
    if |t| >= 1 && |u| >= 1 {
      assert Window(5, a + t) == a[1..] + Window(1, t) && Window(5, a + u) == a[1..] + Window(1, u);
      PrefixCancels(a[1..], Window(1, t), Window(1, u));
    }
  }

  lemma LongAhead(room: nat, s: Data, t: Data, u: Data)
    requires 1 <= room <= 5 && |s| >= room
    ensures Window(room, s + t) == Window(room, s + u)
  {
  }

  lemma {:induction false} WindowsAgreeIff(room: nat, after: seq<Data>, tail: Data)
    requires 1 <= room <= 5 && AllSegments(after) && Tail(tail)
    ensures var t := Concat(after) + tail;
            Window(room, t) == Window(room, Concat(Kept(after, Removable)) + tail) <==>
              |t| < room || Undisturbed(room, after, tail)
  {
    if after != [] {
      KeptHead(after, Removable);
      if Removable(after[0]) {
        MetadataAhead(room, after, tail);
      } else {
        var s, t, u := after[0], Concat(after[1..]) + tail, Concat(Kept(after[1..], Removable)) + tail;
        ConcatHead(after, tail);
        ConcatHead(Kept(after, Removable), tail);
        assert Segment(s);
        if |s| < room {
          WindowAfterFour(s, t, u);
          WindowsAgreeIff(1, after[1..], tail);
        } else {
          LongAhead(room, s, t, u);
        }
      }
    }
  }

  /** Complete, or short of nine bytes anyway, or undisturbed in the at most five bytes behind it. */
  predicate KeepsDimensions(frame: Data, after: seq<Data>, tail: Data) {
    || |frame| >= 9
    || |Concat(after) + tail| < 9 - |frame|
    || Undisturbed(9 - |frame|, after, tail)
  }

  lemma ShortFrameIff(f: Data, room: nat, after: seq<Data>, tail: Data)
    requires 4 <= |f| < 9 && |f| + room == 9 && AllSegments(after) && Tail(tail)
    ensures var t, u := Concat(after) + tail, Concat(Kept(after, Removable)) + tail;
            DimensionBytes(f + t) == DimensionBytes(f + u) <==> |t| < room || Undisturbed(room, after, tail)
  {
    WindowBehind(f, room, Concat(after) + tail, Concat(Kept(after, Removable)) + tail);
    WindowsAgreeIff(room, after, tail);
  }

  lemma BytesSurviveIff(frame: Data, after: seq<Data>, tail: Data)
    requires |frame| >= 4 && AllSegments(after) && Tail(tail)
    ensures var t, u := Concat(after) + tail, Concat(Kept(after, Removable)) + tail;
            DimensionBytes(frame + t) == DimensionBytes(frame + u) <==> KeepsDimensions(frame, after, tail)
  {
    if |frame| < 9 {
      ShortFrameIff(frame, 9 - |frame|, after, tail);
    }
  }

  lemma FrameApart(segments: seq<Data>, tail: Data)
    requires AllSegments(segments) && FromFrame(segments) != []
    ensures var frame := FromFrame(segments);
            && |frame[0]| >= 4 && AllSegments(frame[1..])
            && Concat(frame) + tail == frame[0] + (Concat(frame[1..]) + tail)
            && Concat(Kept(frame, Removable)) + tail == frame[0] + (Concat(Kept(frame[1..], Removable)) + tail)
  {
    var frame := FromFrame(segments);
    assert frame == [frame[0]] + frame[1..];
    AllSegmentsCons(frame[0], frame[1..]);
    KeptHead(frame, Removable);
    ConcatHead(frame, tail);
    ConcatHead(Kept(frame, Removable), tail);
  }

  /**
   * Stripping leaves the dimensions, present or missing, as they are if and only if the first start of
   * frame is complete, or fewer than nine bytes follow its start anyway, or the at most five bytes behind
   * it are undisturbed.
   */
  lemma SurvivesByInput(b: Data, stripped: Data)
    requires Strip(b) == Ok(stripped)
    ensures var Walked(segments, tail) := Walk(From(b, 2)).value;
            var frame := FromFrame(segments);
            FrameAt(stripped, 2) == FrameAt(b, 2) <==>
              frame == [] || KeepsDimensions(frame[0], frame[1..], tail)
  {
    var w := Walk(From(b, 2)).value;
    var frame := FromFrame(w.segments);
    DimensionsSurviveIff(b, stripped);
    WalkCuts(From(b, 2));
    if frame != [] {
      FrameApart(w.segments, w.tail);
      BytesSurviveIff(frame[0], frame[1..], w.tail);
    }
  }

  lemma PairStrips(start: Data, s: Data, metadata: Data)
    requires |start| == 2 && Segment(s) && !Removable(s) && Segment(metadata) && Removable(metadata)
    ensures Strip(start + (s + metadata)) == Ok(start + s)
  {
    var b, one: seq<Data> := start + (s + metadata), [s];
    assert one[1..] == [] && one + [metadata] == [s, metadata];
    ConcatAppend(one, metadata);
    KeptAppend(one, metadata, Removable);
    assert Concat(one) == s + [] == s && Kept(one, Removable) == one;
    assert Concat(one + [metadata]) + [] == s + metadata && Kept(one + [metadata], Removable) == one;
    assert From(b, 2) == s + metadata && UpTo(b, 2) == start;
    CutsWalk(s + metadata, Walked(one + [metadata], []));
    assert start + s + [] == start + s;
  }

  /** A start of frame shorter than that takes its dimensions from the metadata behind it, and loses them. */
  lemma ShortFrameLosesDimensions(frame: Data, metadata: Data)
    requires Segment(frame) && StartOfFrame(frame[1]) && |frame| < 9
    requires Segment(metadata) && Removable(metadata) && |frame| + |metadata| >= 9
    ensures FrameAt([0xff, 0xd8] + (frame + metadata), 2).Ok?
    ensures Strip([0xff, 0xd8] + (frame + metadata)) == Ok([0xff, 0xd8] + frame)
    ensures FrameAt([0xff, 0xd8] + frame, 2).Err?
  {
    PairStrips([0xff, 0xd8], frame, metadata);
  }
}
