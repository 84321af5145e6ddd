/** The incremental splitter that cuts a stream of concatenated JPEG images into frames. */
module JpegStream {
  import opened Domain

  newtype Byte = b: int | 0 <= b < 256
  type Bytes = seq<Byte>

  // The frames cut so far, and the bytes left over.
  type Parse = (seq<Bytes>, Bytes)

  // Markers, section B.1.1.3 of ITU-T T.81.
  const SOI: Bytes := [0xFF, 0xD8]
  const EOI: Bytes := [0xFF, 0xD9]
  const MAX_RESIDUE := 8 * 1024 * 1024

  predicate EoiAt(s: Bytes, i: int) {
    0 <= i && i + 1 < |s| && s[i] == EOI[0] && s[i + 1] == EOI[1]
  }

  predicate NoEoi(s: Bytes) {
    forall i | 0 <= i < |s| :: !EoiAt(s, i)
  }

  /** `Buffer.indexOf`: where the first end-of-image marker at or after `from` starts. */
  function IndexOfEoi(s: Bytes, from: nat): (r: Option<nat>)
    ensures r.None? ==> forall i | from <= i :: !EoiAt(s, i)
    ensures r.Some? ==> from <= r.value && EoiAt(s, r.value) && forall i | from <= i < r.value :: !EoiAt(s, i)
    decreases |s| - from
  {
    if |s| < from + 2 then None
    else if EoiAt(s, from) then Some(from)
    else IndexOfEoi(s, from + 1)
  }

  /** Frames must start with a start-of-image marker; anything else before an end of image is garbage. */
  predicate StartsImage(piece: Bytes) {
    SOI <= piece
  }

  // ---------------- the one-shot parse ----------------

  /** All frames of a whole stream, and what follows the last end of image. */
  function Split(s: Bytes): Parse
    decreases |s|
  {
    match IndexOfEoi(s, 0)
    case None => ([], s)
    case Some(i) =>
      var (frames, residue) := Split(s[i + 2..]);
      (if StartsImage(s[..i + 2]) then [s[..i + 2]] + frames else frames, residue)
  }

  function Concat(pieces: seq<Bytes>): Bytes {
    if pieces == [] then [] else pieces[0] + Concat(pieces[1..])
  }

  /** A piece of the stream that ends with its only end-of-image marker. */
  predicate Closed(piece: Bytes) {
    EoiAt(piece, |piece| - 2) && forall i | 0 <= i < |piece| - 2 :: !EoiAt(piece, i)
  }

  predicate AllClosed(pieces: seq<Bytes>) {
    forall p | p in pieces :: Closed(p)
  }

  function Images(pieces: seq<Bytes>): seq<Bytes> {
    if pieces == [] then []
    else (if StartsImage(pieces[0]) then [pieces[0]] else []) + Images(pieces[1..])
  }

  lemma FirstPiece(piece: Bytes, rest: Bytes)
    requires Closed(piece)
    ensures IndexOfEoi(piece + rest, 0) == Some(|piece| - 2)
  {
    var s := piece + rest;
    assert EoiAt(s, |piece| - 2);
    forall i | 0 <= i < |piece| - 2 ensures !EoiAt(s, i) {
      assert !EoiAt(piece, i);
    }
  }

  /** A parse of what follows, behind the frames already cut. */
  function Behind(frames: seq<Bytes>, p: Parse): Parse {
    (frames + p.0, p.1)
  }

  lemma BehindBehind(a: seq<Bytes>, b: seq<Bytes>, p: Parse)
    ensures Behind(a + b, p) == Behind(a, Behind(b, p)) && Behind([], p) == p
  {
    assert a + b + p.0 == a + (b + p.0) && [] + p.0 == p.0;
  }

  function Cut(piece: Bytes): seq<Bytes> {
    if StartsImage(piece) then [piece] else []
  }

  lemma SplitFirst(piece: Bytes, rest: Bytes)
    requires Closed(piece)
    ensures Split(piece + rest) == Behind(Cut(piece), Split(rest))
  {
    FirstPiece(piece, rest);
    assert (piece + rest)[..|piece|] == piece && (piece + rest)[|piece|..] == rest;
    BehindBehind([], [], Split(rest));
  }

  lemma SplitNone(s: Bytes)
    requires IndexOfEoi(s, 0).None?
    ensures Split(s) == ([], s)
  {
  }

  /**
   * What the parse means: however a stream is made up of closed pieces and a tail without a marker, the
   * frames are the pieces that start an image, in order, and the tail is left over.
   */
  lemma {:induction false} SplitIsTheDecomposition(pieces: seq<Bytes>, tail: Bytes)
    requires AllClosed(pieces) && NoEoi(tail)
    ensures Split(Concat(pieces) + tail) == (Images(pieces), tail)
    decreases |pieces|
  {
    if pieces == [] {
      assert Concat(pieces) + tail == tail;
    } else {
      assert pieces[0] in pieces;
      var rest := Concat(pieces[1..]) + tail;
      assert Concat(pieces) + tail == pieces[0] + rest;
      SplitFirst(pieces[0], rest);
      SplitIsTheDecomposition(pieces[1..], tail);
    }
  }

  lemma ClosedAt(s: Bytes, i: nat)
    requires IndexOfEoi(s, 0) == Some(i)
    ensures Closed(s[..i + 2])
  {
    var first := s[..i + 2];
    forall j | 0 <= j < i ensures !EoiAt(first, j) { assert !EoiAt(s, j); }
  }

  /** Every stream is made up in that way. */
  lemma {:induction false} Decompose(s: Bytes) returns (pieces: seq<Bytes>, tail: Bytes)
    ensures AllClosed(pieces) && NoEoi(tail) && s == Concat(pieces) + tail
    decreases |s|
  {
    var at := IndexOfEoi(s, 0);
    if at.None? {
      pieces, tail := [], s;
    } else {
      var first := s[..at.value + 2];
      ClosedAt(s, at.value);
      var more;
      more, tail := Decompose(s[at.value + 2..]);
      pieces := [first] + more;
      assert pieces[1..] == more;
      assert s == first + s[at.value + 2..];
    }
  }

  lemma ResidueIsClean(s: Bytes)
    ensures NoEoi(Split(s).1) && |Split(s).1| <= |s|
  {
    var pieces, tail := Decompose(s);
    SplitIsTheDecomposition(pieces, tail);
  }

  /** Parsing can stop anywhere and go on from the residue. */
  lemma {:induction false} SplitResumes(a: Bytes, b: Bytes)
    ensures Split(a + b) == Behind(Split(a).0, Split(Split(a).1 + b))
    decreases |a|
  {
    hide Split, Behind, Cut;
    var at := IndexOfEoi(a, 0);
    if at.None? {
      SplitNone(a);
      BehindBehind([], [], Split(a + b));
    } else {
      var first, rest := a[..at.value + 2], a[at.value + 2..];
      ClosedAt(a, at.value);
      assert a + b == first + (rest + b) && a == first + rest;
      SplitFirst(first, rest + b);
      SplitFirst(first, rest);
      SplitResumes(rest, b);
      BehindBehind(Cut(first), Split(rest).0, Split(Split(rest).1 + b));
      BehindIs(Cut(first), Split(rest));
    }
  }

  lemma BehindIs(frames: seq<Bytes>, p: Parse)
    ensures Behind(frames, p).0 == frames + p.0 && Behind(frames, p).1 == p.1
  {
  }

  // ---------------- the incremental parse ----------------

  /** One push: parse what is buffered and what arrives, and drop a residue that has grown too long. */
  function Pushed(buffer: Bytes, chunk: Bytes): Parse {
    var (frames, residue) := Split(buffer + chunk);
    (frames, if |residue| > MAX_RESIDUE then [] else residue)
  }

  /** A new parser after `chunks`: all frames emitted, and its buffer. */
  function Fed(chunks: seq<Bytes>): Parse {
    if chunks == [] then ([], [])
    else
      var (before, buffer) := Fed(chunks[..|chunks| - 1]);
      var (frames, buffer') := Pushed(buffer, chunks[|chunks| - 1]);
      (before + frames, buffer')
  }

  class JpegStreamParser {
    var buffer: Bytes

    constructor ()
      ensures buffer == []
    {
      buffer := [];
    }

    /** `frames` are the images handed to the callback, in order. */
    method Push(chunk: Bytes) returns (frames: seq<Bytes>)
      modifies this
      ensures (frames, buffer) == Pushed(old(buffer), chunk)
    {
      hide Split, Behind;
      buffer := if |buffer| == 0 then chunk else buffer + chunk;
      frames := [];
      var searchFrom := 0;
      ghost var all := buffer;
      assert all == old(buffer) + chunk;
      BehindBehind([], [], Split(all));
      while true
        invariant searchFrom == 0
        invariant Split(all) == Behind(frames, Split(buffer))
        decreases |buffer|
      {
        var eoi := IndexOfEoi(buffer, searchFrom);
        if eoi.None? { break; }
        var frame := buffer[..eoi.value + 2];
        ghost var before := frames;
        if frame[0] == 0xFF && frame[1] == 0xD8 {
          frames := frames + [frame];
        }
        CutFrame(buffer, eoi.value, before, frames);
        buffer := buffer[eoi.value + 2..];
        searchFrom := 0;
      }
      SplitNone(buffer);
      BehindIs(frames, Split(buffer));
      assert frames + [] == frames;
      if |buffer| > MAX_RESIDUE { buffer := []; }
    }

    static lemma CutFrame(buffer: Bytes, i: nat, before: seq<Bytes>, frames: seq<Bytes>)
      requires IndexOfEoi(buffer, 0) == Some(i)
      requires frames == if StartsImage(buffer[..i + 2]) then before + [buffer[..i + 2]] else before
      ensures Behind(before, Split(buffer)) == Behind(frames, Split(buffer[i + 2..]))
    {
      hide Split;
      ClosedAt(buffer, i);
      SplitFirst(buffer[..i + 2], buffer[i + 2..]);
      assert buffer == buffer[..i + 2] + buffer[i + 2..];
      BehindBehind(before, Cut(buffer[..i + 2]), Split(buffer[i + 2..]));
      assert frames == before + Cut(buffer[..i + 2]);
    }
  }

  /** After every push the buffer holds no end of image and is bounded. */
  lemma BufferIsBounded(chunks: seq<Bytes>)
    ensures NoEoi(Fed(chunks).1) && |Fed(chunks).1| <= MAX_RESIDUE
  {
    if chunks != [] {
      ResidueIsClean(Fed(chunks[..|chunks| - 1]).1 + chunks[|chunks| - 1]);
    }
  }

  /** No prefix of the stream, cut where a chunk ends, leaves more than the parser is willing to buffer. */
  predicate Bounded(chunks: seq<Bytes>) {
    forall k | 0 <= k <= |chunks| :: |Split(Concat(chunks[..k])).1| <= MAX_RESIDUE
  }

  predicate AgreesThroughout(chunks: seq<Bytes>) {
    forall k | 0 <= k <= |chunks| :: Fed(chunks[..k]) == Split(Concat(chunks[..k]))
  }

  lemma {:induction false} ConcatLast(chunks: seq<Bytes>, chunk: Bytes)
    ensures Concat(chunks + [chunk]) == Concat(chunks) + chunk
    decreases |chunks|
  {
    if chunks != [] {
      assert (chunks + [chunk])[1..] == chunks[1..] + [chunk];
      ConcatLast(chunks[1..], chunk);
    }
  }

  lemma {:induction false} FedIsSplit(chunks: seq<Bytes>)
    requires Bounded(chunks)
    ensures Fed(chunks) == Split(Concat(chunks))
    decreases |chunks|
  {
    if chunks != [] {
      var init, last := chunks[..|chunks| - 1], chunks[|chunks| - 1];
      forall k | 0 <= k <= |init| ensures |Split(Concat(init[..k])).1| <= MAX_RESIDUE {
        assert init[..k] == chunks[..k];
      }
      FedIsSplit(init);
      assert chunks == init + [last];
      ConcatLast(init, last);
      SplitResumes(Concat(init), last);
      assert chunks[..|chunks|] == chunks;
    }
  }

  /**
   * Chunking does not matter: at every point the incremental parse agrees with the one-shot parse of all
   * that has arrived, if and only if no residue on the way is over the bound.
   */
  lemma ChunkingIsIrrelevant(chunks: seq<Bytes>)
    ensures AgreesThroughout(chunks) <==> Bounded(chunks)
  {
    forall k | 0 <= k <= |chunks| ensures Bounded(chunks) ==> Fed(chunks[..k]) == Split(Concat(chunks[..k])) {
      if Bounded(chunks) {
        forall j | 0 <= j <= k ensures |Split(Concat(chunks[..k][..j])).1| <= MAX_RESIDUE {
          assert chunks[..k][..j] == chunks[..j];
        }
        FedIsSplit(chunks[..k]);
      }
    }
    forall k | 0 <= k <= |chunks| ensures |Fed(chunks[..k]).1| <= MAX_RESIDUE { BufferIsBounded(chunks[..k]); }
  }

  // ---------------- a well-behaved encoder ----------------

  /** A complete image without an inner end-of-image marker, of a size the parser is willing to buffer. */
  predicate Image(f: Bytes) {
    StartsImage(f) && Closed(f) && |f| <= MAX_RESIDUE
  }

  /** Anything but an end-of-image marker: compressed data, in which 0xFF is followed by 0x00 or a restart marker. */
  predicate Unmarked(body: Bytes) {
    forall i | 0 <= i < |body| - 1 && body[i] == 0xFF :: body[i + 1] != 0xD9
  }

  /** In bytes: such images are what stands between the two markers without the second, in at most eight mebibytes. */
  lemma ImageBytes(f: Bytes)
    ensures Image(f) <==> |f| <= 8388608 && exists body :: f == [0xFF, 0xD8] + body + [0xFF, 0xD9] && Unmarked(body)
  {
    if Image(f) {
      var body := f[2..|f| - 2];
      assert f == [0xFF, 0xD8] + body + [0xFF, 0xD9];
      forall i | 0 <= i < |body| - 1 && body[i] == 0xFF ensures body[i + 1] != 0xD9 {
        assert !EoiAt(f, i + 2);
      }
    }
    if body :| f == [0xFF, 0xD8] + body + [0xFF, 0xD9] && Unmarked(body) {
      assert f[..2] == SOI;
      forall i | 0 <= i < |f| - 2 ensures !EoiAt(f, i) {
        if 2 <= i < |f| - 3 { assert f[i] == body[i - 2] && f[i + 1] == body[i - 1]; }
      }
    }
  }

  lemma {:induction false} PrefixResidue(images: seq<Bytes>, n: nat)
    requires (forall f | f in images :: Image(f)) && n <= |Concat(images)|
    ensures |Split(Concat(images)[..n]).1| <= MAX_RESIDUE
    decreases |images|
  {
    if images != [] {
      assert images[0] in images;
      var first, rest := images[0], Concat(images[1..]);
      if n < |first| {
        var s := Concat(images)[..n];
        assert s == first[..n];
        forall i ensures !EoiAt(s, i) {
          if 0 <= i < n - 1 { assert !EoiAt(first, i); }
        }
      } else {
        assert Concat(images)[..n] == first + rest[..n - |first|];
        SplitFirst(first, rest[..n - |first|]);
        PrefixResidue(images[1..], n - |first|);
      }
    }
  }

  lemma {:induction false} ConcatPrefix(chunks: seq<Bytes>, k: nat)
    requires k <= |chunks|
    ensures Concat(chunks[..k]) <= Concat(chunks)
    decreases |chunks|
  {
    if 0 < k {
      assert chunks[..k][1..] == chunks[1..][..k - 1];
      ConcatPrefix(chunks[1..], k - 1);
    }
  }

  lemma {:induction false} ImagesOfImages(images: seq<Bytes>)
    requires forall f | f in images :: Image(f)
    ensures Images(images) == images
    decreases |images|
  {
    if images != [] {
      assert images[0] in images;
      ImagesOfImages(images[1..]);
    }
  }

  /** However the bytes of such images are cut into chunks, exactly those images come out, and nothing is left. */
  lemma ImagesComeOutExactly(images: seq<Bytes>, chunks: seq<Bytes>)
    requires forall f | f in images :: Image(f)
    requires Concat(chunks) == Concat(images)
    ensures Fed(chunks) == (images, [])
  {
    forall k | 0 <= k <= |chunks| ensures |Split(Concat(chunks[..k])).1| <= MAX_RESIDUE {
      ConcatPrefix(chunks, k);
      PrefixResidue(images, |Concat(chunks[..k])|);
      assert Concat(images)[..|Concat(chunks[..k])|] == Concat(chunks[..k]);
    }
    FedIsSplit(chunks);
    SplitIsTheDecomposition(images, []);
    ImagesOfImages(images);
    assert Concat(images) + [] == Concat(images);
  }
}
