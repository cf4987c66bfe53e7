/** The check that a generated preview is a WebP file without metadata (src/media_indexer.rs:1780-1879), against the
    container format of section 2 of RFC 9649. Masks and shifts on bytes are written as arithmetic. */
module WebP {
  import opened Common

  type Byte = b: nat | b < 256

  datatype Kind = VP8X | ALPH | VP8 | VP8L
  datatype Chunk = Chunk(kind: Kind, data: seq<Byte>)

  // ----- the container format

  function Tag(k: Kind): (t: seq<Byte>)
    ensures |t| == 4
  {
    match k
    case VP8X => [0x56, 0x50, 0x38, 0x58]
    case ALPH => [0x41, 0x4C, 0x50, 0x48]
    case VP8 => [0x56, 0x50, 0x38, 0x20]
    case VP8L => [0x56, 0x50, 0x38, 0x4C]
  }

  function Little(a: nat, b: nat, c: nat, d: nat): nat {
    a + 256 * (b + 256 * (c + 256 * d))
  }

  function Le32(n: nat): (b: seq<Byte>)
    requires n < 0x1_0000_0000
    ensures |b| == 4 && FromLe32(b) == n
  {
    var n1 := n / 256;
    var n2 := n1 / 256;
    [n % 256, n1 % 256, n2 % 256, n2 / 256]
  }

  function FromLe32(b: seq<Byte>): (n: nat)
    requires |b| == 4
    ensures n < 0x1_0000_0000
  {
    Little(b[0], b[1], b[2], b[3])
  }

  lemma Le32Inverse(b: seq<Byte>)
    requires |b| == 4
    ensures Le32(FromLe32(b)) == b
  {
    var n := FromLe32(b);
    assert n / 256 == Little(b[1], b[2], b[3], 0);
    assert n / 256 / 256 == Little(b[2], b[3], 0, 0);
  }

  predicate Fits(c: Chunk) {
    |c.data| < 0x1_0000_0000
  }

  /** A chunk is its tag, its size, its data and a zero byte if the size is odd. */
  function Encode(c: Chunk): (b: seq<Byte>)
    requires Fits(c)
    ensures |b| == 8 + |c.data| + |c.data| % 2
  {
    Tag(c.kind) + Le32(|c.data|) + c.data + (if |c.data| % 2 == 1 then [0] else [])
  }

  function Body(cs: seq<Chunk>): seq<Byte>
    requires forall i :: 0 <= i < |cs| ==> Fits(cs[i])
  {
    if cs == [] then [] else Encode(cs[0]) + Body(cs[1..])
  }

  const RIFF: seq<Byte> := [0x52, 0x49, 0x46, 0x46]
  const WEBP: seq<Byte> := [0x57, 0x45, 0x42, 0x50]

  ghost predicate Tiles(bytes: seq<Byte>, cs: seq<Chunk>) {
    && (forall i :: 0 <= i < |cs| ==> Fits(cs[i])) && |Body(cs)| + 4 < 0x1_0000_0000
    && bytes == RIFF + Le32(|Body(cs)| + 4) + WEBP + Body(cs)
  }

  // ----- what makes a file acceptable

  /** Any of the bits 0x2E: animation, XMP, EXIF and colour profile. */
  predicate MetadataFlags(b: Byte) {
    b % 16 >= 2 || b % 64 >= 32
  }

  /** The bit 0x10. */
  predicate AlphaFlag(b: Byte) {
    b % 32 >= 16
  }

  function Canvas(data: seq<Byte>): (nat, nat)
    requires |data| >= 10
  {
    (1 + Little(data[4], data[5], data[6], 0), 1 + Little(data[7], data[8], data[9], 0))
  }

  function Times(a: nat, b: nat): nat {
    a * b
  }

  predicate IsImage(c: Chunk) {
    c.kind.VP8? || c.kind.VP8L?
  }

  predicate ChunkOk(c: Chunk) {
    match c.kind
    case VP8X => |c.data| >= 10 && !MetadataFlags(c.data[0])
    case ALPH => true
    case VP8 => |c.data| >= 10 && c.data[3..6] == [0x9D, 0x01, 0x2A]
    case VP8L => |c.data| >= 5 && c.data[0] == 0x2F
  }

  function ImageSize(c: Chunk): (nat, nat)
    requires IsImage(c) && ChunkOk(c)
  {
    var d := c.data;
    if c.kind.VP8? then (Little(d[6], d[7], 0, 0) % 0x4000, Little(d[8], d[9], 0, 0) % 0x4000)
    else (1 + Little(d[1], d[2] % 64, 0, 0), 1 + d[2] / 64 + Times(4, d[3]) + Times(1024, d[4] % 16))
  }

  ghost predicate Has(cs: seq<Chunk>, k: Kind) {
    exists i :: 0 <= i < |cs| && cs[i].kind == k
  }

  /** Every chunk is well formed and no kind occurs twice. */
  ghost predicate Admissible(cs: seq<Chunk>) {
    && (forall i :: 0 <= i < |cs| ==> ChunkOk(cs[i]))
    && (forall i, j :: 0 <= i < j < |cs| ==> cs[i].kind != cs[j].kind)
  }

  ghost predicate Transparent(cs: seq<Chunk>) {
    Has(cs, ALPH) || exists i :: 0 <= i < |cs| && cs[i].kind.VP8L? && |cs[i].data| >= 5 && AlphaFlag(cs[i].data[4])
  }

  /** The byte at offset 20: the flags of a VP8X chunk that comes first. */
  predicate FlagByte(bytes: seq<Byte>) {
    |bytes| > 20 && AlphaFlag(bytes[20])
  }

  /** The image of an accepted file, and what its canvas chunk must agree with. */
  ghost predicate Describes(bytes: seq<Byte>, cs: seq<Chunk>, size: (nat, nat)) {
    && Admissible(cs) && (Has(cs, VP8) <==> !Has(cs, VP8L))
    && (forall i :: 0 <= i < |cs| && IsImage(cs[i]) ==> ImageSize(cs[i]) == size)
    && size.0 > 0 && size.1 > 0
    && (forall i :: 0 <= i < |cs| && cs[i].kind.VP8X? ==> Canvas(cs[i].data) == size)
    && (Has(cs, VP8X) ==> (FlagByte(bytes) <==> Transparent(cs)))
  }

  // ----- parsing

  function KindOf(t: seq<Byte>): (k: Option<Kind>)
    ensures k.Some? ==> Tag(k.value) == t
    ensures k.None? ==> forall j: Kind :: Tag(j) != t
  {
    if t == Tag(VP8X) then Some(VP8X)
    else if t == Tag(ALPH) then Some(ALPH)
    else if t == Tag(VP8) then Some(VP8)
    else if t == Tag(VP8L) then Some(VP8L)
    else None
  }

  predicate StartsChunk(b: seq<Byte>) {
    && |b| >= 8 && KindOf(b[..4]).Some?
    && (var size := FromLe32(b[4..8]); 8 + size + size % 2 <= |b| && (size % 2 == 1 ==> b[8 + size] == 0))
  }

  function FirstChunk(b: seq<Byte>): Chunk
    requires StartsChunk(b)
  {
    Chunk(KindOf(b[..4]).value, b[8..8 + FromLe32(b[4..8])])
  }

  function Span(b: seq<Byte>): (n: nat)
    requires StartsChunk(b)
    ensures 8 <= n <= |b|
  {
    var size := FromLe32(b[4..8]);
    8 + size + size % 2
  }

  function ParseBody(b: seq<Byte>): Option<seq<Chunk>> {
    if b == [] then Some([])
    else if !StartsChunk(b) then None
    else Before([FirstChunk(b)], ParseBody(b[Span(b)..]))
  }

  function Before(cs: seq<Chunk>, rest: Option<seq<Chunk>>): Option<seq<Chunk>> {
    if rest.None? then None else Some(cs + rest.value)
  }

  lemma FirstChunkEncodes(b: seq<Byte>)
    requires StartsChunk(b)
    ensures Fits(FirstChunk(b)) && Encode(FirstChunk(b)) == b[..Span(b)]
  {
    var c, size := FirstChunk(b), FromLe32(b[4..8]);
    Le32Inverse(b[4..8]);
    assert |c.data| == size;
    FourPieces(b, 8 + size, Span(b));
    assert b[8 + size..Span(b)] == (if size % 2 == 1 then [0] else []);
  }

  lemma FourPieces(b: seq<Byte>, m: nat, n: nat)
    requires 8 <= m <= n <= |b|
    ensures b[..n] == b[..4] + b[4..8] + b[8..m] + b[m..n]
  {
  }

  lemma EncodedStarts(c: Chunk, rest: seq<Byte>)
    requires Fits(c)
    ensures var b := Encode(c) + rest;
            && StartsChunk(b) && FirstChunk(b) == c
            && Span(b) == |Encode(c)| && b[Span(b)..] == rest
  {
    var b := Encode(c) + rest;
    assert b[..4] == Tag(c.kind);
    assert b[4..8] == Le32(|c.data|);
    assert b[8..8 + |c.data|] == c.data;
    assert KindOf(b[..4]) == Some(c.kind);
  }

  /** What the parser reads serialises back to the same bytes. */
  lemma {:induction false} ParsedTiles(b: seq<Byte>)
    requires ParseBody(b).Some?
    ensures forall i :: 0 <= i < |ParseBody(b).value| ==> Fits(ParseBody(b).value[i])
    ensures Body(ParseBody(b).value) == b
    decreases |b|
  {
    if b != [] {
      var rest := ParseBody(b[Span(b)..]).value;
      ParsedTiles(b[Span(b)..]);
      FirstChunkEncodes(b);
      assert ([FirstChunk(b)] + rest)[1..] == rest;
      assert b == b[..Span(b)] + b[Span(b)..];
    }
  }

  /** What is serialised is read back, so a file has at most one list of chunks. */
  lemma {:induction false} TiledParses(cs: seq<Chunk>)
    requires forall i :: 0 <= i < |cs| ==> Fits(cs[i])
    ensures ParseBody(Body(cs)) == Some(cs)
  {
    if cs != [] {
      TiledParses(cs[1..]);
      EncodedStarts(cs[0], Body(cs[1..]));
      assert [cs[0]] + cs[1..] == cs;
    }
  }

  predicate HeaderOk(bytes: seq<Byte>) {
    && |bytes| >= 12 && bytes[..4] == RIFF && bytes[8..12] == WEBP
    && FromLe32(bytes[4..8]) + 8 == |bytes|
  }

  lemma TiledFileParses(bytes: seq<Byte>, cs: seq<Chunk>)
    requires Tiles(bytes, cs)
    ensures HeaderOk(bytes) && ParseBody(bytes[12..]) == Some(cs)
  {
    assert bytes[12..] == Body(cs) && bytes[4..8] == Le32(|Body(cs)| + 4);
    TiledParses(cs);
  }

  lemma ParsedFileTiles(bytes: seq<Byte>, cs: seq<Chunk>)
    requires HeaderOk(bytes) && ParseBody(bytes[12..]) == Some(cs)
    ensures Tiles(bytes, cs)
  {
    ParsedTiles(bytes[12..]);
    Le32Inverse(bytes[4..8]);
    assert bytes == bytes[..4] + bytes[4..8] + bytes[8..12] + bytes[12..];
  }

  /** The header and the parse together say exactly that the file is tiled, and by which chunks. */
  lemma TilesIffParses(bytes: seq<Byte>, cs: seq<Chunk>)
    ensures Tiles(bytes, cs) <==> HeaderOk(bytes) && ParseBody(bytes[12..]) == Some(cs)
  {
    if Tiles(bytes, cs) {
      TiledFileParses(bytes, cs);
    } else if HeaderOk(bytes) && ParseBody(bytes[12..]) == Some(cs) {
      ParsedFileTiles(bytes, cs);
    }
  }

  // ----- the validator

  /** What the loop remembers of the chunks read so far. */
  datatype Seen = Seen(extended: Option<(nat, nat)>, image: Option<(nat, nat)>, vp8: bool, vp8l: bool, alpha: bool,
    vp8lAlpha: bool)

  ghost predicate Tracks(cs: seq<Chunk>, seen: Seen) {
    && Admissible(cs)
    && (seen.vp8 <==> Has(cs, VP8)) && (seen.vp8l <==> Has(cs, VP8L)) && (seen.alpha <==> Has(cs, ALPH))
    && (seen.extended.Some? <==> Has(cs, VP8X)) && (seen.image.Some? <==> seen.vp8 || seen.vp8l)
    && (seen.vp8lAlpha ==> seen.vp8l)
    && (forall i :: 0 <= i < |cs| ==> Remembers(seen, cs[i]))
  }

  ghost predicate Remembers(seen: Seen, c: Chunk)
    requires ChunkOk(c)
  {
    match c.kind
    case VP8X => seen.extended == Some(Canvas(c.data))
    case ALPH => true
    case VP8 => seen.vp8l || seen.image == Some(ImageSize(c))
    case VP8L => (seen.vp8lAlpha <==> AlphaFlag(c.data[4])) && (seen.vp8 || seen.image == Some(ImageSize(c)))
  }

  function Note(seen: Seen, c: Chunk): Seen
    requires ChunkOk(c)
  {
    match c.kind
    case VP8X => seen.(extended := Some(Canvas(c.data)))
    case ALPH => seen.(alpha := true)
    case VP8 => seen.(vp8 := true, image := Some(ImageSize(c)))
    case VP8L => seen.(vp8l := true, vp8lAlpha := AlphaFlag(c.data[4]), image := Some(ImageSize(c)))
  }

  lemma HasOneMore(cs: seq<Chunk>, c: Chunk, k: Kind)
    ensures Has(cs + [c], k) <==> Has(cs, k) || c.kind == k
  {
    assert (cs + [c])[|cs|] == c;
    if Has(cs, k) {
      var i :| 0 <= i < |cs| && cs[i].kind == k;
      assert (cs + [c])[i].kind == k;
    }
  }

  lemma TracksOneMore(cs: seq<Chunk>, seen: Seen, c: Chunk)
    requires Tracks(cs, seen) && ChunkOk(c) && !Has(cs, c.kind)
    ensures Tracks(cs + [c], Note(seen, c))
  {
    forall k: Kind ensures Has(cs + [c], k) <==> Has(cs, k) || c.kind == k {
      HasOneMore(cs, c, k);
    }
    var all, seen' := cs + [c], Note(seen, c);
    forall i | 0 <= i < |all| ensures ChunkOk(all[i]) && Remembers(seen', all[i]) {
      assert i < |cs| ==> all[i] == cs[i] && Remembers(seen, cs[i]) && cs[i].kind != c.kind;
    }
  }

  /** A chunk that is malformed or repeats a kind spoils every file that goes on from there. */
  lemma SpoiledForGood(cs: seq<Chunk>, c: Chunk, rest: seq<Chunk>)
    requires Admissible(cs + [c] + rest)
    ensures ChunkOk(c) && !Has(cs, c.kind)
  {
    var all := cs + [c] + rest;
    assert all[|cs|] == c;
    forall i | 0 <= i < |cs| ensures cs[i].kind != c.kind {
      assert all[i] == cs[i];
    }
  }

  /** The checks after the loop. */
  predicate Passes(bytes: seq<Byte>, seen: Seen) {
    && seen.vp8 != seen.vp8l && seen.image.Some?
    && (var size := seen.extended.GetOr(seen.image.value); size.0 > 0 && size.1 > 0)
    && (seen.extended.Some? ==> seen.extended == seen.image && (FlagByte(bytes) <==> seen.alpha || seen.vp8lAlpha))
  }

  lemma ImageRemembered(cs: seq<Chunk>, seen: Seen, k: Kind) returns (i: nat)
    requires Tracks(cs, seen) && Has(cs, k)
    ensures i < |cs| && cs[i].kind == k && Remembers(seen, cs[i])
  {
    i :| i < |cs| && cs[i].kind == k;
  }

  lemma TransparentRemembered(cs: seq<Chunk>, seen: Seen)
    requires Tracks(cs, seen)
    ensures Transparent(cs) <==> seen.alpha || seen.vp8lAlpha
  {
    if seen.vp8lAlpha {
      var i := ImageRemembered(cs, seen, VP8L);
    }
    if Transparent(cs) && !Has(cs, ALPH) {
      var i :| 0 <= i < |cs| && cs[i].kind.VP8L? && |cs[i].data| >= 5 && AlphaFlag(cs[i].data[4]);
      assert Remembers(seen, cs[i]);
    }
  }

  lemma PassedDescribes(bytes: seq<Byte>, cs: seq<Chunk>, seen: Seen)
    requires Tracks(cs, seen) && Passes(bytes, seen)
    ensures Describes(bytes, cs, seen.image.value)
  {
    TransparentRemembered(cs, seen);
    forall i | 0 <= i < |cs|
      ensures IsImage(cs[i]) ==> ImageSize(cs[i]) == seen.image.value
      ensures cs[i].kind.VP8X? ==> Canvas(cs[i].data) == seen.image.value
    {
      assert Remembers(seen, cs[i]);
    }
  }

  lemma DescribedPasses(bytes: seq<Byte>, cs: seq<Chunk>, seen: Seen, size: (nat, nat))
    requires Tracks(cs, seen) && Describes(bytes, cs, size)
    ensures Passes(bytes, seen) && seen.image == Some(size)
  {
    TransparentRemembered(cs, seen);
    var i := ImageRemembered(cs, seen, if seen.vp8 then VP8 else VP8L);
    if seen.extended.Some? {
      var j := ImageRemembered(cs, seen, VP8X);
    }
  }

  lemma ParseSplit(b: seq<Byte>)
    requires StartsChunk(b)
    ensures ParseBody(b) == Before([FirstChunk(b)], ParseBody(b[Span(b)..]))
  {
  }

  lemma BeforeTwice(cs: seq<Chunk>, c: Chunk, rest: Option<seq<Chunk>>)
    ensures Before(cs, Before([c], rest)) == Before(cs + [c], rest)
  {
    if rest.Some? {
      assert cs + ([c] + rest.value) == cs + [c] + rest.value;
    }
  }

  /** Up to `offset` the file is tiled by `cs`. */
  ghost predicate ReadTo(bytes: seq<Byte>, cs: seq<Chunk>, offset: nat) {
    12 <= offset <= |bytes| && ParseBody(bytes[12..]) == Before(cs, ParseBody(bytes[offset..]))
  }

  ghost predicate NextIs(bytes: seq<Byte>, offset: nat, c: Chunk, next: nat) {
    offset < next <= |bytes| && StartsChunk(bytes[offset..]) && c == FirstChunk(bytes[offset..])
      && next == offset + Span(bytes[offset..])
  }

  lemma ReadOn(bytes: seq<Byte>, cs: seq<Chunk>, offset: nat, c: Chunk, next: nat)
    requires ReadTo(bytes, cs, offset) && NextIs(bytes, offset, c, next)
    ensures ReadTo(bytes, cs + [c], next)
  {
    var b := bytes[offset..];
    ParseSplit(b);
    assert b[Span(b)..] == bytes[next..];
    BeforeTwice(cs, c, ParseBody(bytes[next..]));
  }

  /** No list of chunks makes the file acceptable. */
  ghost predicate Hopeless(bytes: seq<Byte>) {
    forall cs, size :: !(Tiles(bytes, cs) && Describes(bytes, cs, size))
  }

  lemma HopelessFrom(bytes: seq<Byte>, cs: seq<Chunk>, c: Chunk, offset: nat)
    requires ReadTo(bytes, cs + [c], offset)
    requires !ChunkOk(c) || Has(cs, c.kind)
    ensures Hopeless(bytes)
  {
    forall all, size ensures !(Tiles(bytes, all) && Describes(bytes, all, size)) {
      TilesIffParses(bytes, all);
      var rest := ParseBody(bytes[offset..]);
      if rest.Some? && Admissible(cs + [c] + rest.value) {
        SpoiledForGood(cs, c, rest.value);
      }
    }
  }

  lemma HopelessUnparsed(bytes: seq<Byte>)
    requires !HeaderOk(bytes) || ParseBody(bytes[12..]).None?
    ensures Hopeless(bytes)
  {
    forall cs, size ensures !(Tiles(bytes, cs) && Describes(bytes, cs, size)) {
      TilesIffParses(bytes, cs);
    }
  }

  lemma HopelessStuck(bytes: seq<Byte>, cs: seq<Chunk>, offset: nat)
    requires ReadTo(bytes, cs, offset) && offset < |bytes| && !StartsChunk(bytes[offset..])
    ensures Hopeless(bytes)
  {
    HopelessUnparsed(bytes);
  }

  lemma TiledLength(bytes: seq<Byte>, cs: seq<Chunk>)
    requires Tiles(bytes, cs) && cs != []
    ensures |bytes| >= 20
  {
    assert |Encode(cs[0])| >= 8;
  }

  lemma HopelessIfShort(bytes: seq<Byte>)
    requires |bytes| < 20
    ensures Hopeless(bytes)
  {
    forall cs, size ensures !(Tiles(bytes, cs) && Describes(bytes, cs, size)) {
      if Tiles(bytes, cs) && cs != [] {
        TiledLength(bytes, cs);
      }
    }
  }

  lemma BeforeNothing(b: seq<Byte>, cs: seq<Chunk>)
    ensures ParseBody(b) == Before([], ParseBody(b)) && Before(cs, ParseBody([])) == Some(cs)
  {
    assert cs + [] == cs;
    if ParseBody(b).Some? {
      assert [] + ParseBody(b).value == ParseBody(b).value;
    }
  }

  /** One turn of the loop up to the end of the chunk: header, size, data and padding. */
  method ReadChunk(bytes: seq<Byte>, offset: nat) returns (r: Option<(Chunk, nat)>)
    requires offset < |bytes|
    ensures r.None? ==> !StartsChunk(bytes[offset..])
    ensures r.Some? ==> NextIs(bytes, offset, r.value.0, r.value.1)
  {
    ghost var b := bytes[offset..];
    if offset + 8 > |bytes| {
      return None;
    }
    var kind := KindOf(bytes[offset..offset + 4]);
    assert bytes[offset..offset + 4] == b[..4] && bytes[offset + 4..offset + 8] == b[4..8];
    var size := FromLe32(bytes[offset + 4..offset + 8]);
    var end := offset + 8 + size;
    if end > |bytes| || kind.None? || (size % 2 == 1 && (end >= |bytes| || bytes[end] != 0)) {
      return None;
    }
    assert bytes[offset + 8..end] == b[8..8 + size];
    r := Some((Chunk(kind.value, bytes[offset + 8..end]), end + size % 2));
  }

  predicate Repeats(seen: Seen, k: Kind) {
    match k case VP8X => seen.extended.Some? case ALPH => seen.alpha case VP8 => seen.vp8 case VP8L => seen.vp8l
  }

  lemma RepeatsIff(cs: seq<Chunk>, seen: Seen, k: Kind)
    requires Tracks(cs, seen)
    ensures Repeats(seen, k) <==> Has(cs, k)
  {
  }

  lemma ReadToEnd(bytes: seq<Byte>, cs: seq<Chunk>)
    requires HeaderOk(bytes) && ReadTo(bytes, cs, |bytes|)
    ensures Tiles(bytes, cs)
  {
    BeforeNothing(bytes[12..], cs);
    assert bytes[|bytes|..] == [];
    TilesIffParses(bytes, cs);
  }

  lemma OneTiling(bytes: seq<Byte>, cs: seq<Chunk>, cs': seq<Chunk>)
    requires Tiles(bytes, cs) && Tiles(bytes, cs')
    ensures cs == cs'
  {
    TilesIffParses(bytes, cs);
    TilesIffParses(bytes, cs');
  }

  /** The loop over the chunks. */
  method ReadChunks(bytes: seq<Byte>) returns (r: Option<Seen>, ghost cs: seq<Chunk>)
    requires HeaderOk(bytes)
    ensures r.Some? ==> Tiles(bytes, cs) && Tracks(cs, r.value)
    ensures r.None? ==> Hopeless(bytes)
  {
    var offset: nat := 12;
    var seen := Seen(None, None, false, false, false, false);
    r, cs := None, [];
    BeforeNothing(bytes[12..], []);
    while offset < |bytes|
      invariant ReadTo(bytes, cs, offset) && Tracks(cs, seen)
    {
      var read := ReadChunk(bytes, offset);
      if read.None? {
        HopelessStuck(bytes, cs, offset);
        return None, cs;
      }
      var (c, next) := read.value;
      ReadOn(bytes, cs, offset, c, next);
      RepeatsIff(cs, seen, c.kind);
      if Repeats(seen, c.kind) || !ChunkOk(c) {
        HopelessFrom(bytes, cs, c, next);
        return None, cs;
      }
      TracksOneMore(cs, seen, c);
      cs, seen, offset := cs + [c], Note(seen, c), next;
    }
    ReadToEnd(bytes, cs);
    r := Some(seen);
  }

  /** `validate_metadata_free_webp` accepts exactly the files within the size limit that are a RIFF header followed,
      without gap or remainder, by an acceptable list of chunks, and answers the size of their one image. */
  method ValidateMetadataFreeWebp(bytes: seq<Byte>, maxBytes: nat)
      returns (r: Result<(nat, nat), ()>, ghost cs: seq<Chunk>)
    ensures r.Ok? ==> |bytes| <= maxBytes && Tiles(bytes, cs) && Describes(bytes, cs, r.value)
    ensures r.Err? ==> |bytes| > maxBytes || Hopeless(bytes)
  {
    r, cs := Err(()), [];
    if |bytes| < 20 || |bytes| > maxBytes || bytes[..4] != RIFF || bytes[8..12] != WEBP
      || FromLe32(bytes[4..8]) + 8 != |bytes| {
      if |bytes| < 20 {
        HopelessIfShort(bytes);
      } else if |bytes| <= maxBytes {
        HopelessUnparsed(bytes);
      }
      return;
    }
    var seen;
    seen, cs := ReadChunks(bytes);
    if seen.None? {
      return;
    }
    if Passes(bytes, seen.value) {
      PassedDescribes(bytes, cs, seen.value);
      r := Ok(seen.value.image.value);
    } else {
      forall cs', size ensures !(Tiles(bytes, cs') && Describes(bytes, cs', size)) {
        if Tiles(bytes, cs') && Describes(bytes, cs', size) {
          OneTiling(bytes, cs, cs');
          DescribedPasses(bytes, cs, seen.value, size);
        }
      }
    }
  }

  /** An accepted file has one image chunk, at most one VP8X and one ALPH chunk, nothing else, and a size in
    * 1..16384. */
  lemma AcceptedShape(bytes: seq<Byte>, cs: seq<Chunk>, size: (nat, nat)) returns (image: nat)
    requires Describes(bytes, cs, size)
    ensures image < |cs| <= 3 && IsImage(cs[image]) && ImageSize(cs[image]) == size
    ensures forall i :: 0 <= i < |cs| && i != image ==> !IsImage(cs[i])
    ensures 1 <= size.0 <= 16384 && 1 <= size.1 <= 16384
  {
    var k := if Has(cs, VP8) then VP8 else VP8L;
    assert Has(cs, k);
    image :| image < |cs| && cs[image].kind == k;
    FourKinds(cs);
  }

  lemma FourKinds(cs: seq<Chunk>)
    requires Admissible(cs)
    ensures |cs| > 3 ==> Has(cs, VP8) && Has(cs, VP8L)
  {
    if |cs| > 3 {
      assert cs[0].kind != cs[1].kind && cs[0].kind != cs[2].kind && cs[0].kind != cs[3].kind;
      assert cs[1].kind != cs[2].kind && cs[1].kind != cs[3].kind && cs[2].kind != cs[3].kind;
    }
  }

  // ----- the transparency flag

  /** A VP8X chunk that says what the file holds. */
  ghost predicate FlagTells(cs: seq<Chunk>, i: nat)
    requires i < |cs| && cs[i].kind.VP8X? && |cs[i].data| >= 10
  {
    AlphaFlag(cs[i].data[0]) <==> Transparent(cs)
  }

  lemma BodyAt(bytes: seq<Byte>, cs: seq<Chunk>, k: nat)
    requires Tiles(bytes, cs) && k < |Body(cs)|
    ensures 12 + k < |bytes| && bytes[12 + k] == Body(cs)[k]
  {
  }

  lemma FirstDataByte(cs: seq<Chunk>)
    requires cs != [] && |cs[0].data| > 0 && forall i :: 0 <= i < |cs| ==> Fits(cs[i])
    ensures |Body(cs)| > 8 && Body(cs)[8] == cs[0].data[0]
  {
    assert Encode(cs[0])[8] == cs[0].data[0];
  }

  lemma FirstFlag(bytes: seq<Byte>, cs: seq<Chunk>)
    requires Tiles(bytes, cs) && cs != [] && |cs[0].data| > 0
    ensures |bytes| > 20 && bytes[20] == cs[0].data[0]
  {
    FirstDataByte(cs);
    BodyAt(bytes, cs, 8);
  }

  /** The flag of an accepted file's VP8X chunk is right when that chunk comes first, as the format demands. Anywhere
      else it is right exactly when it happens to agree with byte 20, which then belongs to another chunk. */
  lemma FlagToldIff(bytes: seq<Byte>, cs: seq<Chunk>, size: (nat, nat), i: nat)
    requires Tiles(bytes, cs) && Describes(bytes, cs, size) && i < |cs| && cs[i].kind.VP8X?
    ensures FlagTells(cs, i) <==> i == 0 || (FlagByte(bytes) <==> AlphaFlag(cs[i].data[0]))
  {
    assert Has(cs, VP8X);
    if i == 0 {
      FirstFlag(bytes, cs);
    }
  }

  function FlipBit(b: Byte): Byte {
    if AlphaFlag(b) then b - 16 else b + 16
  }

  lemma Mod16(q: nat, r: nat)
    requires r < 16
    ensures (16 * q + r) % 16 == r
  {
  }

  lemma Mod32(q: nat, r: nat)
    requires r < 32
    ensures (32 * q + r) % 32 == r
  {
  }

  lemma Mod64(q: nat, r: nat)
    requires r < 64
    ensures (64 * q + r) % 64 == r
  {
  }

  lemma Add16(b: nat)
    requires b % 32 < 16
    ensures (b + 16) % 16 == b % 16 && (b + 16) % 32 >= 16
  {
    var q, r := b / 32, b % 32;
    Mod16(2 * q, r);
    Mod16(2 * q + 1, r);
    Mod32(q, r + 16);
  }

  lemma Add16Keeps32(b: nat)
    requires b % 32 < 16
    ensures (b + 16) % 64 >= 32 <==> b % 64 >= 32
  {
    var q, r := b / 64, b % 64;
    if r >= 32 {
      Mod32(2 * q + 1, r - 32);
    } else {
      Mod32(2 * q, r);
    }
    Mod64(q, r + 16);
  }

  lemma Sub16(b: nat)
    requires b % 32 >= 16
    ensures b >= 16 && (b - 16) % 32 < 16
  {
    Mod32(b / 32, b % 32 - 16);
  }

  lemma FlipBitKeeps(b: Byte)
    ensures (MetadataFlags(FlipBit(b)) <==> MetadataFlags(b)) && (AlphaFlag(FlipBit(b)) <==> !AlphaFlag(b))
  {
    if AlphaFlag(b) {
      Sub16(b);
    }
    var low := if AlphaFlag(b) then b - 16 else b;
    Add16(low);
    Add16Keeps32(low);
  }

  function FlipFlag(c: Chunk): Chunk
    requires c.kind.VP8X? && |c.data| >= 10
  {
    c.(data := c.data[0 := FlipBit(c.data[0])])
  }

  lemma FlipKeepsChunk(c: Chunk)
    requires c.kind.VP8X? && |c.data| >= 10
    ensures FlipFlag(c).kind.VP8X? && |FlipFlag(c).data| == |c.data| && Canvas(FlipFlag(c).data) == Canvas(c.data)
    ensures (ChunkOk(FlipFlag(c)) <==> ChunkOk(c)) && (AlphaFlag(FlipFlag(c).data[0]) <==> !AlphaFlag(c.data[0]))
  {
    FlipBitKeeps(c.data[0]);
  }

  lemma TagLeads(cs: seq<Chunk>)
    requires cs != [] && forall i :: 0 <= i < |cs| ==> Fits(cs[i])
    ensures |Body(cs)| > 0 && Body(cs)[0] == Tag(cs[0].kind)[0]
  {
  }

  /** Byte 20 is fixed by the first chunk, or by the tag of the second if the first is empty. */
  lemma ByteTwenty(bytes: seq<Byte>, cs: seq<Chunk>)
    requires Tiles(bytes, cs) && |cs| > 1
    ensures |bytes| > 20 && bytes[20] == (if |cs[0].data| > 0 then cs[0].data[0] else Tag(cs[1].kind)[0])
  {
    if |cs[0].data| > 0 {
      FirstFlag(bytes, cs);
    } else {
      SecondTag(bytes, cs);
    }
  }

  lemma SecondTagByte(cs: seq<Chunk>)
    requires |cs| > 1 && cs[0].data == [] && forall i :: 0 <= i < |cs| ==> Fits(cs[i])
    ensures |Body(cs)| > 8 && Body(cs)[8] == Tag(cs[1].kind)[0]
  {
    TagLeads(cs[1..]);
    assert |Encode(cs[0])| == 8;
  }

  lemma SecondTag(bytes: seq<Byte>, cs: seq<Chunk>)
    requires Tiles(bytes, cs) && |cs| > 1 && cs[0].data == []
    ensures |bytes| > 20 && bytes[20] == Tag(cs[1].kind)[0]
  {
    SecondTagByte(cs);
    BodyAt(bytes, cs, 8);
  }

  lemma {:induction false} FlipKeepsLists(cs: seq<Chunk>, cs': seq<Chunk>, i: nat)
    requires i < |cs| && cs[i].kind.VP8X? && |cs[i].data| >= 10 && cs' == cs[i := FlipFlag(cs[i])]
    ensures Admissible(cs) ==> Admissible(cs')
    ensures forall k :: Has(cs, k) ==> Has(cs', k)
    ensures Transparent(cs) ==> Transparent(cs')
  {
    FlipKeepsChunk(cs[i]);
    forall k | Has(cs, k) ensures Has(cs', k) {
      var j :| 0 <= j < |cs| && cs[j].kind == k;
      assert cs'[j].kind == k;
    }
    if Transparent(cs) && !Has(cs, ALPH) {
      var j :| 0 <= j < |cs| && cs[j].kind.VP8L? && |cs[j].data| >= 5 && AlphaFlag(cs[j].data[4]);
      assert cs'[j] == cs[j];
    }
  }

  lemma FlipTwice(c: Chunk)
    requires c.kind.VP8X? && |c.data| >= 10
    ensures FlipFlag(FlipFlag(c)) == c
  {
    FlipBitKeeps(c.data[0]);
    assert FlipFlag(FlipFlag(c)).data == c.data;
  }

  lemma FlipKeepsDescribes(bytes: seq<Byte>, bytes': seq<Byte>, cs: seq<Chunk>, cs': seq<Chunk>, size: (nat, nat),
      i: nat)
    requires 0 < i < |cs| && cs[i].kind.VP8X? && |cs[i].data| >= 10 && cs' == cs[i := FlipFlag(cs[i])]
    requires Tiles(bytes, cs) && Tiles(bytes', cs') && Describes(bytes, cs, size)
    ensures Describes(bytes', cs', size)
  {
    FlipTwice(cs[i]);
    FlipKeepsChunk(cs[i]);
    FlipKeepsLists(cs, cs', i);
    assert cs'[i := FlipFlag(cs'[i])] == cs;
    FlipKeepsLists(cs', cs, i);
    ByteTwenty(bytes, cs);
    ByteTwenty(bytes', cs');
    assert forall j :: 0 <= j < |cs| && j != i ==> cs'[j] == cs[j];
  }

  /** In any later position the validator does not look at the flag at all: flipping it never changes the verdict, so
      of two such files exactly one carries the wrong flag. */
  lemma LateFlagIsIgnored(bytes: seq<Byte>, bytes': seq<Byte>, cs: seq<Chunk>, cs': seq<Chunk>, size: (nat, nat),
      i: nat)
    requires 0 < i < |cs| && cs[i].kind.VP8X? && |cs[i].data| >= 10 && cs' == cs[i := FlipFlag(cs[i])]
    requires Tiles(bytes, cs) && Tiles(bytes', cs')
    ensures Describes(bytes, cs, size) <==> Describes(bytes', cs', size)
    ensures FlagTells(cs, i) <==> !FlagTells(cs', i)
  {
    FlipTwice(cs[i]);
    FlipKeepsChunk(cs[i]);
    assert cs'[i := FlipFlag(cs'[i])] == cs;
    FlipKeepsLists(cs, cs', i);
    FlipKeepsLists(cs', cs, i);
    if Describes(bytes, cs, size) {
      FlipKeepsDescribes(bytes, bytes', cs, cs', size, i);
    }
    if Describes(bytes', cs', size) {
      FlipKeepsDescribes(bytes', bytes, cs', cs, size, i);
    }
  }

  const OpaquePixel := Chunk(VP8L, [0x2F, 0, 0, 0, 0])
  const AlphaCanvas := Chunk(VP8X, [0x10, 0, 0, 0, 0, 0, 0, 0, 0, 0])

  lemma TwoChunks() returns (bytes: seq<Byte>)
    ensures Tiles(bytes, [OpaquePixel, AlphaCanvas]) && |bytes| > 20 && bytes[20] == 0x2F
  {
    var cs := [OpaquePixel, AlphaCanvas];
    assert cs[1..] == [AlphaCanvas];
    assert |Body([AlphaCanvas])| == 18 by {
      assert [AlphaCanvas][1..] == [];
    }
    bytes := RIFF + Le32(|Body(cs)| + 4) + WEBP + Body(cs);
    FirstFlag(bytes, cs);
  }

  lemma PixelAndCanvas(bytes: seq<Byte>, cs: seq<Chunk>)
    requires |bytes| > 20 && bytes[20] == 0x2F && |cs| == 2 && cs[0] == OpaquePixel && cs[1] == AlphaCanvas
    ensures Describes(bytes, cs, (1, 1)) && !Transparent(cs)
  {
    assert !Has(cs, ALPH) && !Has(cs, VP8);
    assert ImageSize(OpaquePixel) == (1, 1) && Canvas(AlphaCanvas.data) == (1, 1);
    assert !AlphaFlag(0x2F) && !AlphaFlag(0) && !MetadataFlags(0x10);
  }

  /** For example: a one-pixel opaque VP8L image followed by a VP8X chunk that announces transparency. */
  lemma WrongFlagAccepted() returns (bytes: seq<Byte>, cs: seq<Chunk>)
    ensures Tiles(bytes, cs) && Describes(bytes, cs, (1, 1)) && |cs| == 2
      && cs[1].kind.VP8X? && |cs[1].data| >= 10 && !FlagTells(cs, 1)
  {
    bytes := TwoChunks();
    cs := [OpaquePixel, AlphaCanvas];
    PixelAndCanvas(bytes, cs);
    assert AlphaFlag(0x10);
  }
}
