/**
  The artifact upload and download validators: chunks must tile a declared range exactly. A chunk
  that overruns the range is rejected but still moves the offset, after which no call can succeed.

  The field checks of a begin frame, a header or a failure are not modelled; `fields` is their
  verdict. Offsets are 64-bit, and every addition is checked.
*/
module ArtifactStream {
  import opened Wrappers

  type Id = nat
  type Byte = b: int | 0 <= b < 256

  const MAX_ARTIFACT_BYTES: nat := 64 * 1024 * 1024
  const MAX_ARTIFACT_CHUNK_BYTES: nat := 64 * 1024
  const U64_LIMIT: nat := 0x1_0000_0000_0000_0000

  datatype ValidationError = MalformedRequest | InvalidIdentity | InvalidBound | RequestTooLarge | OtherField

  datatype Chunk = Chunk(artifact: Id, idValid: bool, offset: nat, content: seq<Byte>)

  function CheckedAdd(a: nat, b: nat): Option<nat> {
    if a + b < U64_LIMIT then Some(a + b) else None
  }

  /** A chunk is well formed exactly when it is identified, not too far, not empty and not too long. */
  function ValidateChunk(c: Chunk): (error: Option<ValidationError>)
    ensures error.None? <==>
            c.idValid && c.offset <= MAX_ARTIFACT_BYTES && 0 < |c.content| <= MAX_ARTIFACT_CHUNK_BYTES
    ensures error.Some? ==> error.value == if c.idValid then InvalidBound else InvalidIdentity
  {
    if !c.idValid then Some(InvalidIdentity)
    else if c.offset > MAX_ARTIFACT_BYTES then Some(InvalidBound)
    else if c.content == [] || |c.content| > MAX_ARTIFACT_CHUNK_BYTES then Some(InvalidBound)
    else None
  }

  // ---------------------------------------------------------------------------------------------
  // Tilings
  // ---------------------------------------------------------------------------------------------

  function Assembled(chunks: seq<Chunk>): seq<Byte> {
    if chunks == [] then [] else Assembled(chunks[..|chunks| - 1]) + chunks[|chunks| - 1].content
  }

  /** The chunks lie end to end from `start`, without gap or overlap. */
  predicate Tiles(chunks: seq<Chunk>, start: nat) {
    forall k :: 0 <= k < |chunks| ==> chunks[k].offset == start + |Assembled(chunks[..k])|
  }

  lemma TilesExtends(chunks: seq<Chunk>, start: nat, c: Chunk)
    requires Tiles(chunks, start) && c.offset == start + |Assembled(chunks)|
    ensures Tiles(chunks + [c], start)
    ensures Assembled(chunks + [c]) == Assembled(chunks) + c.content
  {
    var more := chunks + [c];
    assert more[..|chunks|] == chunks;
    forall k | 0 <= k < |more| ensures more[k].offset == start + |Assembled(more[..k])| {
      if k < |chunks| {
        assert more[..k] == chunks[..k];
      }
    }
  }

  lemma {:induction false} AssembledPrefix(chunks: seq<Chunk>, k: nat)
    requires k <= |chunks|
    ensures Assembled(chunks[..k]) <= Assembled(chunks)
  {
    if k < |chunks| {
      var init := chunks[..|chunks| - 1];
      AssembledPrefix(init, k);
      assert init[..k] == chunks[..k];
    } else {
      assert chunks[..k] == chunks;
    }
  }

  /** In a tiling every chunk's bytes are found at its own offset. */
  lemma EachChunkInPlace(chunks: seq<Chunk>, start: nat, k: nat)
    requires Tiles(chunks, start) && k < |chunks|
    ensures var at := chunks[k].offset - start;
            && 0 <= at && at + |chunks[k].content| <= |Assembled(chunks)|
            && Assembled(chunks)[at..at + |chunks[k].content|] == chunks[k].content
  {
    AssembledPrefix(chunks, k + 1);
    assert chunks[..k + 1][..k] == chunks[..k];
    Middle(Assembled(chunks[..k]), chunks[k].content, Assembled(chunks));
  }

  lemma Middle(a: seq<Byte>, b: seq<Byte>, whole: seq<Byte>)
    requires a + b <= whole
    ensures |a| + |b| <= |whole| && whole[|a|..|a| + |b|] == b
  {
    assert whole[..|a + b|] == a + b;
    assert (a + b)[|a|..] == b;
    assert whole[|a|..|a| + |b|] == whole[..|a + b|][|a|..];
  }

  /** What makes a chunk the next tile of `[start, end)`. */
  predicate NextTile(chunks: seq<Chunk>, start: nat, end: nat, artifact: Option<Id>, c: Chunk) {
    && artifact == Some(c.artifact) && ValidateChunk(c).None?
    && c.offset == start + |Assembled(chunks)| && c.offset + |c.content| <= end
  }

  /** A well-formed chunk in the right place that reaches past the end. */
  predicate Overruns(chunks: seq<Chunk>, start: nat, end: nat, artifact: Option<Id>, c: Chunk) {
    && artifact == Some(c.artifact) && ValidateChunk(c).None?
    && c.offset == start + |Assembled(chunks)| && c.offset + |c.content| > end
  }

  /**
    The offset a validator keeps: the end of the tiling so far or, once a chunk has overrun the
    range, some offset past the end.
  */
  ghost predicate Tracks(chunks: seq<Chunk>, start: nat, end: nat, next: nat, overrun: bool) {
    && Tiles(chunks, start)
    && end <= MAX_ARTIFACT_BYTES
    && (!overrun ==> next == start + |Assembled(chunks)| <= end)
    && (overrun ==> end < next <= MAX_ARTIFACT_BYTES + MAX_ARTIFACT_CHUNK_BYTES)
  }

  /** A well-formed chunk at the kept offset: either it is the next tile, or the range is overrun. */
  lemma TracksChunk(chunks: seq<Chunk>, start: nat, end: nat, next: nat, overrun: bool, c: Chunk)
    requires Tracks(chunks, start, end, next, overrun) && ValidateChunk(c).None? && c.offset == next
    ensures var after := next + |c.content|;
            && CheckedAdd(next, |c.content|) == Some(after)
            && (after > end ==> Tracks(chunks, start, end, after, true))
            && (after <= end ==> !overrun && Tracks(chunks + [c], start, end, after, false))
  {
    if next + |c.content| <= end {
      TilesExtends(chunks, start, c);
    }
  }

  /** The kept offset decides what the accepted chunks decide. */
  lemma OffsetDecides(chunks: seq<Chunk>, start: nat, end: nat, next: nat, overrun: bool,
                      artifact: Option<Id>, c: Chunk)
    requires Tracks(chunks, start, end, next, overrun)
    ensures !overrun && NextTile(chunks, start, end, artifact, c) <==>
            artifact == Some(c.artifact) && ValidateChunk(c).None? && c.offset == next && next + |c.content| <= end
    ensures !overrun ==>
            (Overruns(chunks, start, end, artifact, c) <==>
             artifact == Some(c.artifact) && ValidateChunk(c).None? && c.offset == next && next + |c.content| > end)
  {
  }

  /** Every way to cut a range into non-empty chunks within bounds is accepted, chunk by chunk. */
  lemma EverySplitIsAccepted(chunks: seq<Chunk>, start: nat, end: nat, artifact: Id, k: nat)
    requires Tiles(chunks, start) && start + |Assembled(chunks)| == end <= MAX_ARTIFACT_BYTES
    requires forall i :: 0 <= i < |chunks| ==>
      chunks[i].artifact == artifact && chunks[i].idValid && 0 < |chunks[i].content| <= MAX_ARTIFACT_CHUNK_BYTES
    requires k < |chunks|
    ensures NextTile(chunks[..k], start, end, Some(artifact), chunks[k])
  {
    EachChunkInPlace(chunks, start, k);
  }

  // ---------------------------------------------------------------------------------------------
  // Upload
  // ---------------------------------------------------------------------------------------------

  datatype WriteFrame =
    | Begin(artifact: Id, declaredSize: nat, early: Option<ValidationError>, late: Option<ValidationError>)
    | WriteChunk(chunk: Chunk)

  function ValidateBegin(f: WriteFrame): (error: Option<ValidationError>)
    requires f.Begin?
    ensures error.None? <==> f.early.None? && f.declaredSize <= MAX_ARTIFACT_BYTES && f.late.None?
  {
    if f.early.Some? then f.early else if f.declaredSize > MAX_ARTIFACT_BYTES then Some(InvalidBound) else f.late
  }

  /**
    One chunk of a stream that is not `stopped`: it is accepted, and recorded, exactly when nothing
    has overrun and it is the next tile; a chunk that reaches past the end overruns the stream for
    good. A malformed chunk is refused for its defect, an overrunning one for its bound, and any
    other for its identity.
  */
  ghost predicate ChunkRule(
    chunks: seq<Chunk>, overrun: bool, stopped: bool, start: nat, end: nat, artifact: Option<Id>, c: Chunk,
    error: Option<ValidationError>, chunks': seq<Chunk>, overrun': bool)
  {
    var tile := NextTile(chunks, start, end, artifact, c);
    var beyond := Overruns(chunks, start, end, artifact, c);
    && (error.None? <==> !stopped && !overrun && tile)
    && chunks' == (if error.None? then chunks + [c] else chunks)
    && overrun' == (overrun || (!stopped && beyond))
    && (ValidateChunk(c).Some? ==> error == ValidateChunk(c))
    && (ValidateChunk(c).None? && (stopped || (!overrun && !tile && !beyond)) ==> error == Some(InvalidIdentity))
    && (!stopped && !overrun && beyond ==> error == Some(InvalidBound))
  }

  lemma RefusedChunk(chunks: seq<Chunk>, overrun: bool, stopped: bool, start: nat, end: nat, next: nat,
                     artifact: Option<Id>, c: Chunk, e: ValidationError)
    requires Tracks(chunks, start, end, next, overrun)
    requires ValidateChunk(c).Some? || stopped || artifact != Some(c.artifact) || c.offset != next
    requires e == if ValidateChunk(c).Some? then ValidateChunk(c).value else InvalidIdentity
    ensures ChunkRule(chunks, overrun, stopped, start, end, artifact, c, Some(e), chunks, overrun)
  {
    OffsetDecides(chunks, start, end, next, overrun, artifact, c);
  }

  lemma PlacedChunk(chunks: seq<Chunk>, overrun: bool, start: nat, end: nat, next: nat, artifact: Option<Id>, c: Chunk)
    requires Tracks(chunks, start, end, next, overrun) && ValidateChunk(c).None?
    requires artifact == Some(c.artifact) && c.offset == next
    ensures next + |c.content| > end ==>
              ChunkRule(chunks, overrun, false, start, end, artifact, c, Some(InvalidBound), chunks, true)
    ensures next + |c.content| <= end ==>
              ChunkRule(chunks, overrun, false, start, end, artifact, c, None, chunks + [c], overrun)
  {
    OffsetDecides(chunks, start, end, next, overrun, artifact, c);
  }

  /** A complete tiling has no next tile. */
  lemma CompleteHasNoTile(chunks: seq<Chunk>, start: nat, end: nat, next: nat, overrun: bool,
                          artifact: Option<Id>, c: Chunk)
    requires Tracks(chunks, start, end, next, overrun) && next == end
    ensures !NextTile(chunks, start, end, artifact, c)
  {
  }

  class ArtifactWriteStreamValidator {
    var artifactId: Option<Id>
    var nextOffset: nat
    var declaredSize: nat
    var complete: bool

    /** The accepted chunks, and whether a chunk has overrun the declared size. */
    ghost var chunks: seq<Chunk>
    ghost var overrun: bool

    ghost predicate Valid()
      reads this
    {
      && Tracks(chunks, 0, declaredSize, nextOffset, overrun)
      && (artifactId.None? ==> chunks == [] && nextOffset == 0 && !overrun && !complete)
      && (artifactId.Some? ==> (complete <==> nextOffset == declaredSize))
    }

    constructor ()
      ensures Valid() && artifactId.None?
    {
      artifactId, nextOffset, declaredSize, complete := None, 0, 0, false;
      chunks, overrun := [], false;
    }

    /**
      A chunk is accepted exactly when it is the next tile; after an overrun nothing is accepted
      and the overrun stays.
    */
    method Accept(frame: WriteFrame, tooLarge: bool) returns (error: Option<ValidationError>)
      requires Valid()
      modifies this
      ensures Valid()
      ensures tooLarge ==> error == Some(RequestTooLarge)
      ensures !tooLarge && frame.Begin? ==>
        error == if old(artifactId).Some? then Some(MalformedRequest) else ValidateBegin(frame)
      ensures !tooLarge && frame.WriteChunk? ==>
        (error.None? <==> !old(overrun) && NextTile(old(chunks), 0, old(declaredSize), old(artifactId), frame.chunk))
      ensures frame.Begin? && error.None? ==> artifactId == Some(frame.artifact) && declaredSize == frame.declaredSize
      ensures !(frame.Begin? && error.None?) ==> artifactId == old(artifactId) && declaredSize == old(declaredSize)
      ensures chunks == if frame.WriteChunk? && error.None? then old(chunks) + [frame.chunk] else old(chunks)
      ensures overrun == (old(overrun) || (!tooLarge && frame.WriteChunk? && !old(complete)
                            && Overruns(old(chunks), 0, old(declaredSize), old(artifactId), frame.chunk)))
      ensures !tooLarge && frame.WriteChunk? && overrun && !old(overrun) ==> error == Some(InvalidBound)
    {
      if tooLarge {
        return Some(RequestTooLarge);
      }
      match frame {
        case Begin(artifact, size, _, _) =>
          if artifactId.Some? {
            return Some(MalformedRequest);
          }
          error := ValidateBegin(frame);
          if error.None? {
            artifactId, declaredSize, complete := Some(artifact), size, size == 0;
          }
        case WriteChunk(c) =>
          if complete {
            CompleteHasNoTile(chunks, 0, declaredSize, nextOffset, overrun, artifactId, c);
          }
          error := AcceptChunk(c);
      }
    }

    method AcceptChunk(c: Chunk) returns (error: Option<ValidationError>)
      requires Valid()
      modifies this`nextOffset, this`complete, this`chunks, this`overrun
      ensures Valid()
      ensures ChunkRule(old(chunks), old(overrun), old(complete), 0, declaredSize, artifactId, c, error,
                        chunks, overrun)
    {
      error := ValidateChunk(c);
      if error.Some? {
        RefusedChunk(chunks, overrun, complete, 0, declaredSize, nextOffset, artifactId, c, error.value);
        return;
      }
      if complete || artifactId != Some(c.artifact) || c.offset != nextOffset {
        RefusedChunk(chunks, overrun, complete, 0, declaredSize, nextOffset, artifactId, c, InvalidIdentity);
        return Some(InvalidIdentity);
      }
      error := Place(c);
    }

    /** A well-formed chunk at the kept offset. */
    method Place(c: Chunk) returns (error: Option<ValidationError>)
      requires Valid() && !complete && ValidateChunk(c).None?
      requires artifactId == Some(c.artifact) && c.offset == nextOffset
      modifies this`nextOffset, this`complete, this`chunks, this`overrun
      ensures Valid()
      ensures ChunkRule(old(chunks), old(overrun), false, 0, declaredSize, artifactId, c, error, chunks, overrun)
    {
      TracksChunk(chunks, 0, declaredSize, nextOffset, overrun, c);
      PlacedChunk(chunks, overrun, 0, declaredSize, nextOffset, artifactId, c);
      nextOffset := CheckedAdd(nextOffset, |c.content|).value;
      if nextOffset > declaredSize {
        overrun := true;
        return Some(InvalidBound);
      }
      chunks := chunks + [c];
      complete := nextOffset == declaredSize;
      error := None;
    }

    /** Success means that the accepted chunks are exactly the declared bytes, and conversely. */
    method Finish() returns (ok: bool)
      requires Valid()
      ensures ok <==> artifactId.Some? && !overrun && Tiles(chunks, 0) && |Assembled(chunks)| == declaredSize
    {
      ok := artifactId.Some? && complete;
    }
  }

  // ---------------------------------------------------------------------------------------------
  // Download
  // ---------------------------------------------------------------------------------------------

  datatype ReadFrame =
    | Header(artifact: Id, size: nat, rangeOffset: nat, rangeLength: nat, fields: Option<ValidationError>)
    | ReadChunk(chunk: Chunk)
    | ReadFailure(fields: Option<ValidationError>)

  /**
    A header is accepted exactly when its range lies within an artifact of bounded size; only an
    empty artifact has an empty range.
  */
  function ValidateHeader(f: ReadFrame): (error: Option<ValidationError>)
    requires f.Header?
    ensures error.None? <==>
            && f.fields.None? && f.rangeOffset + f.rangeLength <= f.size <= MAX_ARTIFACT_BYTES
            && (f.rangeLength == 0 ==> f.size == 0)
  {
    if f.fields.Some? then f.fields
    else if f.size > MAX_ARTIFACT_BYTES then Some(InvalidBound)
    else
      var end := CheckedAdd(f.rangeOffset, f.rangeLength);
      if (f.rangeLength == 0 && f.size != 0) || end.None? || end.value > f.size then Some(InvalidBound) else None
  }

  class ArtifactReadStreamValidator {
    var artifactId: Option<Id>
    var nextOffset: nat
    var endOffset: nat
    var failed: bool

    ghost var chunks: seq<Chunk>
    ghost var start: nat
    ghost var overrun: bool

    ghost predicate Valid()
      reads this
    {
      && Tracks(chunks, start, endOffset, nextOffset, overrun)
      && (artifactId.None? ==> chunks == [] && nextOffset == 0 && endOffset == 0 && !overrun)
    }

    constructor ()
      ensures Valid() && artifactId.None? && !failed
    {
      artifactId, nextOffset, endOffset, failed := None, 0, 0, false;
      chunks, start, overrun := [], 0, false;
    }

    method Accept(frame: ReadFrame, tooLarge: bool) returns (error: Option<ValidationError>)
      requires Valid()
      modifies this
      ensures Valid()
      ensures tooLarge ==> error == Some(RequestTooLarge)
      ensures !tooLarge && frame.Header? ==>
        error == if old(artifactId).Some? || old(failed) then Some(MalformedRequest) else ValidateHeader(frame)
      ensures !tooLarge && frame.ReadFailure? ==> error == if old(failed) then Some(MalformedRequest) else frame.fields
      ensures !tooLarge && frame.ReadChunk? ==>
        (error.None? <==>
           && !old(failed) && !old(overrun)
           && NextTile(old(chunks), old(start), old(endOffset), old(artifactId), frame.chunk))
      ensures frame.Header? && error.None? ==>
        && artifactId == Some(frame.artifact)
        && start == frame.rangeOffset && endOffset == frame.rangeOffset + frame.rangeLength
      ensures !(frame.Header? && error.None?) ==>
        artifactId == old(artifactId) && start == old(start) && endOffset == old(endOffset)
      ensures failed == (old(failed) || (frame.ReadFailure? && error.None?))
      ensures chunks == if frame.ReadChunk? && error.None? then old(chunks) + [frame.chunk] else old(chunks)
      ensures overrun == (old(overrun) || (!tooLarge && frame.ReadChunk? && !old(failed)
                            && Overruns(old(chunks), old(start), old(endOffset), old(artifactId), frame.chunk)))
    {
      if tooLarge {
        return Some(RequestTooLarge);
      }
      match frame {
        case Header(artifact, _, offset, length, _) =>
          if artifactId.Some? || failed {
            return Some(MalformedRequest);
          }
          error := ValidateHeader(frame);
          if error.None? {
            artifactId, nextOffset, endOffset := Some(artifact), offset, offset + length;
            start := offset;
          }
        case ReadFailure(fields) =>
          if failed {
            return Some(MalformedRequest);
          }
          error := fields;
          if error.None? {
            failed := true;
          }
        case ReadChunk(c) =>
          error := AcceptChunk(c);
      }
    }

    method AcceptChunk(c: Chunk) returns (error: Option<ValidationError>)
      requires Valid()
      modifies this`nextOffset, this`chunks, this`overrun
      ensures Valid()
      ensures ChunkRule(old(chunks), old(overrun), failed, start, endOffset, artifactId, c, error, chunks, overrun)
    {
      error := ValidateChunk(c);
      if error.Some? {
        RefusedChunk(chunks, overrun, failed, start, endOffset, nextOffset, artifactId, c, error.value);
        return;
      }
      if failed || artifactId != Some(c.artifact) || c.offset != nextOffset {
        RefusedChunk(chunks, overrun, failed, start, endOffset, nextOffset, artifactId, c, InvalidIdentity);
        return Some(InvalidIdentity);
      }
      error := Place(c);
    }

    /** A well-formed chunk at the kept offset. */
    method Place(c: Chunk) returns (error: Option<ValidationError>)
      requires Valid() && ValidateChunk(c).None? && artifactId == Some(c.artifact) && c.offset == nextOffset
      modifies this`nextOffset, this`chunks, this`overrun
      ensures Valid()
      ensures ChunkRule(old(chunks), old(overrun), false, start, endOffset, artifactId, c, error, chunks, overrun)
    {
      TracksChunk(chunks, start, endOffset, nextOffset, overrun, c);
      PlacedChunk(chunks, overrun, start, endOffset, nextOffset, artifactId, c);
      nextOffset := CheckedAdd(nextOffset, |c.content|).value;
      if nextOffset > endOffset {
        overrun := true;
        return Some(InvalidBound);
      }
      chunks := chunks + [c];
      error := None;
    }

    /** True exactly when the accepted chunks tile the whole range and nothing failed or overran. */
    method CompletedSuccessfully() returns (ok: bool)
      requires Valid()
      ensures ok <==>
        !failed && artifactId.Some? && !overrun && Tiles(chunks, start) && start + |Assembled(chunks)| == endOffset
    {
      ok := !failed && artifactId.Some? && nextOffset == endOffset;
    }

    method Finish() returns (ok: bool)
      requires Valid()
      ensures ok <==> failed || (artifactId.Some? && !overrun && start + |Assembled(chunks)| == endOffset)
    {
      var completed := CompletedSuccessfully();
      ok := failed || completed;
    }
  }
}
