/** Grouping source files into upload requests within a file-count and a raw-byte envelope. */
module UploadBatches {
  import opened Basics
  import opened Packing

  datatype SourceFile = SourceFile(path: string, byteSize: nat, sha256: string)

  datatype UploadError = SourceExceedsEnvelope

  function TotalBytes(batch: seq<SourceFile>): nat {
    if batch == [] then 0 else TotalBytes(batch[..|batch| - 1]) + batch[|batch| - 1].byteSize
  }

  function EnvelopeFits(maxFiles: int, maxBytes: int): seq<SourceFile> -> bool {
    batch => |batch| <= maxFiles && TotalBytes(batch) <= maxBytes
  }

  /** `batch_sources` as a function: refused when one source alone exceeds the byte envelope. */
  function BatchSources(sources: seq<SourceFile>, maxFiles: int, maxBytes: int):
    Result<seq<seq<SourceFile>>, UploadError> {
    if exists s | s in sources :: s.byteSize > maxBytes then Err(SourceExceedsEnvelope)
    else Ok(Greedy(EnvelopeFits(maxFiles, maxBytes), [], sources))
  }

  lemma {:induction false} TotalBytesPrefix(batch: seq<SourceFile>, j: nat)
    requires j <= |batch|
    ensures TotalBytes(batch[..j]) <= TotalBytes(batch)
  {
    if j == |batch| {
      assert batch[..j] == batch;
    } else {
      TotalBytesPrefix(batch[..|batch| - 1], j);
      assert batch[..|batch| - 1][..j] == batch[..j];
    }
  }

  lemma {:induction false} TotalBytesSuffix(batch: seq<SourceFile>, i: nat)
    requires i <= |batch|
    ensures TotalBytes(batch[i..]) <= TotalBytes(batch)
  {
    if i < |batch| {
      TotalBytesSuffix(batch[..|batch| - 1], i);
      assert batch[i..][..|batch[i..]| - 1] == batch[..|batch| - 1][i..];
    }
  }

  lemma EnvelopeSliceClosed(maxFiles: int, maxBytes: int)
    ensures SliceClosed(EnvelopeFits(maxFiles, maxBytes))
  {
    var fits := EnvelopeFits(maxFiles, maxBytes);
    forall s: seq<SourceFile>, i: int, j: int | 0 <= i <= j <= |s| && fits(s)
      ensures fits(s[i..j])
    {
      TotalBytesPrefix(s, j);
      TotalBytesSuffix(s[..j], i);
      assert s[..j][i..] == s[i..j];
    }
  }

  /** Every accepted grouping flattens to the sources in order, and every
      request is non-empty and within both limits. */
  lemma BatchSourcesPacks(sources: seq<SourceFile>, maxFiles: int, maxBytes: int)
    requires maxFiles >= 1
    requires BatchSources(sources, maxFiles, maxBytes).Ok?
    ensures Packs(EnvelopeFits(maxFiles, maxBytes), BatchSources(sources, maxFiles, maxBytes).value, sources)
  {
    forall x | x in sources
      ensures EnvelopeFits(maxFiles, maxBytes)([x])
    {
      assert x.byteSize <= maxBytes;
      assert TotalBytes([x]) == TotalBytes([x][..|[x]| - 1]) + x.byteSize;
    }
    GreedyPacks(EnvelopeFits(maxFiles, maxBytes), [], sources);
    assert [] + sources == sources;
  }

  /** No in-order grouping within the envelope uses fewer requests; one exists only when none is refused. */
  lemma BatchSourcesOptimal(sources: seq<SourceFile>, maxFiles: int, maxBytes: int, other: seq<seq<SourceFile>>)
    requires Packs(EnvelopeFits(maxFiles, maxBytes), other, sources)
    ensures BatchSources(sources, maxFiles, maxBytes).Ok?
    ensures |BatchSources(sources, maxFiles, maxBytes).value| <= |other|
  {
    EnvelopeSliceClosed(maxFiles, maxBytes);
    GreedyOptimal(EnvelopeFits(maxFiles, maxBytes), sources, other);
    forall s | s in sources
      ensures s.byteSize <= maxBytes
    {
      SingletonsFit(EnvelopeFits(maxFiles, maxBytes), other, sources, s);
      assert [s][..0] == [];
    }
  }

  ghost predicate OnCourse(sources: seq<SourceFile>, maxFiles: int, maxBytes: int, batches: seq<seq<SourceFile>>,
                           current: seq<SourceFile>, index: int)
    requires 0 <= index <= |sources|
  {
    batches + Greedy(EnvelopeFits(maxFiles, maxBytes), current, sources[index..])
    == Greedy(EnvelopeFits(maxFiles, maxBytes), [], sources)
  }

  lemma BatchStep(sources: seq<SourceFile>, maxFiles: int, maxBytes: int, batches: seq<seq<SourceFile>>,
                  current: seq<SourceFile>, index: int)
    requires 0 <= index < |sources|
    requires OnCourse(sources, maxFiles, maxBytes, batches, current, index)
    ensures if current != [] && !EnvelopeFits(maxFiles, maxBytes)(current + [sources[index]])
            then OnCourse(sources, maxFiles, maxBytes, batches + [current], [] + [sources[index]], index + 1)
            else OnCourse(sources, maxFiles, maxBytes, batches, current + [sources[index]], index + 1)
    ensures TotalBytes(current + [sources[index]]) == TotalBytes(current) + sources[index].byteSize
  {
    var fits := EnvelopeFits(maxFiles, maxBytes);
    var rest := sources[index..];
    assert rest[0] == sources[index] && rest[1..] == sources[index + 1..];
    assert (current + [sources[index]])[..|current|] == current;
    var tail := Greedy(fits, [sources[index]], rest[1..]);
    assert batches + ([current] + tail) == (batches + [current]) + tail;
    assert [] + [sources[index]] == [sources[index]];
  }

  /** The source's loop. */
  method BatchSourcesLoop(sources: seq<SourceFile>, maxFiles: int, maxBytes: int)
    returns (result: Result<seq<seq<SourceFile>>, UploadError>)
    ensures result == BatchSources(sources, maxFiles, maxBytes)
  {
    var batches: seq<seq<SourceFile>> := [];
    var current: seq<SourceFile> := [];
    var currentBytes := 0;
    assert OnCourse(sources, maxFiles, maxBytes, batches, current, 0) by {
      assert sources[0..] == sources;
      assert [] + Greedy(EnvelopeFits(maxFiles, maxBytes), [], sources)
          == Greedy(EnvelopeFits(maxFiles, maxBytes), [], sources);
    }
    for index := 0 to |sources|
      invariant currentBytes == TotalBytes(current)
      invariant forall j | 0 <= j < index :: sources[j].byteSize <= maxBytes
      invariant OnCourse(sources, maxFiles, maxBytes, batches, current, index)
    {
      var source := sources[index];
      if source.byteSize > maxBytes {
        return Err(SourceExceedsEnvelope);
      }
      BatchStep(sources, maxFiles, maxBytes, batches, current, index);
      if current != [] && (|current| >= maxFiles || currentBytes + source.byteSize > maxBytes) {
        batches := batches + [current];
        current := [];
        currentBytes := 0;
      }
      assert ([] + [source])[..0] == [];
      current := current + [source];
      currentBytes := currentBytes + source.byteSize;
    }
    assert sources[|sources|..] == [] && batches + [] == batches;
    if current != [] {
      batches := batches + [current];
    }
    return Ok(batches);
  }
}
