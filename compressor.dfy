/** Size-targeted compression (src/image/compressor.js).

    The image is re-encoded as WebP at a fixed, descending series of quality
    levels, each encoding overwriting the output file, until one encoding
    fits under the byte ceiling. The codec and `fs.stat` are abstracted as a
    function from quality level to the byte size of the file it writes; the
    resize to 1200 pixels and the other encoder options are fixed for all
    attempts and so are part of that function. */
module Compressor {
  import opened Wrappers
  import opened Strings

  const InitialQuality: int := 85
  const QualityStep: int := 15
  const MinQuality: int := 1
  const DefaultTargetKB: int := 100
  const BytesPerKB: int := 1024

  /** The quality levels the loop encodes at, in the order it tries them. */
  const Schedule: seq<int> := [85, 70, 55, 40, 25, 10]

  /** `Math.max(1, quality - 15)`. */
  function NextQuality(q: int): int
  {
    Max(MinQuality, q - QualityStep)
  }

  /** The message of the error thrown when no quality level fits. */
  function ErrorMessage(targetSizeKB: int): string
  {
    "Unable to compress image under " + IntToDecimal(targetSizeKB) + "KB"
  }

  /** `q` is the highest quality of the schedule whose encoding fits. */
  predicate IsHighestFit(sizeAt: int -> nat, limit: int, q: int)
  {
    q in Schedule && sizeAt(q) <= limit
    && forall p :: p in Schedule && sizeAt(p) <= limit ==> p <= q
  }

  /** `compressImageUntilSize(inputPath, outputPath, targetSizeKB)`.
      `written` lists the quality of every encoding written to the output
      path, in order; the file left on disk is the last of them. */
  method CompressImageUntilSize(sizeAt: int -> nat, targetSizeKB: int) returns (r: Outcome<string>, written: seq<int>)
    ensures 1 <= |written| <= |Schedule| && written == Schedule[..|written|]
    ensures forall i :: 0 <= i < |written| - 1 ==> sizeAt(written[i]) > targetSizeKB * BytesPerKB
    ensures r.Pass? <==> sizeAt(written[|written| - 1]) <= targetSizeKB * BytesPerKB
    ensures r.Pass? ==> IsHighestFit(sizeAt, targetSizeKB * BytesPerKB, written[|written| - 1])
    ensures r.Fail? <==> forall q :: q in Schedule ==> sizeAt(q) > targetSizeKB * BytesPerKB
    ensures r.Fail? ==> written == Schedule && r.error == ErrorMessage(targetSizeKB)
  {
    var quality := InitialQuality;
    var targetSizeBytes := targetSizeKB * BytesPerKB;
    written := [];
    while quality > 1
      invariant |written| <= |Schedule| && written == Schedule[..|written|]
      invariant quality == if |written| < |Schedule| then Schedule[|written|] else MinQuality
      invariant forall i :: 0 <= i < |written| ==> sizeAt(written[i]) > targetSizeBytes
      decreases quality
    {
      written := written + [quality];
      if sizeAt(quality) <= targetSizeBytes {
        r := Pass;
        return;
      }
      quality := NextQuality(quality);
    }
    assert written == Schedule;
    r := Fail(ErrorMessage(targetSizeKB));
  }

  /** The message for the default ceiling names "100KB". */
  lemma DefaultErrorMessage()
    ensures DefaultTargetKB * BytesPerKB == 102400
    ensures ErrorMessage(DefaultTargetKB) == "Unable to compress image under 100KB"
  {
    assert NatToDecimal(1) == "1";
    assert NatToDecimal(10) == "10";
    assert NatToDecimal(100) == "100";
  }
}
