/** core/processor.py: the batch processor. Each image is tried up to `maxRetries` times,
    with an exponential wait between attempts; the batch collects one result per image in
    discovery order and counts successes and failures. */
module Processor {
  import opened Common
  import opened Paths
  import opened FileUtils
  import opened Models
  import opened Engines

  datatype BatchProcessor = BatchProcessor(
    outputDir: Path,
    maxRetries: int,
    supportedExtensions: seq<string>)

  /** `BatchProcessor(engine, output_dir, max_retries, logger, supported_extensions)`, with
      an omitted argument passed as None. An empty extension list counts as omitted. */
  function NewBatchProcessor(outputDir: Path, maxRetries: Option<int>, extensions: Option<seq<string>>)
    : (p: BatchProcessor)
    ensures p.outputDir == outputDir
    ensures maxRetries.None? ==> p.maxRetries == 3
    ensures maxRetries.Some? ==> p.maxRetries == maxRetries.value
    ensures extensions.Some? && extensions.value != [] ==> p.supportedExtensions == extensions.value
    ensures extensions.None? || extensions.value == [] ==> p.supportedExtensions == DefaultExtensions
    ensures p.supportedExtensions != []
  {
    var exts := extensions.GetOr([]);
    BatchProcessor(outputDir, maxRetries.GetOr(3), if exts == [] then DefaultExtensions else exts)
  }

  /** What a run changes or records besides its result: the filesystem, every path passed
      to the engine's `extract_text` so far, and every `time.sleep` argument so far. */
  datatype World = World(fs: FileSystem, calls: seq<string>, sleeps: seq<nat>)

  function Pow2(n: nat): (r: nat)
    ensures r >= 1
  {
    if n == 0 then 1 else 2 * Pow2(n - 1)
  }

  function Repeat(s: string, n: nat): (r: seq<string>)
    ensures |r| == n
    ensures forall i :: 0 <= i < n ==> r[i] == s
  {
    seq(n, _ => s)
  }

  /** The waits of the first `n` retries: 1, 2, 4, ... seconds. */
  function Backoff(n: nat): (r: seq<nat>)
    ensures |r| == n
    ensures forall i :: 0 <= i < n ==> r[i] == Pow2(i)
  {
    seq(n, i requires 0 <= i < n => Pow2(i))
  }

  lemma RepeatSnoc(s: string, n: nat)
    ensures Repeat(s, n) + [s] == Repeat(s, n + 1)
  {
  }

  lemma BackoffSnoc(n: nat)
    ensures Backoff(n) + [Pow2(n)] == Backoff(n + 1)
  {
  }

  /** `self.output_dir / generate_output_filename(image_path)`. */
  function OutputPathFor(outputDir: Path, image: Path): (r: Path)
    ensures Parent(r) == outputDir && |r| == |outputDir| + 1
    ensures Name(r) == GenerateOutputFilename(image, ".txt")
  {
    Child(outputDir, GenerateOutputFilename(image, ".txt"))
  }

  /** `_save_text(text, image_path)`: write the text next to the other outputs. */
  function SaveText(fs: FileSystem, outputDir: Path, image: Path, text: string): (r: Result<FileSystem>)
    requires WellFormed(fs)
    ensures r.Ok? <==> IsDir(fs, outputDir) && !IsDir(fs, OutputPathFor(outputDir, image))
    ensures r.Err? ==> r.error.kind == OSError
    ensures r.Ok? ==> WellFormed(r.value) && ReadText(r.value, OutputPathFor(outputDir, image)) == Some(text)
    ensures r.Ok? ==> forall q :: IsDir(r.value, q) <==> IsDir(fs, q)
  {
    SaveTextToFile(fs, OutputPathFor(outputDir, image), text)
  }

  /** The outcome of one pass through the `try` of the retry loop. */
  datatype Try = Saved(fs: FileSystem, output: Path, text: string) | Failed(error: Error)

  /** Call the engine with `str(image_path)`, then save what it returned. An exception from
      either step is a failure of the attempt. */
  function TryOnce(p: BatchProcessor, engine: Behaviour, w: World, image: Path): (r: (Try, World))
    requires WellFormed(w.fs)
    ensures r.1.calls == w.calls + [Str(image)] && r.1.sleeps == w.sleeps
    ensures r.0.Saved? <==> (engine(w.calls, Str(image)).Extracted?
      && IsDir(w.fs, p.outputDir) && !IsDir(w.fs, OutputPathFor(p.outputDir, image)))
    ensures r.0.Saved? ==> r.1.fs == r.0.fs && WellFormed(r.0.fs) && r.0.output == OutputPathFor(p.outputDir, image)
    ensures r.0.Saved? ==> (r.0.text == engine(w.calls, Str(image)).text
      && ReadText(r.0.fs, OutputPathFor(p.outputDir, image)) == Some(r.0.text))
    ensures r.0.Saved? ==> forall q :: IsDir(r.0.fs, q) <==> IsDir(w.fs, q)
    ensures r.0.Failed? ==> r.1.fs == w.fs
  {
    var call := Str(image);
    var w1 := w.(calls := w.calls + [call]);
    match engine(w.calls, call)
    case Raised(e) => (Failed(e), w1)
    case Extracted(text) =>
      match SaveText(w.fs, p.outputDir, image, text)
      case Ok(fs') => (Saved(fs', OutputPathFor(p.outputDir, image), text), w1.(fs := fs'))
      case Err(e) => (Failed(e), w1)
  }

  /** The retry loop of `process_single_image` from attempt `attempt` on, `lastError`
      holding the failure of the attempt before it. */
  function RetryLoop(
    p: BatchProcessor, engine: Behaviour, w: World, image: Path,
    attempt: nat, lastError: Option<Error>, elapsed: real): (r: (ProcessingResult, World))
    requires 1 <= attempt && WellFormed(w.fs)
    ensures r.0.imagePath == Str(image) && r.0.processingTime == elapsed
    ensures WellFormed(r.1.fs) && forall q :: IsDir(r.1.fs, q) <==> IsDir(w.fs, q)
    decreases p.maxRetries - attempt + 1
  {
    if attempt > p.maxRetries then
      var error := if lastError.Some? then lastError.value.message else "Unknown error";
      (ProcessingResult(Str(image), false, None, Some(error), p.maxRetries, elapsed), w)
    else
      var (t, w1) := TryOnce(p, engine, w, image);
      if t.Saved? then
        (ProcessingResult(Str(image), true, Some(Str(t.output)), None, attempt, elapsed), w1)
      else
        var w2 := if attempt < p.maxRetries then w1.(sleeps := w1.sleeps + [Pow2(attempt - 1)]) else w1;
        RetryLoop(p, engine, w2, image, attempt + 1, Some(t.error), elapsed)
  }

  // ---------------------------------------------------------------------------
  // Reference: the k-th attempt on its own

  /** The world in which attempt `k` on `image` starts when the attempts before it failed:
      the engine has seen `image` k-1 more times and k-1 waits have passed. */
  function Before(w: World, image: Path, k: nat): World
    requires k >= 1
  {
    World(w.fs, w.calls + Repeat(Str(image), k - 1), w.sleeps + Backoff(k - 1))
  }

  /** The outcome of attempt `k` when the attempts before it failed. */
  function AttemptOutcome(p: BatchProcessor, engine: Behaviour, w: World, image: Path, k: nat): Try
    requires k >= 1 && WellFormed(w.fs)
  {
    TryOnce(p, engine, Before(w, image, k), image).0
  }

  predicate AttemptSucceeds(p: BatchProcessor, engine: Behaviour, w: World, image: Path, k: nat)
    requires k >= 1 && WellFormed(w.fs)
  {
    AttemptOutcome(p, engine, w, image, k).Saved?
  }

  /** The message of a failed attempt. */
  function FailureMessage(t: Try): string {
    if t.Failed? then t.error.message else ""
  }

  /** The number of attempts made when all fail. */
  function Tries(maxRetries: int): nat {
    if maxRetries >= 1 then maxRetries else 0
  }

  /** The world after every attempt failed: no wait follows the last one. */
  function Exhausted(w: World, image: Path, maxRetries: int): World {
    var n := Tries(maxRetries);
    World(w.fs, w.calls + Repeat(Str(image), n), w.sleeps + Backoff(if n > 0 then n - 1 else 0))
  }

  /** The result of an image for which every attempt failed. */
  function FailedResult(p: BatchProcessor, image: Path, message: string, elapsed: real): ProcessingResult {
    ProcessingResult(Str(image), false, None, Some(message), p.maxRetries, elapsed)
  }

  /** The message recorded when every attempt failed. */
  function LastMessage(p: BatchProcessor, engine: Behaviour, w: World, image: Path): string
    requires WellFormed(w.fs)
  {
    if p.maxRetries >= 1 then FailureMessage(AttemptOutcome(p, engine, w, image, p.maxRetries))
    else "Unknown error"
  }

  /** The result of an image whose attempt `k` is the first to succeed. */
  function SucceededAt(p: BatchProcessor, engine: Behaviour, w: World, image: Path, k: nat, elapsed: real)
    : (ProcessingResult, World)
    requires k >= 1 && WellFormed(w.fs) && AttemptSucceeds(p, engine, w, image, k)
  {
    (ProcessingResult(Str(image), true, Some(Str(OutputPathFor(p.outputDir, image))), None, k, elapsed),
     World(AttemptOutcome(p, engine, w, image, k).fs, w.calls + Repeat(Str(image), k), w.sleeps + Backoff(k - 1)))
  }

  /** No attempt is made when `maxRetries` allows none. */
  lemma RetryNone(p: BatchProcessor, engine: Behaviour, w: World, image: Path, elapsed: real)
    requires WellFormed(w.fs) && p.maxRetries < 1
    ensures RetryLoop(p, engine, Before(w, image, 1), image, 1, None, elapsed)
      == (FailedResult(p, image, "Unknown error", elapsed), Exhausted(w, image, p.maxRetries))
  {
    assert Repeat(Str(image), 0) == [] && Backoff(0) == [];
    assert w.calls + [] == w.calls && w.sleeps + [] == w.sleeps;
  }

  /** An attempt that succeeds ends the loop. */
  lemma RetrySaved(p: BatchProcessor, engine: Behaviour, w: World, image: Path, k: nat, last: Option<Error>, elapsed: real)
    requires WellFormed(w.fs) && 1 <= k <= p.maxRetries
    requires AttemptSucceeds(p, engine, w, image, k)
    ensures RetryLoop(p, engine, Before(w, image, k), image, k, last, elapsed)
      == SucceededAt(p, engine, w, image, k, elapsed)
  {
    var call := Str(image);
    var (t, w1) := TryOnce(p, engine, Before(w, image, k), image);
    RepeatSnoc(call, k - 1);
    assert w1.calls == w.calls + Repeat(call, k) by {
      assert w1.calls == (w.calls + Repeat(call, k - 1)) + [call];
    }
  }

  /** A failed attempt before the last is followed by a wait of 2^(k-1) seconds and the
      next attempt. */
  lemma RetryFailedEarly(p: BatchProcessor, engine: Behaviour, w: World, image: Path, k: nat, last: Option<Error>, elapsed: real)
    requires WellFormed(w.fs) && 1 <= k < p.maxRetries
    requires !AttemptSucceeds(p, engine, w, image, k)
    ensures RetryLoop(p, engine, Before(w, image, k), image, k, last, elapsed)
      == RetryLoop(p, engine, Before(w, image, k + 1), image, k + 1,
                   Some(AttemptOutcome(p, engine, w, image, k).error), elapsed)
  {
    var call := Str(image);
    var (t, w1) := TryOnce(p, engine, Before(w, image, k), image);
    RepeatSnoc(call, k - 1);
    BackoffSnoc(k - 1);
    var w2 := w1.(sleeps := w1.sleeps + [Pow2(k - 1)]);
    assert w2 == Before(w, image, k + 1) by {
      assert w2.calls == (w.calls + Repeat(call, k - 1)) + [call];
      assert w2.sleeps == (w.sleeps + Backoff(k - 1)) + [Pow2(k - 1)];
    }
  }

  /** A failed last attempt ends the loop without a wait. */
  lemma RetryFailedLast(p: BatchProcessor, engine: Behaviour, w: World, image: Path, k: nat, last: Option<Error>, elapsed: real)
    requires WellFormed(w.fs) && 1 <= k == p.maxRetries
    requires !AttemptSucceeds(p, engine, w, image, k)
    ensures RetryLoop(p, engine, Before(w, image, k), image, k, last, elapsed)
      == (FailedResult(p, image, LastMessage(p, engine, w, image), elapsed), Exhausted(w, image, p.maxRetries))
  {
    var call := Str(image);
    var (t, w1) := TryOnce(p, engine, Before(w, image, k), image);
    RepeatSnoc(call, k - 1);
    assert w1.calls == w.calls + Repeat(call, k) by {
      assert w1.calls == (w.calls + Repeat(call, k - 1)) + [call];
    }
    assert RetryLoop(p, engine, w1, image, k + 1, Some(t.error), elapsed)
      == (FailedResult(p, image, t.error.message, elapsed), w1);
  }

  /** Reference for attempts `k` onwards, read off the attempts one at a time: the first
      that succeeds, or the failure of the last. */
  function FromAttempt(p: BatchProcessor, engine: Behaviour, w: World, image: Path, k: nat, elapsed: real)
    : (ProcessingResult, World)
    requires k >= 1 && WellFormed(w.fs)
    decreases p.maxRetries - k + 1
  {
    if k > p.maxRetries then
      (FailedResult(p, image, LastMessage(p, engine, w, image), elapsed), Exhausted(w, image, p.maxRetries))
    else if AttemptSucceeds(p, engine, w, image, k) then SucceededAt(p, engine, w, image, k, elapsed)
    else FromAttempt(p, engine, w, image, k + 1, elapsed)
  }

  /** The loop, which threads the world from attempt to attempt, agrees with the
      reference from attempt `k` on when the attempts before `k` failed. */
  lemma {:induction false} RetryLoopFrom(
    p: BatchProcessor, engine: Behaviour, w: World, image: Path, k: nat, last: Option<Error>, elapsed: real)
    requires WellFormed(w.fs) && 1 <= k
    requires k == 1 || k <= p.maxRetries
    requires k == 1 ==> last.None?
    ensures RetryLoop(p, engine, Before(w, image, k), image, k, last, elapsed)
      == FromAttempt(p, engine, w, image, k, elapsed)
    decreases p.maxRetries - k
  {
    if k > p.maxRetries {
      RetryNone(p, engine, w, image, elapsed);
    } else if AttemptSucceeds(p, engine, w, image, k) {
      RetrySaved(p, engine, w, image, k, last, elapsed);
    } else if k == p.maxRetries {
      RetryFailedLast(p, engine, w, image, k, last, elapsed);
    } else {
      var next := Some(AttemptOutcome(p, engine, w, image, k).error);
      RetryFailedEarly(p, engine, w, image, k, last, elapsed);
      RetryLoopFrom(p, engine, w, image, k + 1, next, elapsed);
    }
  }

  /** The reference succeeds exactly when an attempt from `k` to `maxRetries` succeeds. */
  lemma {:induction false} FromAttemptSucceeds(p: BatchProcessor, engine: Behaviour, w: World, image: Path, k: nat, elapsed: real)
    requires k >= 1 && WellFormed(w.fs)
    ensures FromAttempt(p, engine, w, image, k, elapsed).0.success
      <==> exists j :: k <= j <= p.maxRetries && AttemptSucceeds(p, engine, w, image, j)
    decreases p.maxRetries - k + 1
  {
    if k <= p.maxRetries && !AttemptSucceeds(p, engine, w, image, k) {
      FromAttemptSucceeds(p, engine, w, image, k + 1, elapsed);
      assert forall j :: k <= j <= p.maxRetries && AttemptSucceeds(p, engine, w, image, j) ==> k + 1 <= j;
    }
  }

  /** On success the reference reports the first successful attempt. */
  lemma {:induction false} FromAttemptFirst(p: BatchProcessor, engine: Behaviour, w: World, image: Path, k: nat, elapsed: real)
    requires k >= 1 && WellFormed(w.fs)
    ensures var r := FromAttempt(p, engine, w, image, k, elapsed).0;
      r.success ==>
      && k <= r.attempts <= p.maxRetries
      && AttemptSucceeds(p, engine, w, image, r.attempts)
      && (forall j :: k <= j < r.attempts ==> !AttemptSucceeds(p, engine, w, image, j))
    decreases p.maxRetries - k + 1
  {
    var r := FromAttempt(p, engine, w, image, k, elapsed);
    if k > p.maxRetries {
      assert !r.0.success;
    } else if AttemptSucceeds(p, engine, w, image, k) {
      assert r == SucceededAt(p, engine, w, image, k, elapsed);
      assert r.0.attempts == k;
    } else {
      assert r == FromAttempt(p, engine, w, image, k + 1, elapsed);
      FromAttemptFirst(p, engine, w, image, k + 1, elapsed);
      if r.0.success {
        FailedPrefixExtend(p, engine, w, image, k, r.0.attempts);
      }
    }
  }

  lemma FailedPrefixExtend(p: BatchProcessor, engine: Behaviour, w: World, image: Path, k: nat, n: nat)
    requires WellFormed(w.fs) && 1 <= k < n
    requires !AttemptSucceeds(p, engine, w, image, k)
    requires forall j :: k + 1 <= j < n ==> !AttemptSucceeds(p, engine, w, image, j)
    ensures forall j :: k <= j < n ==> !AttemptSucceeds(p, engine, w, image, j)
  {
    forall j | k <= j < n
      ensures !AttemptSucceeds(p, engine, w, image, j)
    {
      if j != k {
        assert k + 1 <= j < n;
      }
    }
  }

  /** On success the reference's result and world are those of the attempt it reports. */
  lemma {:induction false} FromAttemptSucceededAt(p: BatchProcessor, engine: Behaviour, w: World, image: Path, k: nat, elapsed: real)
    requires k >= 1 && WellFormed(w.fs)
    requires FromAttempt(p, engine, w, image, k, elapsed).0.success
    ensures var n := FromAttempt(p, engine, w, image, k, elapsed).0.attempts;
      n >= 1 && AttemptSucceeds(p, engine, w, image, n)
      && FromAttempt(p, engine, w, image, k, elapsed) == SucceededAt(p, engine, w, image, n, elapsed)
    decreases p.maxRetries - k + 1
  {
    if k <= p.maxRetries && !AttemptSucceeds(p, engine, w, image, k) {
      FromAttemptSucceededAt(p, engine, w, image, k + 1, elapsed);
    }
  }

  /** On failure the reference reports the exhausted loop. */
  lemma FromAttemptFails(p: BatchProcessor, engine: Behaviour, w: World, image: Path, k: nat, elapsed: real)
    requires k >= 1 && WellFormed(w.fs)
    requires !FromAttempt(p, engine, w, image, k, elapsed).0.success
    ensures FromAttempt(p, engine, w, image, k, elapsed)
      == (FailedResult(p, image, LastMessage(p, engine, w, image), elapsed), Exhausted(w, image, p.maxRetries))
    decreases p.maxRetries - k + 1
  {
  }

  /** `process_single_image(image_path)`: the retry loop from the first attempt. What it
      yields is stated by `ProcessSingleImageSpec`. */
  function ProcessSingleImage(p: BatchProcessor, engine: Behaviour, w: World, image: Path, elapsed: real)
    : (r: (ProcessingResult, World))
    requires WellFormed(w.fs)
    ensures r.0.imagePath == Str(image) && r.0.processingTime == elapsed
    ensures WellFormed(r.1.fs) && forall q :: IsDir(r.1.fs, q) <==> IsDir(w.fs, q)
  {
    RetryLoop(p, engine, w, image, 1, None, elapsed)
  }

  /** Success exactly when some attempt within `maxRetries` extracts and saves; the result
      then records the first such attempt, the engine was called that many times and the
      output file holds that attempt's text. Otherwise every attempt was made, the error is
      the last attempt's message ("Unknown error" when no attempt was made) and nothing was
      written. Between attempts the waits are 1, 2, 4, ... seconds, and none follows the
      last. */
  lemma ProcessSingleImageSpec(p: BatchProcessor, engine: Behaviour, w: World, image: Path, elapsed: real)
    requires WellFormed(w.fs)
    ensures var r := ProcessSingleImage(p, engine, w, image, elapsed);
      && (r.0.success <==> exists k :: 1 <= k <= p.maxRetries && AttemptSucceeds(p, engine, w, image, k))
      && (r.0.success ==>
            && 1 <= r.0.attempts <= p.maxRetries
            && AttemptSucceeds(p, engine, w, image, r.0.attempts)
            && (forall j :: 1 <= j < r.0.attempts ==> !AttemptSucceeds(p, engine, w, image, j))
            && r.0.outputPath == Some(Str(OutputPathFor(p.outputDir, image))) && r.0.error == None
            && r.1.calls == w.calls + Repeat(Str(image), r.0.attempts)
            && r.1.sleeps == w.sleeps + Backoff(r.0.attempts - 1)
            && ReadText(r.1.fs, OutputPathFor(p.outputDir, image))
               == Some(AttemptOutcome(p, engine, w, image, r.0.attempts).text))
      && (!r.0.success ==>
            && r.0.attempts == p.maxRetries && r.0.outputPath == None
            && r.0.error == Some(if p.maxRetries >= 1
                                 then FailureMessage(AttemptOutcome(p, engine, w, image, p.maxRetries))
                                 else "Unknown error")
            && r.1 == Exhausted(w, image, p.maxRetries))
  {
    assert Before(w, image, 1) == w by {
      assert Repeat(Str(image), 0) == [] && Backoff(0) == [];
      assert w.calls + [] == w.calls && w.sleeps + [] == w.sleeps;
    }
    RetryLoopFrom(p, engine, w, image, 1, None, elapsed);
    FromAttemptSucceeds(p, engine, w, image, 1, elapsed);
    FromAttemptFirst(p, engine, w, image, 1, elapsed);
    var r := RetryLoop(p, engine, w, image, 1, None, elapsed);
    if r.0.success {
      FromAttemptSucceededAt(p, engine, w, image, 1, elapsed);
    } else {
      FromAttemptFails(p, engine, w, image, 1, elapsed);
    }
  }

  /** With no attempt allowed the engine is never called, nothing waits, and the error is
      "Unknown error". */
  lemma NoAttemptsAllowed(p: BatchProcessor, engine: Behaviour, w: World, image: Path, elapsed: real)
    requires WellFormed(w.fs) && p.maxRetries <= 0
    ensures var r := ProcessSingleImage(p, engine, w, image, elapsed);
      !r.0.success && r.0.error == Some("Unknown error") && r.0.attempts == p.maxRetries && r.1 == w
  {
    ProcessSingleImageSpec(p, engine, w, image, elapsed);
    assert Repeat(Str(image), 0) == [] && Backoff(0) == [];
    assert w.calls + [] == w.calls && w.sleeps + [] == w.sleeps;
  }

  /** An engine that always extracts, with an output directory that is missing: saving
      fails on every attempt, so the image is retried to the end and reports the save's
      OSError. */
  lemma SaveFailureIsRetried(p: BatchProcessor, engine: Behaviour, w: World, image: Path, elapsed: real)
    requires WellFormed(w.fs) && p.maxRetries >= 1
    requires forall h, s :: engine(h, s).Extracted?
    requires !IsDir(w.fs, p.outputDir)
    ensures var r := ProcessSingleImage(p, engine, w, image, elapsed);
      && !r.0.success && r.0.attempts == p.maxRetries
      && AttemptOutcome(p, engine, w, image, p.maxRetries).Failed?
      && AttemptOutcome(p, engine, w, image, p.maxRetries).error.kind == OSError
      && r.0.error == Some(AttemptOutcome(p, engine, w, image, p.maxRetries).error.message)
      && |r.1.calls| == |w.calls| + p.maxRetries
  {
    ProcessSingleImageSpec(p, engine, w, image, elapsed);
    var t := TryOnce(p, engine, Before(w, image, p.maxRetries), image);
    assert engine(Before(w, image, p.maxRetries).calls, Str(image)).Extracted?;
  }

  // ---------------------------------------------------------------------------
  // The batch

  /** The images processed one after another, in order, each in the world the one before
      it left behind. */
  function ProcessAll(p: BatchProcessor, engine: Behaviour, w: World, images: seq<Path>, elapsed: Path -> real)
    : (r: (seq<ProcessingResult>, World))
    requires WellFormed(w.fs)
    ensures WellFormed(r.1.fs)
    ensures |r.0| == |images|
    ensures forall q :: IsDir(r.1.fs, q) <==> IsDir(w.fs, q)
    decreases |images|
  {
    if |images| == 0 then ([], w)
    else
      var front := ProcessAll(p, engine, w, images[..|images| - 1], elapsed);
      var last := images[|images| - 1];
      var single := ProcessSingleImage(p, engine, front.1, last, elapsed(last));
      (front.0 + [single.0], single.1)
  }

  /** Each result names its own image and carries that image's own elapsed time: the
      results come in discovery order. */
  lemma {:induction false} ProcessAllInOrder(
    p: BatchProcessor, engine: Behaviour, w: World, images: seq<Path>, elapsed: Path -> real)
    requires WellFormed(w.fs)
    ensures var rs := ProcessAll(p, engine, w, images, elapsed).0;
      forall i :: 0 <= i < |images| ==>
        rs[i].imagePath == Str(images[i]) && rs[i].processingTime == elapsed(images[i])
    decreases |images|
  {
    if |images| > 0 {
      var prefix := images[..|images| - 1];
      ProcessAllInOrder(p, engine, w, prefix, elapsed);
      var front := ProcessAll(p, engine, w, prefix, elapsed);
      var last := images[|images| - 1];
      var single := ProcessSingleImage(p, engine, front.1, last, elapsed(last));
      var rs := ProcessAll(p, engine, w, images, elapsed).0;
      assert rs == front.0 + [single.0];
      forall i | 0 <= i < |images|
        ensures rs[i].imagePath == Str(images[i]) && rs[i].processingTime == elapsed(images[i])
      {
        if i < |prefix| {
          assert rs[i] == front.0[i] && prefix[i] == images[i];
          assert front.0[i].imagePath == Str(prefix[i]);
        } else {
          assert rs[i] == single.0 && images[i] == last;
          assert single.0.imagePath == Str(last) && single.0.processingTime == elapsed(last);
        }
      }
    }
  }

  /** The loop's two counters, continued from `successful` and `failed` over the results
      from index `i` on. */
  function Tally(rs: seq<ProcessingResult>, i: nat, successful: nat, failed: nat): (r: (nat, nat))
    requires i <= |rs|
    ensures r.0 == successful + CountSuccessful(rs[i..])
    ensures r.0 + r.1 == successful + failed + (|rs| - i)
    decreases |rs| - i
  {
    if i == |rs| then (successful, failed)
    else
      assert rs[i..][1..] == rs[i + 1..];
      if rs[i].success then Tally(rs, i + 1, successful + 1, failed)
      else Tally(rs, i + 1, successful, failed + 1)
  }

  /** `process_batch(image_dir)`: make sure the output directory exists, discover the
      images, process each in order and count. An error from the first two steps
      propagates; the world keeps what the first step created. */
  function ProcessBatch(
    p: BatchProcessor, engine: Behaviour, w: World, imageDir: Path,
    elapsed: Path -> real, batchElapsed: real): (r: (Result<BatchReport>, World))
    requires WellFormed(w.fs)
    ensures WellFormed(r.1.fs)
    ensures EnsureOutputDirectory(w.fs, p.outputDir).Err? ==>
      r == (Err(EnsureOutputDirectory(w.fs, p.outputDir).error), w)
    ensures EnsureOutputDirectory(w.fs, p.outputDir).Ok? ==>
      var fs1 := EnsureOutputDirectory(w.fs, p.outputDir).value;
      var found := DiscoverImages(fs1, imageDir, p.supportedExtensions);
      && (found.Err? ==> r == (Err(found.error), w.(fs := fs1)))
      && (found.Ok? ==>
            && r.0.Ok? && r.0.value.totalImages == |found.value|
            && r.0.value.results == ProcessAll(p, engine, w.(fs := fs1), found.value, elapsed).0
            && r.1 == ProcessAll(p, engine, w.(fs := fs1), found.value, elapsed).1)
    ensures r.0.Ok? ==> Consistent(r.0.value) && r.0.value.processingTime == batchElapsed
  {
    match EnsureOutputDirectory(w.fs, p.outputDir)
    case Err(e) => (Err(e), w)
    case Ok(fs1) =>
      var w1 := w.(fs := fs1);
      match DiscoverImages(fs1, imageDir, p.supportedExtensions)
      case Err(e) => (Err(e), w1)
      case Ok(images) =>
        var (results, w2) := ProcessAll(p, engine, w1, images, elapsed);
        var (successful, failed) := Tally(results, 0, 0, 0);
        assert results[0..] == results;
        (Ok(BatchReport(|images|, successful, failed, batchElapsed, results)), w2)
  }

  // ---------------------------------------------------------------------------
  // End to end with the passthrough engine

  /** No directory lies directly inside `dir`, so no output file name is taken by one. */
  ghost predicate NoSubdirectories(fs: FileSystem, dir: Path) {
    forall n :: !IsDir(fs, Child(dir, n))
  }

  predicate FirstTimeSuccess(r: ProcessingResult) {
    r.success && r.attempts == 1 && r.error == None
  }

  /** With the passthrough engine, an image whose output path is free succeeds on its
      first attempt. */
  lemma PassthroughFirstAttempt(p: BatchProcessor, w: World, image: Path, elapsed: real)
    requires WellFormed(w.fs) && p.maxRetries >= 1
    requires IsDir(w.fs, p.outputDir) && !IsDir(w.fs, OutputPathFor(p.outputDir, image))
    ensures FirstTimeSuccess(ProcessSingleImage(p, PassthroughBehaviour, w, image, elapsed).0)
  {
    assert Before(w, image, 1) == w by {
      assert Repeat(Str(image), 0) == [] && Backoff(0) == [];
      assert w.calls + [] == w.calls && w.sleeps + [] == w.sleeps;
    }
    assert AttemptSucceeds(p, PassthroughBehaviour, w, image, 1);
    ProcessSingleImageSpec(p, PassthroughBehaviour, w, image, elapsed);
  }

  lemma AllFirstTimeSnoc(done: seq<ProcessingResult>, r: ProcessingResult)
    requires forall i :: 0 <= i < |done| ==> FirstTimeSuccess(done[i])
    requires FirstTimeSuccess(r)
    ensures forall i :: 0 <= i < |done + [r]| ==> FirstTimeSuccess((done + [r])[i])
  {
  }

  /** With the passthrough engine, an existing output directory without subdirectories
      and at least one attempt allowed, every image succeeds on its first attempt. */
  lemma {:induction false} PassthroughAllSucceed(
    p: BatchProcessor, w: World, images: seq<Path>, elapsed: Path -> real)
    requires WellFormed(w.fs) && p.maxRetries >= 1
    requires IsDir(w.fs, p.outputDir) && NoSubdirectories(w.fs, p.outputDir)
    ensures forall i :: 0 <= i < |images| ==>
      FirstTimeSuccess(ProcessAll(p, PassthroughBehaviour, w, images, elapsed).0[i])
    decreases |images|
  {
    if |images| > 0 {
      var prefix := images[..|images| - 1];
      PassthroughAllSucceed(p, w, prefix, elapsed);
      var before := ProcessAll(p, PassthroughBehaviour, w, prefix, elapsed);
      var done, w1 := before.0, before.1;
      assert forall i :: 0 <= i < |done| ==> FirstTimeSuccess(done[i]);
      var last := images[|images| - 1];
      var out := OutputPathFor(p.outputDir, last);
      assert !IsDir(w1.fs, out) by {
        assert out == Child(p.outputDir, GenerateOutputFilename(last, ".txt"));
        assert IsDir(w1.fs, out) <==> IsDir(w.fs, out);
      }
      PassthroughFirstAttempt(p, w1, last, elapsed(last));
      var r := ProcessSingleImage(p, PassthroughBehaviour, w1, last, elapsed(last)).0;
      AllFirstTimeSnoc(done, r);
      assert ProcessAll(p, PassthroughBehaviour, w, images, elapsed).0 == done + [r];
    }
  }

  /** An output directory that is missing but creatable, or present, comes out of
      `ensure_output_directory` as a directory. When it held no subdirectory it still
      holds none, because creation only adds the path's own prefixes. */
  lemma OutputDirectoryReady(fs: FileSystem, out: Path)
    requires WellFormed(fs) && !IsFile(fs, out) && !HasFileAncestor(fs, out)
    requires NoSubdirectories(fs, out)
    ensures EnsureOutputDirectory(fs, out).Ok?
    ensures var fs1 := EnsureOutputDirectory(fs, out).value;
      && IsDir(fs1, out) && NoSubdirectories(fs1, out)
      && forall q :: IsDir(fs, q) ==> IsDir(fs1, q)
  {
    if out !in fs {
      EnsureOutputDirectoryCreates(fs, out);
    }
    var fs1 := EnsureOutputDirectory(fs, out).value;
    forall n
      ensures !IsDir(fs1, Child(out, n))
    {
      var c := Child(out, n);
      assert |c| == |out| + 1;
      assert c !in fs ==> c !in fs1;
    }
  }

  /** Once the output directory is ensured and the image directory is present, the batch
      cannot fail: its report is consistent and holds the results of exactly the images
      discovery finds, processed against the world the first step left. */
  lemma BatchAfterOutputDirectory(
    p: BatchProcessor, engine: Behaviour, w: World, imageDir: Path, elapsed: Path -> real, batchElapsed: real)
    requires WellFormed(w.fs) && IsDir(w.fs, imageDir) && EnsureOutputDirectory(w.fs, p.outputDir).Ok?
    ensures var fs1 := EnsureOutputDirectory(w.fs, p.outputDir).value;
      var found := DiscoverImages(fs1, imageDir, p.supportedExtensions);
      var r := ProcessBatch(p, engine, w, imageDir, elapsed, batchElapsed).0;
      && found.Ok? && r.Ok? && Consistent(r.value)
      && r.value.results == ProcessAll(p, engine, w.(fs := fs1), found.value, elapsed).0
  {
    var fs1 := EnsureOutputDirectory(w.fs, p.outputDir).value;
    assert IsDir(fs1, imageDir);
  }

  /** A consistent report whose every result succeeded on its first attempt counts no
      failure. */
  lemma FirstTimeReport(b: BatchReport)
    requires Consistent(b) && forall i :: 0 <= i < |b.results| ==> FirstTimeSuccess(b.results[i])
    ensures b.failed == 0 && b.successful == b.totalImages
    ensures forall i :: 0 <= i < |b.results| ==> b.results[i].attempts == 1
  {
    NoFailureIffAllSucceeded(b);
  }

  /** End to end: with the passthrough engine every discovered image succeeds on its first
      attempt, and the report counts no failure. The output directory may exist already
      or be created by the batch; it only must not be blocked by a file. */
  lemma PassthroughBatch(
    p: BatchProcessor, w: World, imageDir: Path, elapsed: Path -> real, batchElapsed: real)
    requires WellFormed(w.fs) && p.maxRetries >= 1
    requires !IsFile(w.fs, p.outputDir) && !HasFileAncestor(w.fs, p.outputDir)
    requires NoSubdirectories(w.fs, p.outputDir)
    requires IsDir(w.fs, imageDir)
    ensures var r := ProcessBatch(p, PassthroughBehaviour, w, imageDir, elapsed, batchElapsed).0;
      && r.Ok? && r.value.failed == 0 && r.value.successful == r.value.totalImages
      && forall i :: 0 <= i < |r.value.results| ==> r.value.results[i].attempts == 1
  {
    OutputDirectoryReady(w.fs, p.outputDir);
    var fs1 := EnsureOutputDirectory(w.fs, p.outputDir).value;
    BatchAfterOutputDirectory(p, PassthroughBehaviour, w, imageDir, elapsed, batchElapsed);
    var found := DiscoverImages(fs1, imageDir, p.supportedExtensions);
    PassthroughAllSucceed(p, w.(fs := fs1), found.value, elapsed);
    var r := ProcessBatch(p, PassthroughBehaviour, w, imageDir, elapsed, batchElapsed).0;
    FirstTimeReport(r.value);
  }
}
