/** core/models.py: the record kept for each processed image and the report over a batch. */
module Models {
  import opened Common

  /** One image's outcome. `processingTime` is the elapsed wall-clock time, supplied from
      outside the model. */
  datatype ProcessingResult = ProcessingResult(
    imagePath: string,
    success: bool,
    outputPath: Option<string>,
    error: Option<string>,
    attempts: int,
    processingTime: real)

  /** `ProcessingResult(image_path=..., success=...)`, every other field at its default. */
  function NewProcessingResult(imagePath: string, success: bool): (r: ProcessingResult)
    ensures r.imagePath == imagePath && r.success == success
    ensures r.outputPath == None && r.error == None
    ensures r.attempts == 1 && r.processingTime == 0.0
  {
    ProcessingResult(imagePath, success, None, None, 1, 0.0)
  }

  datatype BatchReport = BatchReport(
    totalImages: int,
    successful: int,
    failed: int,
    processingTime: real,
    results: seq<ProcessingResult>)

  /** `BatchReport.success_rate()`: the successful fraction, exact. */
  function SuccessRate(b: BatchReport): (r: real)
    ensures b.totalImages == 0 ==> r == 0.0
    ensures b.totalImages != 0 ==> r * (b.totalImages as real) == b.successful as real
    ensures 0 <= b.successful <= b.totalImages ==> 0.0 <= r <= 1.0
    ensures b.totalImages != 0 && b.successful == b.totalImages ==> r == 1.0
    ensures b.successful == 0 ==> r == 0.0
  {
    if b.totalImages == 0 then 0.0 else (b.successful as real) / (b.totalImages as real)
  }

  /** The number of successful results. */
  function CountSuccessful(rs: seq<ProcessingResult>): (n: nat)
    ensures n <= |rs|
    ensures n == |rs| <==> forall i :: 0 <= i < |rs| ==> rs[i].success
    ensures n == 0 <==> forall i :: 0 <= i < |rs| ==> !rs[i].success
  {
    if |rs| == 0 then 0
    else (if rs[0].success then 1 else 0) + CountSuccessful(rs[1..])
  }

  /** The bookkeeping `process_batch` promises: one result per image, each counted once,
      as a success or as a failure. */
  predicate Consistent(b: BatchReport) {
    && |b.results| == b.totalImages
    && b.successful == CountSuccessful(b.results)
    && b.successful + b.failed == b.totalImages
  }

  /** For a consistent report, the rate lies in [0, 1]; it is 1 exactly when there are
      images and all succeeded, and 0 exactly when none did. */
  lemma ConsistentSuccessRate(b: BatchReport)
    requires Consistent(b)
    ensures 0.0 <= SuccessRate(b) <= 1.0
    ensures SuccessRate(b) == 1.0 <==> b.totalImages > 0 && b.failed == 0
    ensures SuccessRate(b) == 0.0 <==> forall i :: 0 <= i < |b.results| ==> !b.results[i].success
  {
    if b.totalImages > 0 && SuccessRate(b) == 1.0 {
      assert b.successful as real == b.totalImages as real;
    }
  }

  /** A consistent report counts no failure exactly when every result is a success. */
  lemma NoFailureIffAllSucceeded(b: BatchReport)
    requires Consistent(b)
    ensures b.failed == 0 <==> forall i :: 0 <= i < |b.results| ==> b.results[i].success
    ensures b.failed == 0 <==> b.successful == b.totalImages
  {
  }
}
