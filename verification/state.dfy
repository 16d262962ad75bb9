/** flow/state.py: the state the flow carries from step to step. Its four counters are
    constrained to be non-negative both when the state is built and, because assignments
    are validated, whenever one of them is set. */
module FlowState {
  import opened Common
  import opened Settings
  import opened Models

  datatype BatchProcessorState = BatchProcessorState(
    imageDir: string,
    outputDir: string,
    engineType: string,
    engineConfig: Dict,
    totalImages: int,
    processedImages: int,
    successful: int,
    failed: int,
    results: seq<Dict>)

  /** The constraint `ge=0` on every counter. */
  predicate CountersValid(s: BatchProcessorState) {
    s.totalImages >= 0 && s.processedImages >= 0 && s.successful >= 0 && s.failed >= 0
  }

  datatype Counter = TotalImages | ProcessedImages | Successful | Failed

  function CounterName(c: Counter): string {
    match c
    case TotalImages => "total_images"
    case ProcessedImages => "processed_images"
    case Successful => "successful"
    case Failed => "failed"
  }

  function Get(s: BatchProcessorState, c: Counter): int {
    match c
    case TotalImages => s.totalImages
    case ProcessedImages => s.processedImages
    case Successful => s.successful
    case Failed => s.failed
  }

  function CounterField(name: string, v: Option<int>): Field<int> {
    if v.Some? && v.value < 0 then Bad(BelowMinimum(0.0)) else Got(v.GetOr(0))
  }

  /** `BatchProcessorState(...)`, an omitted argument passed as None. */
  function NewState(
    imageDir: Option<string>, outputDir: Option<string>, engineType: Option<string>,
    engineConfig: Option<Dict>, totalImages: Option<int>, processedImages: Option<int>,
    successful: Option<int>, failed: Option<int>, results: Option<seq<Dict>>)
    : (r: Validated<BatchProcessorState>)
    ensures r.Valid? <==>
      totalImages.GetOr(0) >= 0 && processedImages.GetOr(0) >= 0 && successful.GetOr(0) >= 0 && failed.GetOr(0) >= 0
    ensures r.Valid? ==> CountersValid(r.value)
    ensures r.Valid? ==> r.value == BatchProcessorState(
      imageDir.GetOr(""), outputDir.GetOr(""), engineType.GetOr("docling"), engineConfig.GetOr(map[]),
      totalImages.GetOr(0), processedImages.GetOr(0), successful.GetOr(0), failed.GetOr(0), results.GetOr([]))
    ensures totalImages.GetOr(0) < 0 ==> r.Invalid? && FieldIssue("total_images", BelowMinimum(0.0)) in r.issues
    ensures failed.GetOr(0) < 0 ==> r.Invalid? && FieldIssue("failed", BelowMinimum(0.0)) in r.issues
    ensures r.Invalid? ==> forall i :: 0 <= i < |r.issues| ==>
      r.issues[i].field in ["total_images", "processed_images", "successful", "failed"]
  {
    var total := CounterField("total_images", totalImages);
    var processed := CounterField("processed_images", processedImages);
    var succ := CounterField("successful", successful);
    var fail := CounterField("failed", failed);
    var issues := Issues("total_images", total) + Issues("processed_images", processed)
      + Issues("successful", succ) + Issues("failed", fail);
    if issues != [] then Invalid(issues)
    else Valid(BatchProcessorState(
      imageDir.GetOr(""), outputDir.GetOr(""), engineType.GetOr("docling"), engineConfig.GetOr(map[]),
      total.value, processed.value, succ.value, fail.value, results.GetOr([])))
  }

  /** `BatchProcessorState()`: every field at its default. */
  lemma DefaultState()
    ensures NewState(None, None, None, None, None, None, None, None, None)
      == Valid(BatchProcessorState("", "", "docling", map[], 0, 0, 0, 0, []))
  {
  }

  /** `state.<counter> = v` under `validate_assignment`: a negative value is refused and
      the state is left as it was. */
  function Assign(s: BatchProcessorState, c: Counter, v: int): (r: Validated<BatchProcessorState>)
    ensures r.Valid? <==> v >= 0
    ensures r.Invalid? ==> r.issues == [FieldIssue(CounterName(c), BelowMinimum(0.0))]
    ensures r.Valid? ==> Get(r.value, c) == v
    ensures r.Valid? ==> forall d :: d != c ==> Get(r.value, d) == Get(s, d)
    ensures r.Valid? ==>
      (r.value.imageDir == s.imageDir && r.value.outputDir == s.outputDir
       && r.value.engineType == s.engineType && r.value.engineConfig == s.engineConfig
       && r.value.results == s.results)
  {
    if v < 0 then Invalid([FieldIssue(CounterName(c), BelowMinimum(0.0))])
    else
      match c
      case TotalImages => Valid(s.(totalImages := v))
      case ProcessedImages => Valid(s.(processedImages := v))
      case Successful => Valid(s.(successful := v))
      case Failed => Valid(s.(failed := v))
  }

  /** Assignment keeps the counters non-negative. */
  lemma AssignKeepsCounters(s: BatchProcessorState, c: Counter, v: int)
    requires CountersValid(s)
    ensures Assign(s, c, v).Valid? ==> CountersValid(Assign(s, c, v).value)
    ensures Assign(s, c, v).Invalid? ==> v < 0
  {
    var r := Assign(s, c, v);
    if r.Valid? {
      assert Get(r.value, c) >= 0;
      assert forall d :: Get(r.value, d) >= 0;
      assert Get(r.value, TotalImages) >= 0 && Get(r.value, ProcessedImages) >= 0;
      assert Get(r.value, Successful) >= 0 && Get(r.value, Failed) >= 0;
    }
  }

  // ---------------------------------------------------------------------------
  // Results as dictionaries

  const ResultKeys: set<string> :=
    {"image_path", "success", "output_path", "error", "attempts", "processing_time"}

  function OptStr(o: Option<string>): Value {
    if o.Some? then VStr(o.value) else VNone
  }

  /** The dictionary `process_images` stores for one result. */
  function ResultToDict(r: ProcessingResult): (d: Dict)
    ensures d.Keys == ResultKeys
  {
    map["image_path" := VStr(r.imagePath), "success" := VBool(r.success),
        "output_path" := OptStr(r.outputPath), "error" := OptStr(r.error),
        "attempts" := VInt(r.attempts), "processing_time" := VReal(r.processingTime)]
  }

  function KeyMissing(key: string): Error {
    Error(KeyError, "'" + key + "'")
  }

  /** A value of the wrong type for its field. */
  function WrongType(key: string): Error {
    Error(OtherError("TypeError"), key)
  }

  function StrAt(d: Dict, key: string): Result<string> {
    if key !in d then Err(KeyMissing(key))
    else if d[key].VStr? then Ok(d[key].s)
    else Err(WrongType(key))
  }

  function OptStrAt(d: Dict, key: string): Result<Option<string>> {
    if key !in d then Err(KeyMissing(key))
    else if d[key].VStr? then Ok(Some(d[key].s))
    else if d[key].VNone? then Ok(None)
    else Err(WrongType(key))
  }

  function BoolAt(d: Dict, key: string): Result<bool> {
    if key !in d then Err(KeyMissing(key))
    else if d[key].VBool? then Ok(d[key].b)
    else Err(WrongType(key))
  }

  function IntAt(d: Dict, key: string): Result<int> {
    if key !in d then Err(KeyMissing(key))
    else if d[key].VInt? then Ok(d[key].i)
    else Err(WrongType(key))
  }

  function RealAt(d: Dict, key: string): Result<real> {
    if key !in d then Err(KeyMissing(key))
    else if d[key].VReal? then Ok(d[key].r)
    else Err(WrongType(key))
  }

  /** `ProcessingResult(image_path=r['image_path'], ...)`: the keys are read in this order,
      and the first missing one raises KeyError. */
  function DictToResult(d: Dict): (r: Result<ProcessingResult>)
    ensures r.Ok? ==> ResultKeys <= d.Keys
    ensures "image_path" !in d ==> r == Err(KeyMissing("image_path"))
  {
    var imagePath :- StrAt(d, "image_path");
    var success :- BoolAt(d, "success");
    var outputPath :- OptStrAt(d, "output_path");
    var error :- OptStrAt(d, "error");
    var attempts :- IntAt(d, "attempts");
    var time :- RealAt(d, "processing_time");
    Ok(ProcessingResult(imagePath, success, outputPath, error, attempts, time))
  }

  /** Storing a result and rebuilding it gives back all six fields. */
  lemma ResultRoundTrip(r: ProcessingResult)
    ensures DictToResult(ResultToDict(r)) == Ok(r)
  {
  }

  /** A dictionary that rebuilds to a result agrees with that result's own dictionary on
      every key it stores. */
  lemma DictRoundTrip(d: Dict)
    requires DictToResult(d).Ok?
    ensures forall k :: k in ResultKeys ==> k in d && ResultToDict(DictToResult(d).value)[k] == d[k]
  {
  }
}
