/** flow/batch_flow.py: the five steps of the batch flow, each reading and updating the
    flow state. They run in order, and the first step that raises ends the run:
    validate the inputs, build and check the engine, count the images, process them,
    and rebuild the report from the state. */
module BatchFlow {
  import opened Common
  import opened Text
  import opened Paths
  import opened FileUtils
  import opened Models
  import opened Settings
  import opened Engines
  import Factory
  import opened Processor
  import opened FlowState

  /** The extensions the flow itself checks for. */
  const FlowExtensions: seq<string> := [".jpg", ".jpeg", ".png", ".tiff", ".bmp"]

  function Refusal(message: string): Error {
    Error(ValidationError, message)
  }

  // ---------------------------------------------------------------------------
  // initialize_workflow

  // Each refusal message starts with its own capital letter, never the 'E' of the
  // discovery rewrap.
  const MissingDirHead: string := "Image directory does not exist: "
  const NotDirHead: string := "Image path is not a directory: "

  function MissingDirMessage(dir: Path): (m: string)
    ensures |m| > 0 && m[0] == 'I'
    ensures StartsWith(m, MissingDirHead) && m[|MissingDirHead|..] == Str(dir)
  {
    assert MissingDirHead[0] == 'I';
    MissingDirHead + Str(dir)
  }

  function NotDirMessage(dir: Path): (m: string)
    ensures |m| > 0 && m[0] == 'I'
    ensures StartsWith(m, NotDirHead) && m[|NotDirHead|..] == Str(dir)
  {
    assert NotDirHead[0] == 'I';
    NotDirHead + Str(dir)
  }

  /** A missing image directory and an image path that is a file are never reported
      with the same message. */
  lemma DirMessagesDiffer(a: Path, b: Path)
    ensures MissingDirMessage(a) != NotDirMessage(b)
  {
    assert MissingDirMessage(a)[6] == MissingDirHead[6] == 'd';
    assert NotDirMessage(b)[6] == NotDirHead[6] == 'p';
  }

  function BadTypeMessage(engineType: string): (m: string)
    ensures |m| > 0 && m[0] == 'I'
  {
    "Invalid engine type '" + engineType + "'. Supported types: " + ReprList(Factory.SupportedEngines())
  }

  function NoImagesMessage(dir: Path): (m: string)
    ensures |m| > 0 && m[0] == 'N'
  {
    "No images found in directory: " + Str(dir) + ". Supported extensions: " + ReprList(FlowExtensions)
  }

  function OutputNotDirMessage(out: Path): (m: string)
    ensures |m| > 0 && m[0] == 'O'
  {
    var head := "Output path exists but is not a directory: ";
    assert head[0] == 'O';
    head + Str(out)
  }

  /** `initialize_workflow()`: the checks run in this order and the first that fails
      raises a ValidationError. On success the images found are returned. */
  function InitializeWorkflow(fs: FileSystem, s: BatchProcessorState): (r: Result<seq<Path>>)
    ensures Parse(s.imageDir) !in fs ==> r == Err(Refusal(MissingDirMessage(Parse(s.imageDir))))
    ensures IsFile(fs, Parse(s.imageDir)) ==> r == Err(Refusal(NotDirMessage(Parse(s.imageDir))))
    ensures IsDir(fs, Parse(s.imageDir)) && s.engineType !in Factory.SupportedEngines() ==>
      r == Err(Refusal(BadTypeMessage(s.engineType)))
    ensures (IsDir(fs, Parse(s.imageDir)) && s.engineType in Factory.SupportedEngines()
             && DiscoverImages(fs, Parse(s.imageDir), FlowExtensions) == Ok([])) ==>
      r == Err(Refusal(NoImagesMessage(Parse(s.imageDir))))
    ensures r.Ok? <==>
      && IsDir(fs, Parse(s.imageDir))
      && s.engineType in Factory.SupportedEngines()
      && DiscoverImages(fs, Parse(s.imageDir), FlowExtensions) != Ok([])
      && !IsFile(fs, Parse(s.outputDir))
    ensures r.Ok? ==> r.value != [] && Ok(r.value) == DiscoverImages(fs, Parse(s.imageDir), FlowExtensions)
    ensures r.Err? ==> r.error.kind == ValidationError
  {
    var dir := Parse(s.imageDir);
    if dir !in fs then Err(Refusal(MissingDirMessage(dir)))
    else if !fs[dir].Dir? then Err(Refusal(NotDirMessage(dir)))
    else if s.engineType !in Factory.SupportedEngines() then Err(Refusal(BadTypeMessage(s.engineType)))
    else
      match DiscoverImages(fs, dir, FlowExtensions)
      case Err(e) =>
        // Only a ValueError is rewrapped; discovery of an existing directory never fails.
        if IsValueError(e.kind) then Err(Refusal("Error discovering images: " + e.message)) else Err(e)
      case Ok(images) =>
        if images == [] then Err(Refusal(NoImagesMessage(dir)))
        else
          var out := Parse(s.outputDir);
          if out in fs && !fs[out].Dir? then Err(Refusal(OutputNotDirMessage(out)))
          else Ok(images)
  }

  /** The messages of the five checks; the rewrap of a discovery error is never among
      them. */
  lemma InitializeWorkflowMessages(fs: FileSystem, s: BatchProcessorState)
    requires InitializeWorkflow(fs, s).Err?
    ensures var m := InitializeWorkflow(fs, s).error.message;
      || m == MissingDirMessage(Parse(s.imageDir))
      || m == NotDirMessage(Parse(s.imageDir))
      || m == BadTypeMessage(s.engineType)
      || m == NoImagesMessage(Parse(s.imageDir))
      || m == OutputNotDirMessage(Parse(s.outputDir))
  {
    var dir := Parse(s.imageDir);
    var r := InitializeWorkflow(fs, s);
    if dir !in fs {
      assert r == Err(Refusal(MissingDirMessage(dir)));
    } else if !fs[dir].Dir? {
      assert r == Err(Refusal(NotDirMessage(dir)));
    } else if s.engineType !in Factory.SupportedEngines() {
      assert r == Err(Refusal(BadTypeMessage(s.engineType)));
    } else {
      var found := DiscoverImages(fs, dir, FlowExtensions);
      assert found.Ok?;
      if found.value == [] {
        assert r == Err(Refusal(NoImagesMessage(dir)));
      } else {
        var out := Parse(s.outputDir);
        assert out in fs && !fs[out].Dir?;
        assert r == Err(Refusal(OutputNotDirMessage(out)));
      }
    }
  }

  lemma NotPrefixByFirst(m: string, prefix: string)
    requires |m| > 0 && |prefix| > 0 && m[0] != prefix[0]
    ensures !StartsWith(m, prefix)
  {
    if |prefix| <= |m| {
      assert m[..|prefix|][0] != prefix[0];
    }
  }

  lemma MessagesAvoidRewrap(dir: Path, out: Path, engineType: string, m: string)
    requires
      || m == MissingDirMessage(dir) || m == NotDirMessage(dir) || m == BadTypeMessage(engineType)
      || m == NoImagesMessage(dir) || m == OutputNotDirMessage(out)
    ensures !StartsWith(m, "Error discovering images: ")
  {
    var e := "Error discovering images: ";
    assert e[0] == 'E';
    assert m[0] in "INO";
    NotPrefixByFirst(m, e);
  }

  /** So the rewrap of a discovery error never reaches the caller. */
  lemma DiscoveryRewrapUnreachable(fs: FileSystem, s: BatchProcessorState)
    requires InitializeWorkflow(fs, s).Err?
    ensures !StartsWith(InitializeWorkflow(fs, s).error.message, "Error discovering images: ")
  {
    InitializeWorkflowMessages(fs, s);
    MessagesAvoidRewrap(Parse(s.imageDir), Parse(s.outputDir), s.engineType, InitializeWorkflow(fs, s).error.message);
  }

  // ---------------------------------------------------------------------------
  // create_engine

  /** A summary of a pydantic validation error: the class and the fields at fault. */
  function PydanticText(className: string, issues: seq<FieldIssue>): string
    decreases |issues|
  {
    if |issues| == 0 then "validation error for " + className
    else PydanticText(className, issues[..|issues| - 1]) + "\n" + issues[|issues| - 1].field
  }

  function ConfigFailure(engineType: string, message: string): Error {
    Error(ConfigurationError, "Failed to create " + engineType + " config: " + message)
  }

  /** `_create_engine_config(engine_type, config_dict)`: the dictionary's keys become the
      class's keyword arguments (unknown keys are ignored); any exception becomes a
      ConfigurationError. The passthrough class is the settings module's. */
  function CreateEngineConfig(engineType: string, d: Dict): (r: Result<EngineConfig>)
    ensures r.Ok? ==> engineType in EngineTypes && IsInstanceOfExpected(engineType, r.value)
    ensures r.Ok? ==> Some(ClassName(r.value)) == ExpectedClassName(engineType)
    ensures engineType !in EngineTypes ==> r == Err(ConfigFailure(engineType, "Unknown engine type: " + engineType))
    ensures engineType == "passthrough" ==> r == Ok(Passthrough(SettingsModule))
    ensures engineType == "docling" ==>
      (r.Ok? <==> ConstructDocling(d).Valid?) && (r.Ok? ==> r.value == Docling(ConstructDocling(d).value))
    ensures engineType == "llm" ==>
      (r.Ok? <==> ConstructLLM(d).Valid?) && (r.Ok? ==> r.value == Llm(ConstructLLM(d).value))
    ensures engineType == "api" ==>
      (r.Ok? <==> ConstructAPI(d).Valid?) && (r.Ok? ==> r.value == Api(ConstructAPI(d).value))
    ensures r.Err? ==>
      (r.error.kind == ConfigurationError
       && StartsWith(r.error.message, "Failed to create " + engineType + " config: "))
  {
    if engineType == "docling" then
      match ConstructDocling(d)
      case Valid(c) => Ok(Docling(c))
      case Invalid(issues) => Err(ConfigFailure(engineType, PydanticText("DoclingConfig", issues)))
    else if engineType == "llm" then
      match ConstructLLM(d)
      case Valid(c) => Ok(Llm(c))
      case Invalid(issues) => Err(ConfigFailure(engineType, PydanticText("LLMConfig", issues)))
    else if engineType == "api" then
      match ConstructAPI(d)
      case Valid(c) => Ok(Api(c))
      case Invalid(issues) => Err(ConfigFailure(engineType, PydanticText("APIConfig", issues)))
    else if engineType == "passthrough" then Ok(Passthrough(SettingsModule))
    else Err(ConfigFailure(engineType, "Unknown engine type: " + engineType))
  }

  /** A configuration's own dump, passed back as the dictionary, rebuilds it. */
  lemma CreateEngineConfigFromDump(d: DoclingConfig, l: LLMConfig, a: APIConfig)
    ensures DoclingValid(d) ==> CreateEngineConfig("docling", DumpDocling(d)) == Ok(Docling(d))
    ensures LLMValid(l) ==> CreateEngineConfig("llm", DumpLLM(l)) == Ok(Llm(l))
    ensures APIValid(a) ==> CreateEngineConfig("api", DumpAPI(a)) == Ok(Api(a))
  {
    ConstructDumpRoundTrip(d, l, a);
  }

  /** Every configuration the flow builds passes the factory's class check, so the
      factory's error is never raised from the flow. */
  lemma FlowConfigPassesFactory(engineType: string, d: Dict)
    requires CreateEngineConfig(engineType, d).Ok?
    ensures Factory.CreateEngine(engineType, CreateEngineConfig(engineType, d).value).Ok?
  {
    assert engineType in Factory.SupportedEngines();
  }

  /** `create_engine()`: build the configuration, then the engine, then run its
      `validate_config`, whose outcome for the engines outside the model is `other`. A
      `False` from `validate_config` is not an error. */
  function CreateEngine(s: BatchProcessorState, other: Validation): (r: Result<Engine>)
    ensures r.Ok? <==>
      CreateEngineConfig(s.engineType, s.engineConfig).Ok? && (s.engineType == "passthrough" || other.Returned?)
    ensures r.Ok? ==>
      (r.value.Config() == CreateEngineConfig(s.engineType, s.engineConfig).value
       && Factory.EngineTypeOf(r.value) == s.engineType)
    ensures s.engineType == "passthrough" ==> r == Ok(PassthroughEngine(SettingsModule))
    ensures CreateEngineConfig(s.engineType, s.engineConfig).Err? ==>
      r == Err(CreateEngineConfig(s.engineType, s.engineConfig).error)
    ensures (CreateEngineConfig(s.engineType, s.engineConfig).Ok? && s.engineType != "passthrough"
             && other.ValidationRaised?) ==>
      r == Err(Error(ConfigurationError,
        "Engine validation failed for " + s.engineType + ": " + other.error.message))
    ensures r.Err? ==> r.error.kind == ConfigurationError
  {
    var config :- CreateEngineConfig(s.engineType, s.engineConfig);
    FlowConfigPassesFactory(s.engineType, s.engineConfig);
    match Factory.CreateEngine(s.engineType, config)
    case Err(e) =>
      if IsValueError(e.kind) then Err(Error(ConfigurationError, "Failed to create engine: " + e.message))
      else Err(e)
    case Ok(engine) =>
      match ValidateConfig(engine, other)
      case ValidationRaised(e) =>
        Err(Error(ConfigurationError, "Engine validation failed for " + s.engineType + ": " + e.message))
      case Returned(_) => Ok(engine)
  }

  // ---------------------------------------------------------------------------
  // discover_images

  /** `discover_images()`: count the images and store the count. A discovery error
      propagates unchanged. */
  function DiscoverStep(fs: FileSystem, s: BatchProcessorState): (r: Result<BatchProcessorState>)
    ensures r.Ok? <==> IsDir(fs, Parse(s.imageDir))
    ensures r.Err? ==> Err(r.error) == DiscoverImages(fs, Parse(s.imageDir), FlowExtensions)
    ensures r.Ok? ==> r.value == s.(totalImages := |DiscoverImages(fs, Parse(s.imageDir), FlowExtensions).value|)
    ensures r.Ok? && CountersValid(s) ==> CountersValid(r.value)
  {
    var images :- DiscoverImages(fs, Parse(s.imageDir), FlowExtensions);
    Ok(Assign(s, TotalImages, |images|).value)
  }

  // ---------------------------------------------------------------------------
  // process_images

  function ResultDicts(rs: seq<ProcessingResult>): (ds: seq<Dict>)
    ensures |ds| == |rs|
    ensures forall i :: 0 <= i < |rs| ==> ds[i] == ResultToDict(rs[i])
  {
    seq(|rs|, i requires 0 <= i < |rs| => ResultToDict(rs[i]))
  }

  /** The processor the flow builds: three attempts and the default extensions. */
  function FlowProcessor(s: BatchProcessorState): (p: BatchProcessor)
    ensures p.outputDir == Parse(s.outputDir) && p.maxRetries == 3
    ensures p.supportedExtensions == FlowExtensions
  {
    NewBatchProcessor(Parse(s.outputDir), Some(3), None)
  }

  /** The three counter assignments `process_images` makes from a report, followed by the
      stored results. The counts are non-negative, so no assignment is refused. */
  function RecordReport(s: BatchProcessorState, b: BatchReport): (r: BatchProcessorState)
    requires b.totalImages >= 0 && b.successful >= 0 && b.failed >= 0
    ensures r.processedImages == b.totalImages && r.successful == b.successful && r.failed == b.failed
    ensures r.results == ResultDicts(b.results)
    ensures r.imageDir == s.imageDir && r.outputDir == s.outputDir && r.engineType == s.engineType
    ensures r.engineConfig == s.engineConfig && r.totalImages == s.totalImages
  {
    var s1 := Assign(s, ProcessedImages, b.totalImages).value;
    var s2 := Assign(s1, Successful, b.successful).value;
    var s3 := Assign(s2, Counter.Failed, b.failed).value;
    s3.(results := ResultDicts(b.results))
  }

  /** `process_images()`: run the batch with the flow's engine and copy its counts and
      results into the state. An error from the batch propagates. */
  function ProcessImages(
    w: World, s: BatchProcessorState, engine: Engine, other: Behaviour,
    elapsed: Path -> real, batchElapsed: real): (r: (Result<BatchProcessorState>, World))
    requires WellFormed(w.fs)
    ensures WellFormed(r.1.fs)
    ensures var b := ProcessBatch(FlowProcessor(s), BehaviourOf(engine, other), w, Parse(s.imageDir), elapsed, batchElapsed);
      && r.1 == b.1
      && (b.0.Err? ==> r.0 == Err(b.0.error))
      && (b.0.Ok? ==>
            (r.0.Ok?
             && r.0.value.processedImages == b.0.value.totalImages
             && r.0.value.successful == b.0.value.successful
             && r.0.value.failed == b.0.value.failed
             && r.0.value.results == ResultDicts(b.0.value.results)))
    ensures r.0.Ok? ==>
      (r.0.value.imageDir == s.imageDir && r.0.value.outputDir == s.outputDir
       && r.0.value.engineType == s.engineType && r.0.value.engineConfig == s.engineConfig
       && r.0.value.totalImages == s.totalImages)
    ensures r.0.Ok? && CountersValid(s) ==> CountersValid(r.0.value)
  {
    var (report, w1) := ProcessBatch(FlowProcessor(s), BehaviourOf(engine, other), w, Parse(s.imageDir), elapsed, batchElapsed);
    match report
    case Err(e) => (Err(e), w1)
    case Ok(b) => (Ok(RecordReport(s, b)), w1)
  }

  // ---------------------------------------------------------------------------
  // generate_report

  /** The stored dictionaries rebuilt in order; the first that cannot be rebuilt raises. */
  function RebuildResults(ds: seq<Dict>): (r: Result<seq<ProcessingResult>>)
    ensures r.Ok? <==> forall i :: 0 <= i < |ds| ==> DictToResult(ds[i]).Ok?
    ensures r.Ok? ==> |r.value| == |ds| && forall i :: 0 <= i < |ds| ==> DictToResult(ds[i]) == Ok(r.value[i])
    ensures r.Err? ==>
      exists i :: 0 <= i < |ds| && DictToResult(ds[i]) == Err(r.error)
                  && forall j :: 0 <= j < i ==> DictToResult(ds[j]).Ok?
  {
    if |ds| == 0 then Ok([])
    else
      match DictToResult(ds[0])
      case Err(e) => Err(e)
      case Ok(first) =>
        match RebuildResults(ds[1..])
        case Err(e) =>
          ghost var i :| 0 <= i < |ds[1..]| && DictToResult(ds[1..][i]) == Err(e)
            && forall j :: 0 <= j < i ==> DictToResult(ds[1..][j]).Ok?;
          assert DictToResult(ds[i + 1]) == Err(e);
          Err(e)
        case Ok(rest) => Ok([first] + rest)
  }

  /** The stored results rebuild to exactly the processor's results. */
  lemma RebuildStored(rs: seq<ProcessingResult>)
    ensures RebuildResults(ResultDicts(rs)) == Ok(rs)
  {
    var ds := ResultDicts(rs);
    forall i | 0 <= i < |rs|
      ensures DictToResult(ds[i]) == Ok(rs[i])
    {
      ResultRoundTrip(rs[i]);
    }
    var r := RebuildResults(ds);
    assert r.Ok?;
    assert forall i :: 0 <= i < |rs| ==> r.value[i] == rs[i];
    assert r.value == rs;
  }

  /** `sum(r.processing_time for r in results)`. */
  function TotalTime(rs: seq<ProcessingResult>): real
    decreases |rs|
  {
    if |rs| == 0 then 0.0 else TotalTime(rs[..|rs| - 1]) + rs[|rs| - 1].processingTime
  }

  /** Every time is non-negative, so their sum is too. */
  lemma {:induction false} TotalTimeNonNegative(rs: seq<ProcessingResult>)
    requires forall i :: 0 <= i < |rs| ==> rs[i].processingTime >= 0.0
    ensures TotalTime(rs) >= 0.0
    decreases |rs|
  {
    if |rs| > 0 {
      TotalTimeNonNegative(rs[..|rs| - 1]);
    }
  }

  /** `generate_report()`: the report is rebuilt from the state; its time is the sum of
      the per-image times, not the batch's own elapsed time. */
  function GenerateReport(s: BatchProcessorState): (r: Result<BatchReport>)
    ensures r.Ok? <==> RebuildResults(s.results).Ok?
    ensures r.Ok? ==>
      && r.value.totalImages == s.totalImages
      && r.value.successful == s.successful
      && r.value.failed == s.failed
      && r.value.results == RebuildResults(s.results).value
      && r.value.processingTime == TotalTime(r.value.results)
    ensures r.Err? ==> r.error == RebuildResults(s.results).error
  {
    var results :- RebuildResults(s.results);
    Ok(BatchReport(s.totalImages, s.successful, s.failed, TotalTime(results), results))
  }

  // ---------------------------------------------------------------------------
  // The whole flow

  /** `kickoff()`: the five steps in order, the first error ending the run. The world and
      the state are returned as the run left them. */
  function RunFlow(
    w: World, s: BatchProcessorState, validation: Validation, other: Behaviour,
    elapsed: Path -> real, batchElapsed: real): (r: (Result<BatchReport>, World, BatchProcessorState))
    requires WellFormed(w.fs)
    ensures WellFormed(r.1.fs)
    ensures InitializeWorkflow(w.fs, s).Err? ==> r == (Err(InitializeWorkflow(w.fs, s).error), w, s)
    ensures InitializeWorkflow(w.fs, s).Ok? && CreateEngine(s, validation).Err? ==>
      r == (Err(CreateEngine(s, validation).error), w, s)
    ensures r.0.Ok? ==> InitializeWorkflow(w.fs, s).Ok? && CreateEngine(s, validation).Ok?
  {
    match InitializeWorkflow(w.fs, s)
    case Err(e) => (Err(e), w, s)
    case Ok(_) =>
      match CreateEngine(s, validation)
      case Err(e) => (Err(e), w, s)
      case Ok(engine) =>
        match DiscoverStep(w.fs, s)
        case Err(e) => (Err(e), w, s)
        case Ok(s1) =>
          var (processed, w1) := ProcessImages(w, s1, engine, other, elapsed, batchElapsed);
          match processed
          case Err(e) => (Err(e), w1, s1)
          case Ok(s2) =>
            match GenerateReport(s2)
            case Err(e) => (Err(e), w1, s2)
            case Ok(report) => (Ok(report), w1, s2)
  }

  // ---------------------------------------------------------------------------
  // End to end

  /** Creating the output directory adds directories only, so the flow's count of the
      images and the processor's discovery agree. */
  lemma DiscoveryAfterOutputDirectory(fs: FileSystem, out: Path, dir: Path)
    requires WellFormed(fs) && IsDir(fs, dir) && EnsureOutputDirectory(fs, out).Ok?
    ensures DiscoverImages(EnsureOutputDirectory(fs, out).value, dir, FlowExtensions)
      == DiscoverImages(fs, dir, FlowExtensions)
  {
    var fs1 := EnsureOutputDirectory(fs, out).value;
    assert forall p :: IsFile(fs, p) <==> IsFile(fs1, p);
    DiscoverIgnoresDirs(fs, fs1, dir, FlowExtensions);
  }

  /** A run that reaches its report yields a consistent one: one result per image the
      flow counted, each counted once as a success or a failure, its time the sum of the
      results' times; the state says every counted image was processed. */
  lemma RunFlowConsistent(
    w: World, s: BatchProcessorState, validation: Validation, other: Behaviour,
    elapsed: Path -> real, batchElapsed: real)
    requires WellFormed(w.fs)
    ensures var r := RunFlow(w, s, validation, other, elapsed, batchElapsed);
      r.0.Ok? ==>
        && Consistent(r.0.value)
        && r.0.value.totalImages == |InitializeWorkflow(w.fs, s).value|
        && r.0.value.processingTime == TotalTime(r.0.value.results)
        && r.2.processedImages == r.2.totalImages == r.0.value.totalImages
        && r.2.results == ResultDicts(r.0.value.results)
  {
    var r := RunFlow(w, s, validation, other, elapsed, batchElapsed);
    if r.0.Ok? {
      var dir := Parse(s.imageDir);
      var images := InitializeWorkflow(w.fs, s).value;
      var engine := CreateEngine(s, validation).value;
      var s1 := DiscoverStep(w.fs, s).value;
      assert s1.totalImages == |images|;
      var p := FlowProcessor(s1);
      var b := ProcessBatch(p, BehaviourOf(engine, other), w, Parse(s1.imageDir), elapsed, batchElapsed);
      var s2 := ProcessImages(w, s1, engine, other, elapsed, batchElapsed).0.value;
      assert b.0.Ok?;
      DiscoveryAfterOutputDirectory(w.fs, p.outputDir, dir);
      assert b.0.value.totalImages == |images|;
      RebuildStored(b.0.value.results);
      assert r.0 == GenerateReport(s2);
    }
  }

  /** When the clock never runs backwards, the report's total time is not negative. */
  lemma RunFlowTimeNonNegative(
    w: World, s: BatchProcessorState, validation: Validation, other: Behaviour,
    elapsed: Path -> real, batchElapsed: real)
    requires WellFormed(w.fs)
    requires forall q :: elapsed(q) >= 0.0
    ensures var r := RunFlow(w, s, validation, other, elapsed, batchElapsed);
      r.0.Ok? ==> r.0.value.processingTime >= 0.0
  {
    var r := RunFlow(w, s, validation, other, elapsed, batchElapsed);
    RunFlowConsistent(w, s, validation, other, elapsed, batchElapsed);
    if r.0.Ok? {
      var engine := CreateEngine(s, validation).value;
      var p := FlowProcessor(s);
      RunFlowReportsBatch(w, s, validation, other, elapsed, batchElapsed);
      var fs1 := EnsureOutputDirectory(w.fs, p.outputDir).value;
      var found := DiscoverImages(fs1, Parse(s.imageDir), p.supportedExtensions).value;
      ProcessAllInOrder(p, BehaviourOf(engine, other), w.(fs := fs1), found, elapsed);
      TotalTimeNonNegative(r.0.value.results);
    }
  }

  /** Once validation and engine creation pass, the run reports exactly when the batch
      does, and its report carries the batch's counts and results. */
  lemma RunFlowReportsBatch(
    w: World, s: BatchProcessorState, validation: Validation, other: Behaviour,
    elapsed: Path -> real, batchElapsed: real)
    requires WellFormed(w.fs) && InitializeWorkflow(w.fs, s).Ok? && CreateEngine(s, validation).Ok?
    ensures var engine := CreateEngine(s, validation).value;
      var b := ProcessBatch(FlowProcessor(s), BehaviourOf(engine, other), w, Parse(s.imageDir), elapsed, batchElapsed).0;
      var r := RunFlow(w, s, validation, other, elapsed, batchElapsed).0;
      && (r.Ok? <==> b.Ok?)
      && (b.Ok? ==>
            && r.value.successful == b.value.successful && r.value.failed == b.value.failed
            && r.value.results == b.value.results)
  {
    var engine := CreateEngine(s, validation).value;
    var s1 := DiscoverStep(w.fs, s).value;
    assert FlowProcessor(s1) == FlowProcessor(s);
    var b := ProcessBatch(FlowProcessor(s), BehaviourOf(engine, other), w, Parse(s.imageDir), elapsed, batchElapsed).0;
    if b.Ok? {
      var s2 := ProcessImages(w, s1, engine, other, elapsed, batchElapsed).0.value;
      RebuildStored(b.value.results);
      assert RunFlow(w, s, validation, other, elapsed, batchElapsed).0 == GenerateReport(s2);
    }
  }

  /** With the passthrough engine, inputs that pass validation and an output path that
      no file blocks and that holds no subdirectory (whether or not it exists yet), the
      run succeeds: every image found is processed on its first attempt and none fails.
      The engine configuration given is never looked at. */
  lemma PassthroughFlow(
    w: World, s: BatchProcessorState, validation: Validation, other: Behaviour,
    elapsed: Path -> real, batchElapsed: real)
    requires WellFormed(w.fs) && s.engineType == "passthrough"
    requires InitializeWorkflow(w.fs, s).Ok?
    requires !HasFileAncestor(w.fs, Parse(s.outputDir)) && NoSubdirectories(w.fs, Parse(s.outputDir))
    ensures var r := RunFlow(w, s, validation, other, elapsed, batchElapsed);
      && r.0.Ok?
      && r.0.value.totalImages == |InitializeWorkflow(w.fs, s).value| > 0
      && r.0.value.failed == 0 && r.0.value.successful == r.0.value.totalImages
      && forall i :: 0 <= i < |r.0.value.results| ==> r.0.value.results[i].attempts == 1
  {
    var engine := CreateEngine(s, validation).value;
    assert BehaviourOf(engine, other) == PassthroughBehaviour;
    PassthroughBatch(FlowProcessor(s), w, Parse(s.imageDir), elapsed, batchElapsed);
    RunFlowReportsBatch(w, s, validation, other, elapsed, batchElapsed);
    RunFlowConsistent(w, s, validation, other, elapsed, batchElapsed);
  }
}
