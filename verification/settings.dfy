/** config/settings.py: the engine configuration classes with their field bounds, their
    construction from keyword arguments, and the validated top-level
    `BatchProcessorConfig`. Pydantic is modelled by what it does here: each field is
    checked in declaration order, every failing field is reported, and the model
    validator runs only when all fields passed. */
module Settings {
  import opened Common
  import opened Text

  datatype DoclingConfig = DoclingConfig(
    modelPath: Option<string>,
    useGpu: bool,
    batchSize: int,
    ocrEnabled: bool)

  datatype LLMConfig = LLMConfig(
    modelName: string,
    temperature: real,
    maxTokens: int,
    apiKey: Option<string>,
    baseUrl: Option<string>)

  datatype APIConfig = APIConfig(
    apiUrl: string,
    apiKey: string,
    timeout: int,
    maxRetries: int,
    verifySsl: bool)

  /** Two distinct classes are named PassthroughConfig: one in config/settings.py and one
      in engines/passthrough.py. */
  datatype PassthroughOrigin = SettingsModule | EngineModule

  /** An instance of `EngineConfig` or of one of its subclasses. */
  datatype EngineConfig =
    | BaseConfig
    | Docling(docling: DoclingConfig)
    | Llm(llm: LLMConfig)
    | Api(api: APIConfig)
    | Passthrough(origin: PassthroughOrigin)

  /** `type(config).__name__`. */
  function ClassName(c: EngineConfig): string {
    match c
    case BaseConfig => "EngineConfig"
    case Docling(_) => "DoclingConfig"
    case Llm(_) => "LLMConfig"
    case Api(_) => "APIConfig"
    case Passthrough(_) => "PassthroughConfig"
  }

  /** The engine types `BatchProcessorConfig.engine_type` admits. */
  const EngineTypes: seq<string> := ["docling", "llm", "api", "passthrough"]

  /** The name of the configuration class each engine type requires. */
  function ExpectedClassName(engineType: string): (r: Option<string>)
    ensures r.Some? <==> engineType in EngineTypes
  {
    if engineType == "docling" then Some("DoclingConfig")
    else if engineType == "llm" then Some("LLMConfig")
    else if engineType == "api" then Some("APIConfig")
    else if engineType == "passthrough" then Some("PassthroughConfig")
    else None
  }

  /** `isinstance(config, engine_config_map[engine_type])`, where the map holds the
      classes of config/settings.py. */
  predicate IsInstanceOfExpected(engineType: string, c: EngineConfig) {
    match c
    case BaseConfig => false
    case Docling(_) => engineType == "docling"
    case Llm(_) => engineType == "llm"
    case Api(_) => engineType == "api"
    case Passthrough(origin) => engineType == "passthrough" && origin == SettingsModule
  }

  // ---------------------------------------------------------------------------
  // Field constraints

  predicate DoclingValid(d: DoclingConfig) {
    d.batchSize >= 1
  }

  predicate LLMValid(l: LLMConfig) {
    l.maxTokens >= 1 && 0.0 <= l.temperature <= 2.0
  }

  predicate APIValid(a: APIConfig) {
    a.timeout >= 1 && a.maxRetries >= 0
  }

  /** Why a field was refused. */
  datatype Issue =
    | Missing
    | WrongType
    | BelowMinimum(min: real)
    | AboveMaximum(max: real)
    | NotOneOf(allowed: seq<string>)
    | Custom(message: string)

  /** An entry of a validation error; `field` is empty for a model-level error. */
  datatype FieldIssue = FieldIssue(field: string, issue: Issue)

  datatype Validated<T> = Valid(value: T) | Invalid(issues: seq<FieldIssue>)

  /** One field read from keyword arguments. */
  datatype Field<T> = Got(value: T) | Bad(issue: Issue)

  function Issues<T>(name: string, f: Field<T>): (r: seq<FieldIssue>)
    ensures f.Got? <==> r == []
    ensures f.Bad? ==> r == [FieldIssue(name, f.issue)]
  {
    if f.Bad? then [FieldIssue(name, f.issue)] else []
  }

  /** A `str` field; `default` is None when the field is required. */
  function StrField(kw: Dict, name: string, default: Option<string>): Field<string> {
    if name !in kw then (if default.Some? then Got(default.value) else Bad(Missing))
    else if kw[name].VStr? then Got(kw[name].s)
    else Bad(WrongType)
  }

  /** An `Optional[str] = None` field. */
  function OptStrField(kw: Dict, name: string): Field<Option<string>> {
    if name !in kw then Got(None)
    else if kw[name].VNone? then Got(None)
    else if kw[name].VStr? then Got(Some(kw[name].s))
    else Bad(WrongType)
  }

  function BoolField(kw: Dict, name: string, default: bool): Field<bool> {
    if name !in kw then Got(default)
    else if kw[name].VBool? then Got(kw[name].b)
    else Bad(WrongType)
  }

  /** An `int = Field(default=..., ge=min)` field; the default itself is not checked. */
  function IntField(kw: Dict, name: string, default: int, min: int): Field<int> {
    if name !in kw then Got(default)
    else if !kw[name].VInt? then Bad(WrongType)
    else if kw[name].i < min then Bad(BelowMinimum(min as real))
    else Got(kw[name].i)
  }

  /** The number a float field reads from a value: a float, or an int taken as a float. */
  function AsReal(v: Value): Option<real> {
    if v.VReal? then Some(v.r) else if v.VInt? then Some(v.i as real) else None
  }

  /** A `float = Field(default=..., ge=min, le=max)` field; an int is accepted as a float. */
  function RealField(kw: Dict, name: string, default: real, min: real, max: real): Field<real> {
    if name !in kw then Got(default)
    else
      match AsReal(kw[name])
      case None => Bad(WrongType)
      case Some(x) =>
        if x < min then Bad(BelowMinimum(min))
        else if x > max then Bad(AboveMaximum(max))
        else Got(x)
  }

  // ---------------------------------------------------------------------------
  // Construction from keyword arguments (`DoclingConfig(**d)` and so on)

  const DoclingFields: seq<string> := ["model_path", "use_gpu", "batch_size", "ocr_enabled"]
  const LLMFields: seq<string> := ["model_name", "temperature", "max_tokens", "api_key", "base_url"]
  const APIFields: seq<string> := ["api_url", "api_key", "timeout", "max_retries", "verify_ssl"]

  /** Every issue names one of the class's fields. */
  predicate IssuesNameFields(issues: seq<FieldIssue>, fields: seq<string>) {
    forall i :: 0 <= i < |issues| ==> issues[i].field in fields
  }

  function ConstructDocling(kw: Dict): (r: Validated<DoclingConfig>)
    ensures r.Valid? ==> DoclingValid(r.value)
    ensures r.Invalid? ==> |r.issues| > 0 && IssuesNameFields(r.issues, DoclingFields)
    ensures "batch_size" in kw && kw["batch_size"].VInt? && kw["batch_size"].i < 1 ==>
      r.Invalid? && FieldIssue("batch_size", BelowMinimum(1.0)) in r.issues
  {
    var modelPath := OptStrField(kw, "model_path");
    var useGpu := BoolField(kw, "use_gpu", false);
    var batchSize := IntField(kw, "batch_size", 1, 1);
    var ocr := BoolField(kw, "ocr_enabled", true);
    var issues := Issues("model_path", modelPath) + Issues("use_gpu", useGpu)
      + Issues("batch_size", batchSize) + Issues("ocr_enabled", ocr);
    if issues == [] then Valid(DoclingConfig(modelPath.value, useGpu.value, batchSize.value, ocr.value))
    else Invalid(issues)
  }

  function ConstructLLM(kw: Dict): (r: Validated<LLMConfig>)
    ensures r.Valid? ==> LLMValid(r.value)
    ensures r.Invalid? ==> |r.issues| > 0 && IssuesNameFields(r.issues, LLMFields)
    ensures "model_name" !in kw ==> r.Invalid? && FieldIssue("model_name", Missing) in r.issues
  {
    var modelName := StrField(kw, "model_name", None);
    var temperature := RealField(kw, "temperature", 0.0, 0.0, 2.0);
    var maxTokens := IntField(kw, "max_tokens", 4096, 1);
    var apiKey := OptStrField(kw, "api_key");
    var baseUrl := OptStrField(kw, "base_url");
    var issues := Issues("model_name", modelName) + Issues("temperature", temperature)
      + Issues("max_tokens", maxTokens) + Issues("api_key", apiKey) + Issues("base_url", baseUrl);
    if issues == [] then
      Valid(LLMConfig(modelName.value, temperature.value, maxTokens.value, apiKey.value, baseUrl.value))
    else Invalid(issues)
  }

  function ConstructAPI(kw: Dict): (r: Validated<APIConfig>)
    ensures r.Valid? ==> APIValid(r.value)
    ensures r.Invalid? ==> |r.issues| > 0 && IssuesNameFields(r.issues, APIFields)
    ensures "api_url" !in kw ==> r.Invalid? && FieldIssue("api_url", Missing) in r.issues
    ensures "api_key" !in kw ==> r.Invalid? && FieldIssue("api_key", Missing) in r.issues
  {
    var apiUrl := StrField(kw, "api_url", None);
    var apiKey := StrField(kw, "api_key", None);
    var timeout := IntField(kw, "timeout", 30, 1);
    var maxRetries := IntField(kw, "max_retries", 3, 0);
    var verifySsl := BoolField(kw, "verify_ssl", true);
    var issues := Issues("api_url", apiUrl) + Issues("api_key", apiKey) + Issues("timeout", timeout)
      + Issues("max_retries", maxRetries) + Issues("verify_ssl", verifySsl);
    if issues == [] then
      Valid(APIConfig(apiUrl.value, apiKey.value, timeout.value, maxRetries.value, verifySsl.value))
    else Invalid(issues)
  }

  /** A temperature outside [0, 2] or a `max_tokens` below 1 is refused, whatever else is
      given, and the issue names the bound. */
  lemma LLMRefusesOutOfRange(kw: Dict)
    ensures var r := ConstructLLM(kw);
      "temperature" in kw && AsReal(kw["temperature"]).Some? && AsReal(kw["temperature"]).value < 0.0 ==>
        r.Invalid? && FieldIssue("temperature", BelowMinimum(0.0)) in r.issues
    ensures var r := ConstructLLM(kw);
      "temperature" in kw && AsReal(kw["temperature"]).Some? && AsReal(kw["temperature"]).value > 2.0 ==>
        r.Invalid? && FieldIssue("temperature", AboveMaximum(2.0)) in r.issues
    ensures var r := ConstructLLM(kw);
      "max_tokens" in kw && kw["max_tokens"].VInt? && kw["max_tokens"].i < 1 ==>
        r.Invalid? && FieldIssue("max_tokens", BelowMinimum(1.0)) in r.issues
  {
  }

  /** A `timeout` below 1 or a negative `max_retries` is refused, whatever else is given,
      and the issue names the bound. */
  lemma APIRefusesOutOfRange(kw: Dict)
    ensures var r := ConstructAPI(kw);
      "timeout" in kw && kw["timeout"].VInt? && kw["timeout"].i < 1 ==>
        r.Invalid? && FieldIssue("timeout", BelowMinimum(1.0)) in r.issues
    ensures var r := ConstructAPI(kw);
      "max_retries" in kw && kw["max_retries"].VInt? && kw["max_retries"].i < 0 ==>
        r.Invalid? && FieldIssue("max_retries", BelowMinimum(0.0)) in r.issues
  {
  }

  function OptStrValue(o: Option<string>): Value {
    if o.Some? then VStr(o.value) else VNone
  }

  /** `model_dump()` of each configuration class. */
  function DumpDocling(d: DoclingConfig): Dict {
    map["model_path" := OptStrValue(d.modelPath), "use_gpu" := VBool(d.useGpu),
        "batch_size" := VInt(d.batchSize), "ocr_enabled" := VBool(d.ocrEnabled)]
  }

  function DumpLLM(l: LLMConfig): Dict {
    map["model_name" := VStr(l.modelName), "temperature" := VReal(l.temperature),
        "max_tokens" := VInt(l.maxTokens), "api_key" := OptStrValue(l.apiKey),
        "base_url" := OptStrValue(l.baseUrl)]
  }

  function DumpAPI(a: APIConfig): Dict {
    map["api_url" := VStr(a.apiUrl), "api_key" := VStr(a.apiKey), "timeout" := VInt(a.timeout),
        "max_retries" := VInt(a.maxRetries), "verify_ssl" := VBool(a.verifySsl)]
  }

  /** A configuration that meets its bounds is rebuilt unchanged from its own dump. */
  lemma ConstructDumpRoundTrip(d: DoclingConfig, l: LLMConfig, a: APIConfig)
    ensures DoclingValid(d) ==> ConstructDocling(DumpDocling(d)) == Valid(d)
    ensures LLMValid(l) ==> ConstructLLM(DumpLLM(l)) == Valid(l)
    ensures APIValid(a) ==> ConstructAPI(DumpAPI(a)) == Valid(a)
  {
  }

  /** With no keyword arguments every field takes its declared default. */
  lemma ConstructDefaults()
    ensures ConstructDocling(map[]) == Valid(DoclingConfig(None, false, 1, true))
    ensures ConstructLLM(map["model_name" := VStr("m")]) == Valid(LLMConfig("m", 0.0, 4096, None, None))
    ensures ConstructAPI(map["api_url" := VStr("u"), "api_key" := VStr("k")]) == Valid(APIConfig("u", "k", 30, 3, true))
  {
  }

  // ---------------------------------------------------------------------------
  // Which keyword arguments are accepted

  /** The keyword arguments that name one of `fields`; pydantic ignores the others. */
  function Restrict(kw: Dict, fields: seq<string>): (r: Dict)
    ensures forall k :: k in r <==> k in kw && k in fields
    ensures forall k :: k in r ==> r[k] == kw[k]
  {
    map k | k in kw && k in fields :: kw[k]
  }

  /** An optional field that is absent or holds a value of the kind `ok` accepts. */
  predicate GivenOk(kw: Dict, name: string, ok: Value -> bool) {
    name in kw ==> ok(kw[name])
  }

  predicate IsOptStr(v: Value) { v.VNone? || v.VStr? }

  predicate IsBool(v: Value) { v.VBool? }

  /** A value an `int` field with lower bound `min` accepts. */
  predicate IntAtLeast(v: Value, min: int) { v.VInt? && v.i >= min }

  /** A value a `float` field with bounds `min` and `max` accepts. */
  predicate RealWithin(v: Value, min: real, max: real) {
    AsReal(v).Some? && min <= AsReal(v).value <= max
  }

  /** A required `str` field: present and a string. */
  predicate StrGiven(kw: Dict, name: string) {
    name in kw && kw[name].VStr?
  }

  /** The string an `Optional[str]` field holds: the given one, or None. */
  function GivenOptStr(kw: Dict, name: string): Option<string> {
    if name in kw && kw[name].VStr? then Some(kw[name].s) else None
  }

  /** Construction succeeds exactly when every field given has a value of its kind within
      its bounds; each field then holds the value given, or its default when omitted. */
  lemma DoclingAcceptance(kw: Dict)
    ensures ConstructDocling(kw).Valid? <==>
      && GivenOk(kw, "model_path", IsOptStr)
      && GivenOk(kw, "use_gpu", IsBool)
      && GivenOk(kw, "batch_size", v => IntAtLeast(v, 1))
      && GivenOk(kw, "ocr_enabled", IsBool)
    ensures ConstructDocling(kw).Valid? ==> ConstructDocling(kw).value == DoclingConfig(
      GivenOptStr(kw, "model_path"),
      if "use_gpu" in kw then kw["use_gpu"].b else false,
      if "batch_size" in kw then kw["batch_size"].i else 1,
      if "ocr_enabled" in kw then kw["ocr_enabled"].b else true)
  {
  }

  lemma LLMAcceptance(kw: Dict)
    ensures ConstructLLM(kw).Valid? <==>
      && StrGiven(kw, "model_name")
      && GivenOk(kw, "temperature", v => RealWithin(v, 0.0, 2.0))
      && GivenOk(kw, "max_tokens", v => IntAtLeast(v, 1))
      && GivenOk(kw, "api_key", IsOptStr)
      && GivenOk(kw, "base_url", IsOptStr)
    ensures ConstructLLM(kw).Valid? ==> ConstructLLM(kw).value == LLMConfig(
      kw["model_name"].s,
      if "temperature" in kw then AsReal(kw["temperature"]).value else 0.0,
      if "max_tokens" in kw then kw["max_tokens"].i else 4096,
      GivenOptStr(kw, "api_key"),
      GivenOptStr(kw, "base_url"))
  {
  }

  lemma APIAcceptance(kw: Dict)
    ensures ConstructAPI(kw).Valid? <==>
      && StrGiven(kw, "api_url")
      && StrGiven(kw, "api_key")
      && GivenOk(kw, "timeout", v => IntAtLeast(v, 1))
      && GivenOk(kw, "max_retries", v => IntAtLeast(v, 0))
      && GivenOk(kw, "verify_ssl", IsBool)
    ensures ConstructAPI(kw).Valid? ==> ConstructAPI(kw).value == APIConfig(
      kw["api_url"].s,
      kw["api_key"].s,
      if "timeout" in kw then kw["timeout"].i else 30,
      if "max_retries" in kw then kw["max_retries"].i else 3,
      if "verify_ssl" in kw then kw["verify_ssl"].b else true)
  {
  }

  /** A field of the class reads the same from the restricted arguments. */
  lemma RestrictKeeps(kw: Dict, fields: seq<string>, name: string)
    requires name in fields
    ensures name in Restrict(kw, fields) <==> name in kw
    ensures name in kw ==> Restrict(kw, fields)[name] == kw[name]
  {
  }

  /** Keyword arguments that name no DoclingConfig field change nothing. */
  lemma DoclingIgnoresUnknownKeys(kw: Dict)
    ensures ConstructDocling(Restrict(kw, DoclingFields)) == ConstructDocling(kw)
  {
    var r := Restrict(kw, DoclingFields);
    RestrictKeeps(kw, DoclingFields, DoclingFields[0]);
    RestrictKeeps(kw, DoclingFields, DoclingFields[1]);
    RestrictKeeps(kw, DoclingFields, DoclingFields[2]);
    RestrictKeeps(kw, DoclingFields, DoclingFields[3]);
    assert OptStrField(r, "model_path") == OptStrField(kw, "model_path");
    assert BoolField(r, "use_gpu", false) == BoolField(kw, "use_gpu", false);
    assert IntField(r, "batch_size", 1, 1) == IntField(kw, "batch_size", 1, 1);
    assert BoolField(r, "ocr_enabled", true) == BoolField(kw, "ocr_enabled", true);
  }

  /** Keyword arguments that name no LLMConfig field change nothing. */
  lemma LLMIgnoresUnknownKeys(kw: Dict)
    ensures ConstructLLM(Restrict(kw, LLMFields)) == ConstructLLM(kw)
  {
    var r := Restrict(kw, LLMFields);
    RestrictKeeps(kw, LLMFields, LLMFields[0]);
    RestrictKeeps(kw, LLMFields, LLMFields[1]);
    RestrictKeeps(kw, LLMFields, LLMFields[2]);
    RestrictKeeps(kw, LLMFields, LLMFields[3]);
    RestrictKeeps(kw, LLMFields, LLMFields[4]);
    assert StrField(r, "model_name", None) == StrField(kw, "model_name", None);
    assert RealField(r, "temperature", 0.0, 0.0, 2.0) == RealField(kw, "temperature", 0.0, 0.0, 2.0);
    assert IntField(r, "max_tokens", 4096, 1) == IntField(kw, "max_tokens", 4096, 1);
    assert OptStrField(r, "api_key") == OptStrField(kw, "api_key");
    assert OptStrField(r, "base_url") == OptStrField(kw, "base_url");
  }

  /** Keyword arguments that name no APIConfig field change nothing. */
  lemma APIIgnoresUnknownKeys(kw: Dict)
    ensures ConstructAPI(Restrict(kw, APIFields)) == ConstructAPI(kw)
  {
    var r := Restrict(kw, APIFields);
    RestrictKeeps(kw, APIFields, APIFields[0]);
    RestrictKeeps(kw, APIFields, APIFields[1]);
    RestrictKeeps(kw, APIFields, APIFields[2]);
    RestrictKeeps(kw, APIFields, APIFields[3]);
    RestrictKeeps(kw, APIFields, APIFields[4]);
    assert StrField(r, "api_url", None) == StrField(kw, "api_url", None);
    assert StrField(r, "api_key", None) == StrField(kw, "api_key", None);
    assert IntField(r, "timeout", 30, 1) == IntField(kw, "timeout", 30, 1);
    assert IntField(r, "max_retries", 3, 0) == IntField(kw, "max_retries", 3, 0);
    assert BoolField(r, "verify_ssl", true) == BoolField(kw, "verify_ssl", true);
  }

  // ---------------------------------------------------------------------------
  // BatchProcessorConfig

  datatype BatchProcessorConfig = BatchProcessorConfig(
    imageDir: string,
    outputDir: string,
    engineType: string,
    engineConfig: EngineConfig,
    maxRetries: int,
    supportedExtensions: seq<string>)

  /** The message of a refused directory field, "<field> cannot be empty". */
  function EmptyMessage(name: string): string {
    name + " cannot be empty"
  }

  /** The field validators of `image_dir` and `output_dir`: refuse an empty or
      whitespace-only value, return any other value unchanged. */
  function ValidateDir(name: string, v: string): (r: Field<string>)
    ensures r.Got? ==> r.value == v
    ensures r.Bad? <==> IsBlank(v)
    ensures r.Bad? ==> r.issue == Custom(EmptyMessage(name))
  {
    StripEmptyIffBlank(v);
    if |v| == 0 || |Strip(v)| == 0 then Bad(Custom(EmptyMessage(name))) else Got(v)
  }

  function EngineTypeField(v: string): Field<string> {
    if v in EngineTypes then Got(v) else Bad(NotOneOf(EngineTypes))
  }

  /** The model validator's message for a configuration of the wrong class. */
  function MismatchMessage(engineType: string, c: EngineConfig): string
    requires engineType in EngineTypes
  {
    "engine_type '" + engineType + "' requires " + ExpectedClassName(engineType).value
      + ", got " + ClassName(c)
  }

  /** The field errors of `BatchProcessorConfig(...)`, in declaration order. */
  function ConfigFieldIssues(imageDir: string, outputDir: string, engineType: string, maxRetries: Option<int>)
    : (r: seq<FieldIssue>)
    ensures r == [] <==>
      !IsBlank(imageDir) && !IsBlank(outputDir) && engineType in EngineTypes && maxRetries.GetOr(3) >= 0
    ensures IsBlank(imageDir) ==> FieldIssue("image_dir", Custom(EmptyMessage("image_dir"))) in r
    ensures IsBlank(outputDir) ==> FieldIssue("output_dir", Custom(EmptyMessage("output_dir"))) in r
    ensures engineType !in EngineTypes ==> FieldIssue("engine_type", NotOneOf(EngineTypes)) in r
    ensures maxRetries.Some? && maxRetries.value < 0 ==> FieldIssue("max_retries", BelowMinimum(0.0)) in r
  {
    var image := Issues("image_dir", ValidateDir("image_dir", imageDir));
    var output := Issues("output_dir", ValidateDir("output_dir", outputDir));
    var kind := Issues("engine_type", EngineTypeField(engineType));
    var retries := if maxRetries.Some? && maxRetries.value < 0 then [FieldIssue("max_retries", BelowMinimum(0.0))] else [];
    var r := image + output + kind + retries;
    r
  }

  /** `BatchProcessorConfig(...)`; an omitted `max_retries` or `supported_extensions` is
      passed as None. */
  function NewBatchProcessorConfig(
    imageDir: string, outputDir: string, engineType: string, engineConfig: EngineConfig,
    maxRetries: Option<int>, extensions: Option<seq<string>>): (r: Validated<BatchProcessorConfig>)
    ensures r.Valid? <==>
      && !IsBlank(imageDir) && !IsBlank(outputDir)
      && engineType in EngineTypes
      && maxRetries.GetOr(3) >= 0
      && IsInstanceOfExpected(engineType, engineConfig)
    ensures r.Valid? ==> r.value == BatchProcessorConfig(imageDir, outputDir, engineType, engineConfig,
      maxRetries.GetOr(3), extensions.GetOr(DefaultExtensions))
    ensures IsBlank(imageDir) ==> r.Invalid? && FieldIssue("image_dir", Custom(EmptyMessage("image_dir"))) in r.issues
    ensures IsBlank(outputDir) ==> r.Invalid? && FieldIssue("output_dir", Custom(EmptyMessage("output_dir"))) in r.issues
    ensures engineType !in EngineTypes ==> r.Invalid? && FieldIssue("engine_type", NotOneOf(EngineTypes)) in r.issues
    ensures maxRetries.Some? && maxRetries.value < 0 ==>
      r.Invalid? && FieldIssue("max_retries", BelowMinimum(0.0)) in r.issues
    ensures (&& !IsBlank(imageDir) && !IsBlank(outputDir) && engineType in EngineTypes && maxRetries.GetOr(3) >= 0
             && !IsInstanceOfExpected(engineType, engineConfig)) ==>
      r == Invalid([FieldIssue("", Custom(MismatchMessage(engineType, engineConfig)))])
  {
    var issues := ConfigFieldIssues(imageDir, outputDir, engineType, maxRetries);
    if issues != [] then Invalid(issues)
    else if !IsInstanceOfExpected(engineType, engineConfig) then
      Invalid([FieldIssue("", Custom(MismatchMessage(engineType, engineConfig)))])
    else Valid(BatchProcessorConfig(imageDir, outputDir, engineType, engineConfig,
      maxRetries.GetOr(3), extensions.GetOr(DefaultExtensions)))
  }
}
