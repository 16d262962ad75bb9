/** core/factory.py: the engine registry and the factory that builds an engine from an
    engine type and a configuration. */
module Factory {
  import opened Common
  import opened Text
  import opened Settings
  import opened Engines

  /** `_ENGINE_REGISTRY`: engine type and engine class name, in insertion order. */
  const Registry: seq<(string, string)> := [
    ("docling", "DoclingEngine"),
    ("llm", "LLMEngine"),
    ("api", "APIEngine"),
    ("passthrough", "PassthroughEngine")
  ]

  predicate Registered(engineType: string) {
    exists i :: 0 <= i < |Registry| && Registry[i].0 == engineType
  }

  /** `get_supported_engines()`: the registry's keys in order. */
  function SupportedEngines(): (r: seq<string>)
    ensures |r| == |Registry|
    ensures forall i :: 0 <= i < |r| ==> r[i] == Registry[i].0
    ensures r == ["docling", "llm", "api", "passthrough"]
    ensures r == EngineTypes
  {
    seq(|Registry|, i requires 0 <= i < |Registry| => Registry[i].0)
  }

  /** A registered type is one of the supported engines. */
  lemma RegisteredIffSupported(engineType: string)
    ensures Registered(engineType) <==> engineType in SupportedEngines()
  {
    var s := SupportedEngines();
    if engineType in s {
      var i :| 0 <= i < |s| && s[i] == engineType;
      assert Registry[i].0 == engineType;
    }
  }

  /** The engine kind each registered type builds. */
  function EngineTypeOf(e: Engine): string {
    match e
    case DoclingEngine(_) => "docling"
    case LLMEngine(_) => "llm"
    case APIEngine(_) => "api"
    case PassthroughEngine(_) => "passthrough"
  }

  function UnsupportedMessage(engineType: string): string {
    "Unsupported engine type: " + Quote(engineType) + ". Supported types are: " + ReprList(SupportedEngines())
  }

  function MismatchMessage(engineType: string, expected: string, c: EngineConfig): string {
    "Engine type " + Quote(engineType) + " requires " + expected + ", got " + ClassName(c)
  }

  /** `EngineFactory.create_engine(engine_type, config)`. The configuration is checked by
      the NAME of its class, so both classes called PassthroughConfig pass. */
  function CreateEngine(engineType: string, config: EngineConfig): (r: Result<Engine>)
    ensures engineType !in SupportedEngines() ==>
      r == Err(Error(ValueError, UnsupportedMessage(engineType)))
    ensures engineType in SupportedEngines() ==>
      (r.Ok? <==> Some(ClassName(config)) == ExpectedClassName(engineType))
    ensures engineType in SupportedEngines() && r.Err? ==>
      r.error == Error(ValueError, MismatchMessage(engineType, ExpectedClassName(engineType).value, config))
    ensures r.Ok? ==> r.value.Config() == config && EngineTypeOf(r.value) == engineType
  {
    RegisteredIffSupported(engineType);
    if !Registered(engineType) then
      Err(Error(ValueError, UnsupportedMessage(engineType)))
    else if engineType == "docling" then
      if ClassName(config) != "DoclingConfig" then
        Err(Error(ValueError, MismatchMessage("docling", "DoclingConfig", config)))
      else Ok(DoclingEngine(config.docling))
    else if engineType == "llm" then
      if ClassName(config) != "LLMConfig" then
        Err(Error(ValueError, MismatchMessage("llm", "LLMConfig", config)))
      else Ok(LLMEngine(config.llm))
    else if engineType == "api" then
      if ClassName(config) != "APIConfig" then
        Err(Error(ValueError, MismatchMessage("api", "APIConfig", config)))
      else Ok(APIEngine(config.api))
    else if engineType == "passthrough" then
      if ClassName(config) != "PassthroughConfig" then
        Err(Error(ValueError, MismatchMessage("passthrough", "PassthroughConfig", config)))
      else Ok(PassthroughEngine(config.origin))
    else
      assert false;
      Err(Error(ValueError, "Unsupported engine type: " + Quote(engineType)))
  }

  /** The factory accepts either class called PassthroughConfig. */
  lemma FactoryAcceptsBothPassthroughConfigs(origin: PassthroughOrigin)
    ensures CreateEngine("passthrough", Passthrough(origin)) == Ok(PassthroughEngine(origin))
  {
  }

  /** The configuration's model validator refuses the engine module's PassthroughConfig,
      although that class bears the very name the factory asks for, so the factory would
      have accepted it. */
  lemma ValidatorRefusesEnginePassthroughConfig(imageDir: string, outputDir: string)
    requires !IsBlank(imageDir) && !IsBlank(outputDir)
    ensures NewBatchProcessorConfig(imageDir, outputDir, "passthrough", Passthrough(EngineModule), None, None)
      == Invalid([FieldIssue("", Custom(Settings.MismatchMessage("passthrough", Passthrough(EngineModule))))])
    ensures ClassName(Passthrough(EngineModule)) == ClassName(Passthrough(SettingsModule)) == "PassthroughConfig"
    ensures ExpectedClassName("passthrough") == Some(ClassName(Passthrough(EngineModule)))
    ensures CreateEngine("passthrough", Passthrough(EngineModule)).Ok?
  {
    var none: Option<int> := None;
    assert none.GetOr(3) == 3;
    assert "passthrough" in EngineTypes;
    assert !IsInstanceOfExpected("passthrough", Passthrough(EngineModule));
  }

  /** The validator accepts the settings module's PassthroughConfig. */
  lemma ValidatorAcceptsSettingsPassthroughConfig(imageDir: string, outputDir: string)
    requires !IsBlank(imageDir) && !IsBlank(outputDir)
    ensures NewBatchProcessorConfig(imageDir, outputDir, "passthrough", Passthrough(SettingsModule), None, None).Valid?
  {
    var none: Option<int> := None;
    assert none.GetOr(3) == 3;
    assert "passthrough" in EngineTypes;
    assert IsInstanceOfExpected("passthrough", Passthrough(SettingsModule));
  }
}
