/** The extraction engines as the processor sees them: what an engine holds, what one call
    of `extract_text` does, and the one concrete engine, engines/passthrough.py. */
module Engines {
  import opened Common
  import opened Paths
  import opened Settings

  /** An engine built by the factory, with the configuration it keeps. */
  datatype Engine =
    | DoclingEngine(docling: DoclingConfig)
    | LLMEngine(llm: LLMConfig)
    | APIEngine(api: APIConfig)
    | PassthroughEngine(origin: PassthroughOrigin)
  {
    /** `engine.config`. */
    function Config(): EngineConfig {
      match this
      case DoclingEngine(d) => Docling(d)
      case LLMEngine(l) => Llm(l)
      case APIEngine(a) => Api(a)
      case PassthroughEngine(o) => Passthrough(o)
    }
  }

  /** What one call of `extract_text` does: return text or raise. */
  datatype Extraction = Extracted(text: string) | Raised(error: Error)

  /** An engine's extraction behaviour. It is given every path passed to `extract_text`
      before this call, in order, and the path of this call, so an engine whose answer
      depends on earlier calls (one that fails its first k calls, say) is covered too. */
  type Behaviour = (seq<string>, string) -> Extraction

  /** What one call of `validate_config` does: return a flag or raise. */
  datatype Validation = Returned(ok: bool) | ValidationRaised(error: Error)

  /** `PassthroughEngine(config)`: a missing configuration is replaced by a fresh instance
      of the engine module's own `PassthroughConfig`. */
  function NewPassthroughEngine(config: Option<PassthroughOrigin>): (e: Engine)
    ensures e.PassthroughEngine? && e.Config().Passthrough?
    ensures config.Some? ==> e.origin == config.value
    ensures config.None? ==> e.origin == EngineModule
  {
    PassthroughEngine(config.GetOr(EngineModule))
  }

  const PassthroughLead: string := "Extracted text from "
  const PassthroughTrailer: string := "\n\nThis is dummy content for testing purposes."

  /** The text the passthrough engine returns for `imagePath`. */
  function PassthroughText(imagePath: string): string {
    PassthroughLead + Name(Parse(imagePath)) + PassthroughTrailer
  }

  /** The passthrough engine's `extract_text`: it never raises. */
  function PassthroughBehaviour(previous: seq<string>, imagePath: string): (r: Extraction)
    ensures r.Extracted?
    ensures r.text == PassthroughText(imagePath)
  {
    Extracted(PassthroughText(imagePath))
  }

  /** For a rendered path the text names the file's base name and nothing of its
      directories. */
  lemma PassthroughTextOfPath(p: Path)
    requires ValidPath(p)
    ensures PassthroughText(Str(p)) == PassthroughLead + Name(p) + PassthroughTrailer
  {
    ParseStr(p);
  }

  /** Two images with the same base name get the same text, wherever they are; two with
      different base names get different texts. */
  lemma PassthroughDependsOnlyOnName(p: Path, q: Path)
    requires ValidPath(p) && ValidPath(q)
    ensures PassthroughText(Str(p)) == PassthroughText(Str(q)) <==> Name(p) == Name(q)
  {
    PassthroughTextOfPath(p);
    PassthroughTextOfPath(q);
    var a, b := PassthroughText(Str(p)), PassthroughText(Str(q));
    if a == b {
      var n := |PassthroughLead|;
      assert a[n..|a| - |PassthroughTrailer|] == Name(p);
      assert b[n..|b| - |PassthroughTrailer|] == Name(q);
    }
  }

  /** `validate_config()`: the passthrough engine always accepts its configuration; for the
      other engines the outcome is `other`, which depends on libraries outside the model. */
  function ValidateConfig(e: Engine, other: Validation): (r: Validation)
    ensures e.PassthroughEngine? ==> r == Returned(true)
    ensures !e.PassthroughEngine? ==> r == other
  {
    if e.PassthroughEngine? then Returned(true) else other
  }

  /** The extraction behaviour of an engine: the passthrough engine's own, or `other` for
      the engines whose extraction lies outside the model. */
  function BehaviourOf(e: Engine, other: Behaviour): (b: Behaviour)
    ensures e.PassthroughEngine? ==> forall h, s :: b(h, s) == Extracted(PassthroughText(s))
    ensures !e.PassthroughEngine? ==> b == other
  {
    if e.PassthroughEngine? then PassthroughBehaviour else other
  }
}
