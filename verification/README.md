# Image batch processor, modelled in Dafny

This project models the image-to-text batch processor of `phase_2/image_batch_processor`.
The processor finds the image files in a directory. It passes each image to an
extraction engine and writes the returned text to `<stem>.txt` in an output directory.
A failed attempt is retried with exponential back-off, and the batch ends with a report
of successes and failures. A five-step flow wraps the processor: it validates its inputs,
builds and checks the engine, counts the images, runs the batch and rebuilds the report
from its state.

No page-rectification code (spine detection, splitting, dewarping) exists in these
sources, so none is modelled.

Modules, one per source file, plus three shared ones:

| file | module | models |
|---|---|---|
| `common.dfy` | `Common` | `Option`, `Result`, the exception kinds, loosely typed values (`Dict`) |
| `text.dfy` | `Text` | `str.strip`, `str.lower`, string order and `sorted`, `repr` of strings and lists |
| `paths.dfy` | `Paths` | the part of `pathlib.Path` in use: `/`, `str`, `Path(s)`, `name`, `stem`, `suffix` |
| `file_utils.dfy` | `FileUtils` | `utils/file_utils.py` over a filesystem held as a map from paths to files and directories |
| `models.dfy` | `Models` | `core/models.py` |
| `settings.dfy` | `Settings` | `config/settings.py`: field bounds, construction from keywords, `BatchProcessorConfig` validation |
| `engines.dfy` | `Engines` | the engines as the processor sees them, and `engines/passthrough.py` |
| `factory.dfy` | `Factory` | `core/factory.py` |
| `processor.dfy` | `Processor` | `core/processor.py` |
| `state.dfy` | `FlowState` | `flow/state.py` and the result dictionaries the flow stores |
| `batch_flow.dfy` | `BatchFlow` | `flow/batch_flow.py` |

How the model is built:

- **Engine behaviour.** An engine's `extract_text` is a function from every path the
  engine has seen so far, plus the current path, to either text or an exception. This
  covers engines that fail their first k calls or fail on chosen files. The passthrough
  engine is the one concrete engine.
- **The world.** Processing threads a `World` through each step. It holds the
  filesystem, every path passed to the engine so far, and every `time.sleep` argument so
  far.
- **The retry loop.** `RetryLoop` follows the source's loop and carries the world from
  attempt to attempt. The independent reference `FromAttempt` looks at each attempt on
  its own, in the world that attempt starts in. `RetryLoopFrom` proves the two agree.
- **The flow.** The five flow steps are functions from state to state. `RunFlow` calls
  them in order and stops at the first error.

## Model

All source paths are relative to the repository root and sit under `phase_2/image_batch_processor/`.
Some functions model a single source expression and have no contract of their own. Their
meaning is stated by the rows of the members that use them:

- `BatchFlow.TotalTime` is the sum at `flow/batch_flow.py:235`. See `BatchFlow.GenerateReport`, `BatchFlow.TotalTimeNonNegative` and `BatchFlow.RunFlowTimeNonNegative`.
- `Text.Strip` is `v.strip()` at `config/settings.py:59`. See `Text.StripEmptyIffBlank` and `Settings.ValidateDir`.
- `Text.ReprList` is `str(list)` at `core/factory.py:45` and in the flow's messages. It applies `Text.Repr`, which has rows of its own, to each element.

| member | source | states |
|---|---|---|
| FileUtils.DiscoverImages | phase_2/image_batch_processor/utils/file_utils.py:25-41 | A missing directory gives ValueError "Directory does not exist: <dir>". An existing non-directory gives "Path is not a directory: <dir>". Existence is checked first. For a directory the result holds exactly the regular files directly inside it whose lower-cased suffix is among the lower-cased extensions. It is strictly sorted by name and has no duplicates. |
| FileUtils.ListImages | phase_2/image_batch_processor/utils/file_utils.py:32-41 | The listed paths are exactly the top-level regular files with a matching suffix; subdirectories and their contents are never listed. The list is strictly sorted by name. |
| FileUtils.ChildNames | phase_2/image_batch_processor/utils/file_utils.py:36 | `iterdir` yields a name exactly when that entry exists directly inside the directory |
| FileUtils.ImageNames | phase_2/image_batch_processor/utils/file_utils.py:36-38 | a name is kept exactly when it is a regular file whose suffix matches case-insensitively |
| FileUtils.DiscoverNothing | phase_2/image_batch_processor/utils/file_utils.py:35-41 | a directory with no matching file yields the empty list |
| FileUtils.DiscoverIgnoresDirs | phase_2/image_batch_processor/utils/file_utils.py:36-38 | discovery depends only on the files: two filesystems with the same files give the same result whatever their directories |
| FileUtils.DottedExtension | phase_2/image_batch_processor/utils/file_utils.py:62-63 | the extension used always starts with a dot; one that already does is kept as given, any other gets exactly one dot put in front |
| FileUtils.GenerateOutputFilename | phase_2/image_batch_processor/utils/file_utils.py:44-65 | the output name is the image's stem followed by the dotted extension, with the extension's own text after the dot |
| FileUtils.OutputNameDotOptional | phase_2/image_batch_processor/utils/file_utils.py:61-65 | "txt" and ".txt" give the same output name |
| FileUtils.OutputNameReplacesSuffix | phase_2/image_batch_processor/utils/file_utils.py:65 | Only the last suffix is replaced. The output's stem is the image's stem and its suffix is the new extension. The output's stem plus the old suffix is the image name again. |
| FileUtils.OutputNameExamples | phase_2/image_batch_processor/utils/file_utils.py:55-65 | photo.jpg gives photo.txt, for both "txt" and ".txt"; image.png gives image.md |
| FileUtils.OutputNameDotExamples | phase_2/image_batch_processor/utils/file_utils.py:55-65 | my.photo.v2.jpg gives my.photo.v2.txt (only the last suffix goes); a name with no suffix keeps its whole name as stem |
| FileUtils.NearestExisting | phase_2/image_batch_processor/utils/file_utils.py:90 | the longest existing prefix of the path; no longer prefix exists |
| FileUtils.NearestExistingIsDir | phase_2/image_batch_processor/utils/file_utils.py:90 | for a missing path, that prefix is a directory exactly when no proper prefix is a regular file |
| FileUtils.MakeDirs | phase_2/image_batch_processor/utils/file_utils.py:90 | `mkdir(parents=True)` makes the path a directory and keeps every existing entry. It adds only directories, and only prefixes of the path. |
| FileUtils.EnsureOutputDirectory | phase_2/image_batch_processor/utils/file_utils.py:83-90 | An existing directory leaves the filesystem unchanged. An existing file gives ValueError "Path exists but is not a directory: <p>". Otherwise the directory and its missing parents are created, and nothing else changes. |
| FileUtils.EnsureOutputDirectoryCreates | phase_2/image_batch_processor/utils/file_utils.py:89-90 | a missing directory is created exactly when no prefix of it is a file; otherwise `mkdir` raises OSError |
| FileUtils.EnsureOutputDirectoryIdempotent | phase_2/image_batch_processor/utils/file_utils.py:83-87 | ensuring the directory a second time changes nothing |
| FileUtils.SaveTextToFile | phase_2/image_batch_processor/utils/file_utils.py:108-109 | The write succeeds exactly when the parent is a directory and the path is not one, and the file then holds exactly the text, replacing any earlier content. No other entry changes and no directory appears or vanishes. A failure is an OSError. |
| Paths.Child | phase_2/image_batch_processor/core/processor.py:195 | `output_dir / name` has parent `output_dir` and name `name` |
| Paths.ParseStr | phase_2/image_batch_processor/engines/passthrough.py:46 | `Path(str(p))` is `p` again, so the engine's `Path(image_path).name` is the image's name |
| Paths.StemSuffixSplit | phase_2/image_batch_processor/utils/file_utils.py:37 | A name is its stem followed by its suffix. A suffix is empty, or a dot followed by at least one other character, none of them a dot. A name without a dot has no suffix. |
| Text.StripEmptyIffBlank | phase_2/image_batch_processor/config/settings.py:59 | `not v or not v.strip()` holds exactly when every character of `v` is whitespace |
| Text.SortedSeqOf | phase_2/image_batch_processor/utils/file_utils.py:41 | `sorted` returns the same elements, strictly increasing in Python's string order |
| Text.Lower | phase_2/image_batch_processor/utils/file_utils.py:32 | lower-casing keeps the length and maps each character on its own |
| Text.Quote | phase_2/image_batch_processor/core/factory.py:43 | the f-string `'{s}'` is the text between two single quotes, unchanged |
| Text.ReprQuote | phase_2/image_batch_processor/utils/file_utils.py:90 | `repr` quotes with a double quote exactly when the string holds a single quote and no double quote |
| Text.ReprChar | phase_2/image_batch_processor/utils/file_utils.py:90 | a character is written as itself exactly when it is neither the quote, a backslash nor an ASCII control character; those get a backslash escape |
| Text.Repr | phase_2/image_batch_processor/utils/file_utils.py:90 | the literal starts and ends with the quote `repr` chooses |
| Text.ReprRoundTrip | phase_2/image_batch_processor/utils/file_utils.py:90 | the literal `repr` writes reads back as the original string |
| Text.ReprOfPlain | phase_2/image_batch_processor/utils/file_utils.py:90 | a string with no single quote, backslash or control character is written between single quotes as it is |
| Models.NewProcessingResult | phase_2/image_batch_processor/core/models.py:7-16 | the defaults: no output path, no error, one attempt, zero time |
| Models.SuccessRate | phase_2/image_batch_processor/core/models.py:29-38 | The rate is 0 for an empty batch and otherwise successful / total, exactly. It lies in [0, 1] when 0 <= successful <= total. It is 1 when all succeeded and 0 when none did. |
| Models.CountSuccessful | phase_2/image_batch_processor/core/processor.py:81-92 | the count is at most the number of results; it equals it exactly when all succeeded and is 0 exactly when none did |
| Models.NoFailureIffAllSucceeded | phase_2/image_batch_processor/core/processor.py:80-92 | a consistent report counts no failure exactly when every result succeeded, and exactly when the successes equal the total |
| Models.ConsistentSuccessRate | phase_2/image_batch_processor/core/models.py:29-38 | For a consistent report (one result per image, each counted once) the rate is in [0, 1]. It is 1 exactly when there are images and none failed, and 0 exactly when no result succeeded. |
| Settings.ExpectedClassName | phase_2/image_batch_processor/config/settings.py:85-92 | an expected configuration class exists exactly for the four engine types |
| Settings.ConstructDocling | phase_2/image_batch_processor/config/settings.py:13-18 | a constructed DoclingConfig has `batch_size >= 1`; every refusal names a DoclingConfig field; a `batch_size` below 1 is refused |
| Settings.ConstructLLM | phase_2/image_batch_processor/config/settings.py:21-27 | a constructed LLMConfig has `max_tokens >= 1` and `0 <= temperature <= 2`; a missing `model_name` is refused |
| Settings.LLMRefusesOutOfRange | phase_2/image_batch_processor/config/settings.py:23-24 | a temperature below 0 or above 2, or a `max_tokens` below 1, is refused with an issue naming that field and its bound |
| Settings.ConstructAPI | phase_2/image_batch_processor/config/settings.py:30-36 | a constructed APIConfig has `timeout >= 1` and `max_retries >= 0`; a missing `api_url` or `api_key` is refused |
| Settings.APIRefusesOutOfRange | phase_2/image_batch_processor/config/settings.py:33-34 | a `timeout` below 1 or a negative `max_retries` is refused with an issue naming that field and its bound |
| Settings.ConstructDumpRoundTrip | phase_2/image_batch_processor/config/settings.py:13-36 | a configuration within its bounds is rebuilt unchanged from its own field dictionary |
| Settings.ConstructDefaults | phase_2/image_batch_processor/config/settings.py:15-36 | the smallest accepted argument sets (`{}`, a model name alone, a URL and key alone) give every other field its declared default |
| Settings.DoclingAcceptance | phase_2/image_batch_processor/config/settings.py:13-18 | Any keyword arguments are accepted exactly when every DoclingConfig field given has a value of its kind within its bounds. Each field then holds the value given, or its default when omitted. |
| Settings.LLMAcceptance | phase_2/image_batch_processor/config/settings.py:21-27 | Any keyword arguments are accepted exactly when `model_name` is a string and every other LLMConfig field given has a value of its kind within its bounds; an int is taken as a float. Each field then holds the value given, or its default when omitted. |
| Settings.APIAcceptance | phase_2/image_batch_processor/config/settings.py:30-36 | Any keyword arguments are accepted exactly when `api_url` and `api_key` are strings and every other APIConfig field given has a value of its kind within its bounds. Each field then holds the value given, or its default when omitted. |
| Settings.DoclingIgnoresUnknownKeys | phase_2/image_batch_processor/config/settings.py:13-18 | keyword arguments that name no DoclingConfig field change nothing |
| Settings.LLMIgnoresUnknownKeys | phase_2/image_batch_processor/config/settings.py:21-27 | keyword arguments that name no LLMConfig field change nothing |
| Settings.APIIgnoresUnknownKeys | phase_2/image_batch_processor/config/settings.py:30-36 | keyword arguments that name no APIConfig field change nothing |
| Settings.ValidateDir | phase_2/image_batch_processor/config/settings.py:55-69 | a directory field is refused with "<field> cannot be empty" exactly when blank, and otherwise returned unchanged |
| Settings.ConfigFieldIssues | phase_2/image_batch_processor/config/settings.py:46-80 | The field checks pass exactly when both directories are non-blank, the engine type is one of the four and `max_retries >= 0`. Each failure is reported under its own field: a blank directory with "<field> cannot be empty", an unknown engine type with the four allowed, and a negative `max_retries` with its bound 0. |
| Settings.NewBatchProcessorConfig | phase_2/image_batch_processor/config/settings.py:44-102 | The configuration is valid exactly when the field checks pass and the engine configuration is an instance of the class its engine type requires. Defaults are 3 retries and the five extensions. A blank directory, an unknown engine type or a negative `max_retries` is named among the issues. The model validator's message "engine_type 'X' requires Y, got Z" is reported only when every field passed. |
| Engines.NewPassthroughEngine | phase_2/image_batch_processor/engines/passthrough.py:26-33 | a missing configuration is replaced by the engine module's own PassthroughConfig; a given one is kept |
| Engines.PassthroughBehaviour | phase_2/image_batch_processor/engines/passthrough.py:36-54 | extraction never raises and returns "Extracted text from <name>" followed by the fixed trailer |
| Engines.PassthroughTextOfPath | phase_2/image_batch_processor/engines/passthrough.py:46-50 | for a rendered path, the text names the file's base name |
| Engines.PassthroughDependsOnlyOnName | phase_2/image_batch_processor/engines/passthrough.py:46-50 | two images get the same text exactly when their base names are equal, whatever their directories |
| Engines.ValidateConfig | phase_2/image_batch_processor/engines/passthrough.py:56-64 | the passthrough engine's `validate_config` always returns True |
| Engines.BehaviourOf | phase_2/image_batch_processor/core/processor.py:127 | the processor calls the passthrough engine's own extraction for a passthrough engine |
| Factory.SupportedEngines | phase_2/image_batch_processor/core/factory.py:90-97 | exactly ["docling", "llm", "api", "passthrough"], in registry order, the same list the configuration admits |
| Factory.RegisteredIffSupported | phase_2/image_batch_processor/core/factory.py:20-25 | a type is in the registry exactly when it is a supported engine |
| Factory.CreateEngine | phase_2/image_batch_processor/core/factory.py:42-87 | An unknown type gives ValueError "Unsupported engine type: 'X'. Supported types are: [...]" whatever the configuration; this check comes before the class check. A known type succeeds exactly when the configuration's class name is the expected one, and otherwise gives the mismatch ValueError. On success the engine matches the type and holds the exact configuration. The final raise is unreachable. |
| Factory.FactoryAcceptsBothPassthroughConfigs | phase_2/image_batch_processor/core/factory.py:77-84 | the factory accepts either class named PassthroughConfig, because it compares class names |
| Factory.ValidatorRefusesEnginePassthroughConfig | phase_2/image_batch_processor/config/settings.py:82-100 | The configuration validator, which uses `isinstance`, refuses the engine module's PassthroughConfig. That class bears the name PassthroughConfig, as the settings module's class does, so the factory, which compares names, accepts it. |
| Factory.ValidatorAcceptsSettingsPassthroughConfig | phase_2/image_batch_processor/config/settings.py:82-102 | the validator accepts the settings module's PassthroughConfig |
| Processor.NewBatchProcessor | phase_2/image_batch_processor/core/processor.py:22-46 | `max_retries` defaults to 3; an omitted or empty extension list becomes the five defaults |
| Processor.OutputPathFor | phase_2/image_batch_processor/core/processor.py:194-195 | the output file sits directly in the output directory, named `<stem>.txt` |
| Processor.SaveText | phase_2/image_batch_processor/core/processor.py:182-200 | saving succeeds exactly when the output directory exists and the output path is not a directory; the file then holds the text and no directory changes |
| Processor.TryOnce | phase_2/image_batch_processor/core/processor.py:125-141 | One pass through the `try` calls the engine once with `str(image_path)`. It succeeds exactly when the engine returns text and that text can be saved. A failed pass leaves the filesystem as it was. |
| Processor.RetryLoop | phase_2/image_batch_processor/core/processor.py:124-180 | the result names the image and carries its time; the filesystem stays well formed and its directories unchanged |
| Processor.RetryNone | phase_2/image_batch_processor/core/processor.py:124-180 | with no attempt allowed the loop ends at once with "Unknown error" |
| Processor.RetrySaved | phase_2/image_batch_processor/core/processor.py:130-141 | an attempt that succeeds ends the loop with that attempt's number and output path |
| Processor.RetryFailedEarly | phase_2/image_batch_processor/core/processor.py:143-169 | a failed attempt before the last waits 2^(k-1) seconds, then continues with the next attempt and that failure as the last error |
| Processor.RetryFailedLast | phase_2/image_batch_processor/core/processor.py:154-180 | a failed last attempt ends the loop without a wait, reporting its message |
| Processor.RetryLoopFrom | phase_2/image_batch_processor/core/processor.py:124-180 | the loop that threads the world agrees with the reference that reads each attempt on its own |
| Processor.FromAttemptSucceeds | phase_2/image_batch_processor/core/processor.py:124-141 | the reference succeeds exactly when some attempt from k to `max_retries` succeeds |
| Processor.FromAttemptFirst | phase_2/image_batch_processor/core/processor.py:124-141 | on success the reference reports the first successful attempt |
| Processor.FromAttemptSucceededAt | phase_2/image_batch_processor/core/processor.py:134-141 | on success the result and world are those of the reported attempt |
| Processor.FromAttemptFails | phase_2/image_batch_processor/core/processor.py:171-180 | on failure the reference reports the exhausted loop |
| Processor.ProcessSingleImage | phase_2/image_batch_processor/core/processor.py:110-180 | the result names the image and carries its time; no directory appears or vanishes |
| Processor.ProcessSingleImageSpec | phase_2/image_batch_processor/core/processor.py:120-180 | Success comes exactly when some attempt within `max_retries` extracts and saves. Then `attempts` is the first such attempt, the engine was called that many times, and the waits were 1, 2, 4, ... seconds. The output path is `output_dir/<stem>.txt` holding that attempt's text, and there is no error. On failure `attempts == max_retries` and there is no output path. The error is the last attempt's message, or "Unknown error" when none was made. The engine was called `max_retries` times and no wait followed the last attempt. |
| Processor.NoAttemptsAllowed | phase_2/image_batch_processor/core/processor.py:121-180 | with `max_retries <= 0` the engine is never called, nothing waits and the error is "Unknown error" |
| Processor.SaveFailureIsRetried | phase_2/image_batch_processor/core/processor.py:125-169 | a failure to save is retried like an extraction failure; the result reports the save's OSError after every attempt |
| Processor.ProcessAll | phase_2/image_batch_processor/core/processor.py:75-79 | one result per image; no directory appears or vanishes |
| Processor.ProcessAllInOrder | phase_2/image_batch_processor/core/processor.py:75-79 | the results come in discovery order: the i-th names the i-th image and carries that image's elapsed time |
| Processor.Tally | phase_2/image_batch_processor/core/processor.py:72-92 | the success counter is the number of successful results and both counters together count every result |
| Processor.ProcessBatch | phase_2/image_batch_processor/core/processor.py:48-108 | The output directory is ensured first and discovery runs second; an error from either propagates. Otherwise the results are those of the discovered images in order. The report is consistent: `len(results) == total_images`, successful equals the number of successful results, and successful + failed == total. |
| Processor.PassthroughFirstAttempt | phase_2/image_batch_processor/engines/passthrough.py:46-54 | with the passthrough engine and a free output path, an image succeeds on its first attempt |
| Processor.PassthroughAllSucceed | phase_2/image_batch_processor/core/processor.py:75-79 | with the passthrough engine and an output directory without subdirectories, every image succeeds on its first attempt |
| Processor.OutputDirectoryReady | phase_2/image_batch_processor/utils/file_utils.py:83-90 | When no file sits at the output path or above it, ensuring the output directory succeeds, whether or not it existed. Afterwards it is a directory, every directory there before is still there, and if it held no subdirectory it still holds none. |
| Processor.BatchAfterOutputDirectory | phase_2/image_batch_processor/core/processor.py:61-66 | Once the output directory can be ensured and the image directory exists, the batch cannot fail. Its report is consistent and holds the results of exactly the images discovery finds in the filesystem with the output directory in place. |
| Processor.FirstTimeReport | phase_2/image_batch_processor/core/processor.py:80-92 | a consistent report whose results all succeeded on the first attempt counts no failure and every image as a success |
| Processor.PassthroughBatch | phase_2/image_batch_processor/core/processor.py:48-108 | With the passthrough engine, an existing image directory and an output path that no file blocks and that holds no subdirectory, the batch report has no failure. Every image counts as a success with one attempt. This holds whether or not the output directory existed before. |
| FlowState.NewState | phase_2/image_batch_processor/flow/state.py:26-34 | Construction succeeds exactly when no counter given is negative, and a negative counter is reported. The defaults are "", "", "docling", {}, four zeros and []. |
| FlowState.DefaultState | phase_2/image_batch_processor/flow/state.py:26-34 | the state built with no arguments holds every default |
| FlowState.Assign | phase_2/image_batch_processor/flow/state.py:30-40 | Assigning a counter succeeds exactly when the value is non-negative, and a refusal names the counter. On success the counter is set and nothing else changes. |
| FlowState.AssignKeepsCounters | phase_2/image_batch_processor/flow/state.py:30-40 | validated assignment keeps every counter non-negative |
| FlowState.ResultToDict | phase_2/image_batch_processor/flow/batch_flow.py:192-202 | the stored dictionary has exactly the six result keys |
| FlowState.DictToResult | phase_2/image_batch_processor/flow/batch_flow.py:222-232 | a rebuild succeeds only when all six keys are present; a missing `image_path` raises KeyError |
| FlowState.ResultRoundTrip | phase_2/image_batch_processor/flow/batch_flow.py:192-232 | storing a result and rebuilding it gives back all six fields |
| FlowState.DictRoundTrip | phase_2/image_batch_processor/flow/batch_flow.py:222-232 | a dictionary that rebuilds agrees with the rebuilt result's dictionary on every stored key |
| BatchFlow.InitializeWorkflow | phase_2/image_batch_processor/flow/batch_flow.py:65-106 | The checks run in order: image directory exists, it is a directory, engine type supported, at least one image, output path not an existing non-directory. The first failing check gives a ValidationError with its message. Success happens exactly when all pass, and returns the discovered images. |
| BatchFlow.MissingDirMessage | phase_2/image_batch_processor/flow/batch_flow.py:70 | the message is "Image directory does not exist: " followed by the directory |
| BatchFlow.NotDirMessage | phase_2/image_batch_processor/flow/batch_flow.py:73 | the message is "Image path is not a directory: " followed by the path |
| BatchFlow.DirMessagesDiffer | phase_2/image_batch_processor/flow/batch_flow.py:69-73 | a missing image directory and an image path that is a file never give the same message; a small consequence of the two message heads, not a model of behaviour |
| BatchFlow.InitializeWorkflowMessages | phase_2/image_batch_processor/flow/batch_flow.py:68-101 | every refusal carries one of the five checks' messages |
| BatchFlow.DiscoveryRewrapUnreachable | phase_2/image_batch_processor/flow/batch_flow.py:86-94 | the "Error discovering images" rewrap never reaches the caller: discovery of an existing directory cannot fail |
| BatchFlow.CreateEngineConfig | phase_2/image_batch_processor/flow/batch_flow.py:272-286 | Each engine type is built into its own class; passthrough always gives the settings module's PassthroughConfig. An unknown type or a refused field becomes ConfigurationError "Failed to create X config: ...", and the inner "Unknown engine type: X" is rewrapped. A built configuration is an instance of the class its type requires. |
| BatchFlow.CreateEngineConfigFromDump | phase_2/image_batch_processor/flow/batch_flow.py:272-278 | a configuration's own field dictionary builds that configuration again |
| BatchFlow.FlowConfigPassesFactory | phase_2/image_batch_processor/flow/batch_flow.py:128-134 | every configuration the flow builds passes the factory's class check, so "Failed to create engine" is never raised |
| BatchFlow.CreateEngine | phase_2/image_batch_processor/flow/batch_flow.py:119-143 | Engine creation succeeds exactly when the configuration builds and `validate_config` does not raise; a returned False is not an error. The engine matches the type and holds the built configuration. A raising `validate_config` gives ConfigurationError "Engine validation failed for X: ...". |
| BatchFlow.DiscoverStep | phase_2/image_batch_processor/flow/batch_flow.py:154-160 | the step succeeds exactly when the image directory is a directory, and then stores the number of images found in `total_images`; a discovery error propagates |
| BatchFlow.ResultDicts | phase_2/image_batch_processor/flow/batch_flow.py:192-202 | one dictionary per result, in the same order |
| BatchFlow.FlowProcessor | phase_2/image_batch_processor/flow/batch_flow.py:174-180 | the flow's processor uses the state's output directory, three attempts and the five default extensions |
| BatchFlow.RecordReport | phase_2/image_batch_processor/flow/batch_flow.py:187-202 | The three counter assignments take the report's total, successful and failed counts. The results are stored as one dictionary each, and nothing else in the state changes. |
| BatchFlow.ProcessImages | phase_2/image_batch_processor/flow/batch_flow.py:174-202 | The step runs the batch with the flow's engine. It copies total, successful and failed into `processed_images`, `successful` and `failed`, and stores one dictionary per result. Other fields are unchanged and counters stay non-negative. |
| BatchFlow.RebuildResults | phase_2/image_batch_processor/flow/batch_flow.py:222-232 | The rebuild succeeds exactly when every dictionary rebuilds, keeping order. Otherwise the first dictionary that fails raises its error. |
| BatchFlow.RebuildStored | phase_2/image_batch_processor/flow/batch_flow.py:192-232 | the stored dictionaries rebuild to exactly the processor's results |
| BatchFlow.TotalTimeNonNegative | phase_2/image_batch_processor/flow/batch_flow.py:235 | the summed time of non-negative times is non-negative |
| BatchFlow.RunFlowTimeNonNegative | phase_2/image_batch_processor/flow/batch_flow.py:145-243 | when no image's elapsed time is negative, a finished run's report has a non-negative total time |
| BatchFlow.GenerateReport | phase_2/image_batch_processor/flow/batch_flow.py:222-243 | the report takes its counts from the state and its results from the rebuild; its time is the sum of the results' times |
| BatchFlow.RunFlow | phase_2/image_batch_processor/flow/batch_flow.py:51-252 | the steps run in order; a validation or engine error ends the run before the filesystem is touched |
| BatchFlow.DiscoveryAfterOutputDirectory | phase_2/image_batch_processor/core/processor.py:62-65 | creating the output directory does not change which images are found, so the flow's count and the processor's agree |
| BatchFlow.RunFlowConsistent | phase_2/image_batch_processor/flow/batch_flow.py:145-243 | A finished run's report is consistent, with one result per image the flow counted. Its time is the sum of the results' times, and the state says every counted image was processed. |
| BatchFlow.RunFlowReportsBatch | phase_2/image_batch_processor/flow/batch_flow.py:174-243 | once validation and engine creation pass, the run reports exactly when the batch does, and its report carries the batch's successes, failures and results |
| BatchFlow.PassthroughFlow | phase_2/image_batch_processor/flow/batch_flow.py:51-252 | With the passthrough engine, valid inputs and an output path that no file blocks and that holds no subdirectory, the run succeeds, whether or not the output directory existed. At least one image is found, every image succeeds on its first attempt and none fails. |

## Left out

- Logging, `main.py`, and the CrewAI `@start`/`@listen` wiring are left out. `RunFlow` calls the five step bodies in their declared order and lets the first exception end the run.
- Time is a parameter, because the clock is outside the program. Each image's elapsed time comes from a function of the image, and the batch's elapsed time from a number. `time.sleep` is recorded as its argument in the world and nothing waits.
- The docling, llm and api engines are left out: their extraction and `validate_config` depend on outside libraries, or are stubs that raise. They appear only as an arbitrary extraction behaviour and an arbitrary validation outcome. `engines/docling.py`, `engines/llm.py`, `engines/api.py` and `engines/base.py` are not part of this model.
- Float arithmetic is modelled over `real`. `success_rate`, the elapsed times and the summed `processing_time` are exact in the model. Python's float rounding is not.
- Paths are always read from the filesystem root. `Path("")` and other relative paths are not resolved against a working directory, so a message shows `/images` where Python would show `images`.
- A `..` component is kept as an ordinary name and is never resolved. So a path through `..` names a different entry from the one the operating system would reach. For example, `/a/..` is looked up as its own entry, not as `/`, and ensuring `/out/../x` creates `/out`, `/out/..` and `/out/../x` rather than `/x`. A path written with exactly two leading slashes, which `PurePosixPath` keeps (`//a`), prints with one slash.
- Names and texts are sequences of Unicode scalar values, so no name or text can hold a lone surrogate. Non-UTF-8 filenames are not modelled: on Linux `iterdir` decodes them with surrogate escapes. Nor is the UnicodeEncodeError that `write_text(..., encoding='utf-8')` raises for such text, after it has already opened (and so emptied) the file. So `Processor.PassthroughBatch` and `BatchFlow.PassthroughFlow` hold only for directories whose file names decode as UTF-8. A name that does not would make the passthrough text unencodable, and that image would fail after every attempt, leaving an empty `.txt`.
- Processor.PassthroughBatch: promises success only for file names that decode as UTF-8, as the previous line explains.
- BatchFlow.PassthroughFlow: the same restriction as `Processor.PassthroughBatch`.
- The filesystem is a map from paths to files and directories. Permissions, symbolic links, other file kinds and a full disk are left out. So are other processes acting concurrently, and the ordering of `iterdir`, which is irrelevant after `sorted`.
- `Path.suffix` and `Path.stem` follow the CPython 3.8–3.12 rule: the last dot counts unless it leads or ends the name.
- Text.Lower: lower-cases ASCII letters only; non-ASCII case mapping is not modelled.
- Python's whitespace set for `strip` is listed character by character. Python's full string comparison is modelled as lexicographic order on code points.
- Pydantic's lax coercions (a string "3" accepted as an int, say) are not modelled. Each field accepts values of its own kind only; a float field also accepts an int.
- The wording of pydantic's validation error text is not reproduced. `BatchFlow.PydanticText` lists the class and the fields at fault instead, and the issues themselves are modelled exactly.
- FlowState.DictToResult: a value of the wrong kind under one of the six keys is reported as a type error. Python would build the dataclass anyway, since dataclasses do not check types, so this is stricter than the source. The flow only ever rebuilds dictionaries it stored itself, so the path is not taken there (`BatchFlow.RebuildStored`).
- FlowState.NewState: only the counters are validated, because the other fields take any value of their type. The ensures name the `total_images` and `failed` refusals explicitly; the other two counters are covered by the iff.
- Processor.ProcessSingleImage: its own contract is light. The full promise is proved separately, as `Processor.ProcessSingleImageSpec`, which keeps each proof small.
- Processor.RetryLoop: its own contract is light for the same reason. The full promise is proved through `Processor.RetryLoopFrom`.
- The engines are modelled without filesystem effects: extraction reads nothing and writes nothing. The docling engine's debug output directories and files are not modelled. The frame facts of `Processor.TryOnce`, `Processor.ProcessSingleImage`, `Processor.RetryLoop` and `Processor.ProcessAll` (only the output file changes, no directory appears or vanishes) rely on this.
- Text.Repr: characters above ASCII are written as themselves. Python escapes the non-printable ones among them (`\x80`–`\x9f`, `\u2028` and the like), so the model's OSError messages differ from Python's for such paths.
- Processor.ProcessAll: its own contract gives the count and the unchanged directories only. The order of the results is proved separately, as `Processor.ProcessAllInOrder`.
- The two `except` branches of the retry loop act alike apart from their log lines, so the model has one failure path. A `BaseException` that is not an `Exception`, such as KeyboardInterrupt, is left out.
- The flow never builds a `BatchProcessorConfig`, so its validation is modelled on its own. The processor's `logger` parameter is left out.
- `exceptions.py` appears only as the kinds in `Common.ErrorKind`.
