# Chronicle logger, modelled in Dafny

Chronicle's `Logger` is a thin facade over the Rerun visualisation SDK. It
keeps one piece of mutable state, the entity-path prefix. It composes the
entity path of every record from that prefix and a relative path. It
forwards text lines, scalars, images, dictionaries and timeline updates to
the backend. Its `context` scope extends the prefix for the duration of a
`with` block and restores it on every exit.

The model has five modules:

- `Wrappers`: `Option`, Python's `None` versus a present value.
- `Paths`: the pure path rules:
  - `_get_path`, including Python's `str.strip("/")`;
  - the prefix that `context` sets.
- `Sink`: the backend as a trace of calls: `Init`, `Save`, `Log` and `SetTime`, with the record archetypes.
- `Chronicle`: the `Logger` class and the constructor's configuration defaults. It also gives a small statement language (`Call`) for the body of a `with` block, with a pure effect semantics (`Exec`) that the imperative `Run` is proved against.
  - The class holds the mutable `entityPrefix`.
  - Three ghost fields hold the calls this logger made (`events`), the timelines it set (`timelines`), and the stack of open `context` scopes (`scopes`).
- `Scenarios`: the usages the logger's own documentation and example script describe, checked against the class contracts.

Path composition follows the code exactly. `strip("/")` removes only leading
and trailing slashes. So prefix `"a/b/"` with path `"/c"` gives `"a/b///c"`
(`Paths.PathInteriorExample`): the code at chronicle/logger.py:43 does not
collapse interior slashes. `context` applies no normalisation at all: it
concatenates.

## Model

| member | source | states |
|---|---|---|
| Paths.Strip | chronicle/logger.py:43 | `strip("/")`: the result has no slash at either end, and it is the input with a run of leading slashes and a run of trailing slashes cut off |
| Paths.StripCharacterised | chronicle/logger.py:43 | a string equals `Strip(s)` exactly when it is `s` with edge slash runs cut and no edge slash remains; the strip result is unique |
| Paths.GetPath | chronicle/logger.py:40-44 | with an empty prefix the path is returned unchanged; otherwise the result is `prefix + "/" + path` with its edge slashes stripped, and it never starts or ends with `/` |
| Paths.GetPathJoinsExactly | chronicle/logger.py:41-43 | when the prefix does not start with `/` and the path does not end with `/`, the result is exactly `prefix/path`, every interior slash kept |
| Paths.GetPathKeepsInterior | chronicle/logger.py:41-43 | when prefix and path each hold a non-slash character, only the prefix's leading slashes and the path's trailing slashes are removed |
| Paths.PathInteriorExample | chronicle/logger.py:43 | prefix `"a/b/"` with path `"/c"` gives `"a/b///c"`; prefix `"a/b"` with `"c"` gives `"a/b/c"` |
| Paths.ScopedPrefix | chronicle/logger.py:126-131 | entering a scope sets the prefix to `old/segment` when the old prefix is non-empty, else to the segment, with nothing stripped |
| Paths.ScopeActsAsPathPrefix | chronicle/logger.py:128-131 | under a non-empty prefix, logging `path` inside scope `segment` gives the same entity path as logging `segment/path` outside it |
| Paths.ScopesCompose | chronicle/logger.py:128-131 | nested scopes `a` then `b` give the same prefix as the single scope `a/b`, unless both the old prefix and `a` are empty |
| Paths.DocstringContextPath | chronicle/logger.py:122-124 | with prefix `original_prefix`, `loss` logged in scope `training/epoch_5` lands at `original_prefix/training/epoch_5/loss` |
| Paths.ValidationAccuracyPath | chronicle/examples/example_usage.py:48-50 | with no prefix, `metrics/accuracy` inside scope `validation_phase` lands at `validation_phase/metrics/accuracy` |
| Paths.ValidationInfoPath | chronicle/examples/example_usage.py:48-51 | the info line inside the same scope lands at `validation_phase/logs/info` |
| Chronicle.InitialPrefix | chronicle/logger.py:29 | `entity_prefix or ""`: the prefix is empty exactly when it was absent or empty; any other prefix is kept as given |
| Chronicle.SpawnFlag | chronicle/logger.py:30-32 | the viewer is spawned unless a configuration is given whose `spawn_viewer` is `False`; an absent key defaults to `True` |
| Chronicle.StartupEvents | chronicle/logger.py:32-38 | `Init(application_id, spawn)` comes first; a second call `Save(save_path)` is made exactly when `save_path` is present and non-empty |
| Chronicle.Exec | chronicle/logger.py:109-136 | a block raises exactly when one of its statements, or of its nested blocks, raises (`Raises`); the empty block does nothing |
| Chronicle.ExecCall | chronicle/logger.py:46-136 | one statement raises exactly when it is a `raise` or a `with` block whose body raises |
| Chronicle.ExecAppend | chronicle/logger.py:109-136 | running `a + b` runs `a`, then runs `b` only if `a` did not raise, starting from the timelines `a` left; the traces concatenate |
| Chronicle.BatchIsTransparent | chronicle/logger.py:109-115 | `with batch(): body` has exactly the effect of `body` |
| Chronicle.ContextThenRest | chronicle/logger.py:126-136 | the body of `with context(seg)` runs under the scoped prefix. If it raised, the statements after the block do not run. Otherwise they run under the original prefix |
| Chronicle.ExecOnlyLogsAndTimes | chronicle/logger.py:46-107 | the logging methods only log records and set timelines: no block re-initialises the backend or saves |
| Chronicle.ExecKeepsTimelines | chronicle/logger.py:75-76 | every timeline set before a block is still set after it |
| Chronicle.Logger.constructor | chronicle/logger.py:17-38 | stores the application id and `config or {}`, sets the prefix to `InitialPrefix`, issues exactly `StartupEvents`, no timeline set, no scope open |
| Chronicle.Logger.Info | chronicle/logger.py:46-48 | appends one `TextLog(message, "INFO")` at `GetPath(prefix, "logs/info")`; prefix, timelines and scopes unchanged |
| Chronicle.Logger.Warning | chronicle/logger.py:50-52 | appends one `TextLog(message, "WARN")` at `GetPath(prefix, "logs/warning")`; level is `WARN`, not `WARNING`; nothing else changes |
| Chronicle.Logger.Debug | chronicle/logger.py:54-56 | appends one `TextLog(message, "DEBUG")` at `GetPath(prefix, "logs/debug")`; nothing else changes |
| Chronicle.Logger.Error | chronicle/logger.py:58-60 | appends one `TextLog(message, "ERROR")` at `GetPath(prefix, "logs/error")`; nothing else changes |
| Chronicle.Logger.Critical | chronicle/logger.py:62-64 | appends one `TextLog(message, "CRITICAL")` at `GetPath(prefix, "logs/critical")`; nothing else changes |
| Chronicle.Logger.LogScalar | chronicle/logger.py:66-78 | with a step, `SetTime("step", Sequence(step))` then the `Scalars` record, and the `step` timeline moves. Without a step, only the record is appended and no timeline moves. The prefix is unchanged |
| Chronicle.Logger.LogImage | chronicle/logger.py:80-88 | appends one `Image` record at the composed path; nothing else changes |
| Chronicle.Logger.LogDict | chronicle/logger.py:90-99 | appends one `TextDocument` at the composed path with media type `text/markdown`. Its content is the JSON serialisation, or the `str` fallback when serialisation raises. Nothing else changes |
| Chronicle.Logger.SetTimeSequence | chronicle/logger.py:101-103 | appends `SetTime(timeline, Sequence(step))`; only the named timeline moves |
| Chronicle.Logger.SetTimeSeconds | chronicle/logger.py:105-107 | appends `SetTime(timeline, Timestamp(time))`; only the named timeline moves |
| Chronicle.Logger.EnterContext | chronicle/logger.py:126-131 | returns a token holding the saved prefix. The prefix becomes `ScopedPrefix(old, segment)` and the token is pushed on the open scopes. Trace and timelines are unchanged, and scope nesting is kept |
| Chronicle.Logger.ExitContext | chronicle/logger.py:133-136 | restores exactly the prefix saved by the innermost open scope and pops it; nothing else changes |
| Chronicle.Logger.Context | chronicle/logger.py:117-136 | `with context(seg): body` appends exactly the calls `body` makes under the scoped prefix. It returns whether the body raised, and the prefix and open scopes are restored on both exits |
| Chronicle.Logger.Batch | chronicle/logger.py:109-115 | `with batch(): body` appends exactly the calls `body` makes, with the prefix and scopes unchanged |
| Chronicle.Logger.Step | chronicle/logger.py:46-107 | one statement makes exactly the calls `ExecCall` describes and leaves the prefix and scopes as they were |
| Chronicle.Logger.Run | chronicle/logger.py:133-136 | runs a block statement by statement up to the first raise. The trace grows by exactly `Exec(prefix, timelines, body).trace`, the prefix and scopes are restored, and it reports whether the block raised |
| Scenarios.DocstringExample | chronicle/logger.py:122-124 | a logger with prefix `original_prefix` logs `loss` inside `context("training/epoch_5")` at `original_prefix/training/epoch_5/loss`, and its prefix is restored afterwards |
| Scenarios.ValidationPhaseExample | chronicle/examples/example_usage.py:47-51 | the example's `validation_phase` block makes exactly `SetTime(step, 1)`, the accuracy scalar and the info line at the scoped paths, and the prefix is empty again afterwards |
| Scenarios.NestedScopesRestore | chronicle/logger.py:126-136 | exiting the inner scope gives back the outer scope's prefix; exiting the outer one gives back the original prefix |
| Scenarios.StepPersists | chronicle/logger.py:75-78 | the `step` timeline keeps its value across a text line and a scalar logged without a step |
| Scenarios.RestoreAfterRaise | chronicle/logger.py:133-136 | after a body that raises inside `context`, the prefix is restored and the next scalar is logged under the original prefix |

## Left out

- The Rerun SDK itself is not modelled: `rr.init`, `rr.save`, `rr.log`, `rr.set_time` and the archetype constructors. Each call is one event appended to the ghost trace, and every call is assumed to succeed. Failures raised by the SDK are not modelled.
- `json.dumps(dictionary, indent=2, default=str)` and `str(dictionary)` in `log_dict` are library calls on arbitrary Python objects. They are parameters of `LogDict`: `None` from `dumps` stands for a raised exception.
- Image arrays are handed through unchecked; `ImageData` is an opaque value.
- Float payloads (scalar values, timestamps) are carried as `real` with no arithmetic on them. NaN and infinities are not represented.
- A `spawn_viewer` value that is not a boolean, and a `save_path` that is neither a string nor `None`, are not representable. Only `None`, `""` and non-empty strings are modelled for `save_path` truthiness.
- The application id is not validated by the logger and not by the model either.
- The backend recording and its timeline state are process-global in Rerun. `rr.init` (chronicle/logger.py:35) replaces the global recording, and every later `rr.log` and `rr.set_time` goes to it. So two `Logger` instances share one trace and one set of timelines, and a second constructor redirects the first logger's records. The model keeps the calls and timelines per logger, so it does not capture this sharing between loggers.
- Concurrent use of one logger from several threads is not modelled. The shared prefix makes `context` unsafe across threads, and the model is sequential.
- `log_dict` statements are not part of the `Call` language used for `with` bodies, because `log_dict` takes higher-order parameters. Its effect is stated by `Chronicle.Logger.LogDict` alone.
- chronicle/examples/example_usage.py and chronicle/test_rerun.py are scripts with no logic of their own. Only the `validation_phase` block of the example is used, as a scenario.
- Chronicle.Logger.ExitContext: requires the token of the innermost open scope. A `with` statement always exits in that order, so out-of-order exit is not modelled.
