/**
 * The chronicle `Logger`: a thin facade over the Rerun SDK that keeps a
 * mutable entity-path prefix, composes the path of every record from it, and
 * forwards calls to the backend.
 *
 * Two ghost fields of the logger record what it did to the backend: the
 * ordered trace of calls it made (`events`) and the current coordinate of
 * every timeline it set (`timelines`). A ghost stack of context tokens
 * (`scopes`) records the `context` blocks that are open, innermost last.
 */
module Chronicle {
  import opened Wrappers
  import opened Paths
  import opened Sink

  /** The recognised keys of the logger's `config` dictionary; `None` is an absent key. */
  datatype Config = Config(spawnViewer: Option<bool>, savePath: Option<string>)

  /** `entity_prefix or ""`: an absent or empty prefix becomes "", any other is kept. */
  function InitialPrefix(entityPrefix: Option<string>): (r: string)
    ensures r == "" <==> entityPrefix.None? || entityPrefix.value == ""
    ensures entityPrefix.Some? ==> r == entityPrefix.value
  {
    entityPrefix.GetOr("")
  }

  /** `config.get("spawn_viewer", True)`: the viewer is spawned unless explicitly disabled. */
  function SpawnFlag(config: Option<Config>): (spawn: bool)
    ensures !spawn <==> config.Some? && config.value.spawnViewer == Some(false)
  {
    config.GetOr(Config(None, None)).spawnViewer.GetOr(true)
  }

  /**
   * The backend calls the constructor makes: one `Init` with the application
   * id and the spawn flag, then a `Save` only when `save_path` is a non-empty
   * string (an absent, `None` or "" path is falsy and issues no save).
   */
  function StartupEvents(applicationId: string, config: Option<Config>): (es: seq<Event>)
    ensures 1 <= |es| <= 2 && es[0] == Init(applicationId, SpawnFlag(config))
    ensures |es| == 2 <==> config.Some? && config.value.savePath.Some? && config.value.savePath.value != ""
    ensures |es| == 2 ==> es[1] == Save(config.value.savePath.value)
  {
    var savePath := config.GetOr(Config(None, None)).savePath.GetOr("");
    [Init(applicationId, SpawnFlag(config))] + (if savePath != "" then [Save(savePath)] else [])
  }

  /** What the `context` generator keeps in its frame: the prefix to restore, and the segment it added. */
  datatype ContextToken = ContextToken(saved: string, segment: string)

  /** The five text methods, by the severity they log. */
  datatype Level = Info | Warning | Debug | Error | Critical

  /**
   * One statement of the code a caller runs against the logger, so that the
   * body of a `with logger.context(...)` or `with logger.batch()` block can
   * be modelled; `Raise` stands for an exception raised in the body.
   */
  datatype Call =
    | TextStmt(level: Level, message: string)
    | ScalarStmt(path: string, value: real, step: Option<int>)
    | ImageStmt(path: string, image: ImageData)
    | SequenceTimeStmt(timeline: string, sequence: int)
    | SecondsTimeStmt(timeline: string, time: real)
    | WithContext(segment: string, body: seq<Call>)
    | WithBatch(body: seq<Call>)
    | Raise

  function CallSize(c: Call): nat {
    match c
    case WithContext(_, body) => 1 + BodySize(body)
    case WithBatch(body) => 1 + BodySize(body)
    case _ => 1
  }

  function BodySize(body: seq<Call>): nat {
    if body == [] then 0 else CallSize(body[0]) + BodySize(body[1..])
  }

  /** Whether running a block raises: some statement of it raises, directly or inside a nested block. */
  function Raises(body: seq<Call>): bool
    decreases BodySize(body), 0
  {
    if body == [] then false
    else
      assert BodySize(body) == CallSize(body[0]) + BodySize(body[1..]);
      match body[0]
      case WithContext(_, inner) => Raises(inner) || Raises(body[1..])
      case WithBatch(inner) => Raises(inner) || Raises(body[1..])
      case Raise => true
      case _ => Raises(body[1..])
  }

  /** The channel a text method logs under, relative to the prefix. */
  function LevelChannel(level: Level): string {
    match level
    case Info => "logs/info"
    case Warning => "logs/warning"
    case Debug => "logs/debug"
    case Error => "logs/error"
    case Critical => "logs/critical"
  }

  /** The level string a text method attaches to its `TextLog`. */
  function LevelName(level: Level): string {
    match level
    case Info => "INFO"
    case Warning => "WARN"
    case Debug => "DEBUG"
    case Error => "ERROR"
    case Critical => "CRITICAL"
  }

  /** What running a block does to the backend: the calls made, the timelines after, and whether it raised. */
  datatype Outcome = Outcome(trace: seq<Event>, timelines: map<string, TimeValue>, raised: bool)

  /**
   * The effect of running `body` with entity prefix `prefix` and timelines
   * `timelines`: the statements run in order and the first one that raises
   * ends the block. The prefix is a parameter here, so a nested block can
   * change it only for itself.
   */
  function Exec(prefix: string, timelines: map<string, TimeValue>, body: seq<Call>): (o: Outcome)
    ensures o.raised == Raises(body)
    ensures body == [] ==> o == Outcome([], timelines, false)
    decreases BodySize(body), 1
  {
    if body == [] then Outcome([], timelines, false)
    else
      assert BodySize(body) == CallSize(body[0]) + BodySize(body[1..]);
      var first := ExecCall(prefix, timelines, body[0]);
      if first.raised then first
      else
        var rest := Exec(prefix, first.timelines, body[1..]);
        Outcome(first.trace + rest.trace, rest.timelines, rest.raised)
  }

  /** The effect of one statement: the backend calls the corresponding `Logger` method makes. */
  function ExecCall(prefix: string, timelines: map<string, TimeValue>, c: Call): (o: Outcome)
    ensures o.raised <==> c.Raise? || ((c.WithContext? || c.WithBatch?) && Raises(c.body))
    decreases CallSize(c), 0
  {
    match c
    case TextStmt(level, message) =>
      Outcome([Log(GetPath(prefix, LevelChannel(level)), TextLog(message, LevelName(level)))], timelines, false)
    case ScalarStmt(path, value, step) =>
      var record := Log(GetPath(prefix, path), Scalars(value));
      if step.Some? then
        Outcome([SetTime("step", Sequence(step.value)), record], timelines["step" := Sequence(step.value)], false)
      else
        Outcome([record], timelines, false)
    case ImageStmt(path, image) => Outcome([Log(GetPath(prefix, path), Image(image))], timelines, false)
    case SequenceTimeStmt(timeline, sequence) =>
      Outcome([SetTime(timeline, Sequence(sequence))], timelines[timeline := Sequence(sequence)], false)
    case SecondsTimeStmt(timeline, time) =>
      Outcome([SetTime(timeline, Timestamp(time))], timelines[timeline := Timestamp(time)], false)
    case WithContext(segment, inner) => Exec(ScopedPrefix(prefix, segment), timelines, inner)
    case WithBatch(inner) => Exec(prefix, timelines, inner)
    case Raise => Outcome([], timelines, true)
  }

  /** A non-empty block runs its first statement, then, unless that raised, the rest. */
  lemma ExecFirst(prefix: string, timelines: map<string, TimeValue>, body: seq<Call>)
    requires body != []
    ensures BodySize(body[1..]) < BodySize(body)
    ensures ExecCall(prefix, timelines, body[0]).raised ==> Exec(prefix, timelines, body) == ExecCall(prefix, timelines, body[0])
    ensures !ExecCall(prefix, timelines, body[0]).raised ==>
      var first := ExecCall(prefix, timelines, body[0]);
      var rest := Exec(prefix, first.timelines, body[1..]);
      Exec(prefix, timelines, body) == Outcome(first.trace + rest.trace, rest.timelines, rest.raised)
  {
  }

  /**
   * Running `a + b` runs `a`, then, unless `a` raised, runs `b` from the
   * timelines `a` left behind; the traces are concatenated.
   */
  lemma {:induction false} ExecAppend(prefix: string, timelines: map<string, TimeValue>, a: seq<Call>, b: seq<Call>)
    ensures Exec(prefix, timelines, a).raised ==> Exec(prefix, timelines, a + b) == Exec(prefix, timelines, a)
    ensures !Exec(prefix, timelines, a).raised ==>
      var first := Exec(prefix, timelines, a);
      var second := Exec(prefix, first.timelines, b);
      Exec(prefix, timelines, a + b) == Outcome(first.trace + second.trace, second.timelines, second.raised)
    decreases |a|
  {
    if a == [] {
      assert a + b == b;
    } else {
      assert (a + b)[0] == a[0] && (a + b)[1..] == a[1..] + b;
      ExecFirst(prefix, timelines, a);
      ExecFirst(prefix, timelines, a + b);
      var head := ExecCall(prefix, timelines, a[0]);
      if !head.raised {
        ExecAppend(prefix, head.timelines, a[1..], b);
        var tail := Exec(prefix, head.timelines, a[1..]);
        if !tail.raised {
          AppendAssociates(head.trace, tail.trace, Exec(prefix, tail.timelines, b).trace);
        }
      }
    }
  }

  /** `with logger.batch(): body` does exactly what `body` does on its own. */
  lemma BatchIsTransparent(prefix: string, timelines: map<string, TimeValue>, body: seq<Call>)
    ensures Exec(prefix, timelines, [WithBatch(body)]) == Exec(prefix, timelines, body)
  {
    ExecFirst(prefix, timelines, [WithBatch(body)]);
    assert [WithBatch(body)][1..] == [];
    assert Exec(prefix, timelines, body).trace + [] == Exec(prefix, timelines, body).trace;
  }

  /**
   * `with logger.context(segment): inner` followed by `rest`: the inner block
   * runs under the scoped prefix; if it raised nothing else runs, and
   * otherwise `rest` runs under the original prefix again.
   */
  lemma ContextThenRest(prefix: string, timelines: map<string, TimeValue>, segment: string, inner: seq<Call>, rest: seq<Call>)
    ensures var scoped := Exec(ScopedPrefix(prefix, segment), timelines, inner);
      if scoped.raised then
        Exec(prefix, timelines, [WithContext(segment, inner)] + rest) == scoped
      else
        Exec(prefix, timelines, [WithContext(segment, inner)] + rest)
        == Outcome(scoped.trace + Exec(prefix, scoped.timelines, rest).trace,
                   Exec(prefix, scoped.timelines, rest).timelines,
                   Exec(prefix, scoped.timelines, rest).raised)
  {
    var body := [WithContext(segment, inner)] + rest;
    assert body[0] == WithContext(segment, inner) && body[1..] == rest;
    ExecFirst(prefix, timelines, body);
  }

  /** A block only logs records and moves timelines: it never initialises the backend again nor saves. */
  lemma {:induction false} ExecOnlyLogsAndTimes(prefix: string, timelines: map<string, TimeValue>, body: seq<Call>)
    ensures forall e :: e in Exec(prefix, timelines, body).trace ==> e.Log? || e.SetTime?
    decreases BodySize(body), 1
  {
    if body != [] {
      ExecFirst(prefix, timelines, body);
      ExecCallOnlyLogsAndTimes(prefix, timelines, body[0]);
      var first := ExecCall(prefix, timelines, body[0]);
      if !first.raised {
        ExecOnlyLogsAndTimes(prefix, first.timelines, body[1..]);
      }
    }
  }

  lemma {:induction false} ExecCallOnlyLogsAndTimes(prefix: string, timelines: map<string, TimeValue>, c: Call)
    ensures forall e :: e in ExecCall(prefix, timelines, c).trace ==> e.Log? || e.SetTime?
    decreases CallSize(c), 0
  {
    match c {
      case WithContext(segment, inner) =>
        assert BodySize(inner) < CallSize(c);
        ExecOnlyLogsAndTimes(ScopedPrefix(prefix, segment), timelines, inner);
      case WithBatch(inner) =>
        assert BodySize(inner) < CallSize(c);
        ExecOnlyLogsAndTimes(prefix, timelines, inner);
      case _ =>
    }
  }

  /** Timelines are never unset: every timeline set before a block is still set after it. */
  lemma {:induction false} ExecKeepsTimelines(prefix: string, timelines: map<string, TimeValue>, body: seq<Call>)
    ensures timelines.Keys <= Exec(prefix, timelines, body).timelines.Keys
    decreases BodySize(body), 1
  {
    if body != [] {
      ExecFirst(prefix, timelines, body);
      ExecCallKeepsTimelines(prefix, timelines, body[0]);
      var first := ExecCall(prefix, timelines, body[0]);
      if !first.raised {
        ExecKeepsTimelines(prefix, first.timelines, body[1..]);
      }
    }
  }

  lemma {:induction false} ExecCallKeepsTimelines(prefix: string, timelines: map<string, TimeValue>, c: Call)
    ensures timelines.Keys <= ExecCall(prefix, timelines, c).timelines.Keys
    decreases CallSize(c), 0
  {
    match c {
      case WithContext(segment, inner) =>
        assert BodySize(inner) < CallSize(c);
        ExecKeepsTimelines(ScopedPrefix(prefix, segment), timelines, inner);
      case WithBatch(inner) =>
        assert BodySize(inner) < CallSize(c);
        ExecKeepsTimelines(prefix, timelines, inner);
      case _ =>
    }
  }

  lemma AppendAssociates(a: seq<Event>, b: seq<Event>, c: seq<Event>)
    ensures a + b + c == a + (b + c)
  {
  }

  class Logger {
    const applicationId: string
    /** The configuration as stored, `config or {}`. */
    const config: Config
    var entityPrefix: string

    /** Every call made to the backend so far, oldest first. */
    ghost var events: seq<Event>
    /** The current coordinate of every timeline set through this logger. */
    ghost var timelines: map<string, TimeValue>
    /** The open `context` blocks, outermost first. */
    ghost var scopes: seq<ContextToken>

    /** The backend was initialised first, for this application, and never again. */
    ghost predicate InitIssuedOnce()
      reads this
    {
      |events| > 0 && events[0].Init? && events[0].appId == applicationId &&
      forall k :: 0 < k < |events| ==> !events[k].Init?
    }

    /**
     * Stack discipline: the prefix saved by each open scope is the one in
     * force inside the scope that encloses it, and the current prefix is the
     * one in force inside the innermost scope. The current prefix is therefore
     * the outermost saved prefix extended by every open segment in turn.
     */
    ghost predicate ScopesNested()
      reads this
    {
      (forall k :: 0 < k < |scopes| ==> scopes[k].saved == ScopedPrefix(scopes[k - 1].saved, scopes[k - 1].segment)) &&
      (scopes != [] ==> entityPrefix == ScopedPrefix(scopes[|scopes| - 1].saved, scopes[|scopes| - 1].segment))
    }

    ghost predicate Valid()
      reads this
    {
      InitIssuedOnce() && ScopesNested()
    }

    /** `Logger.__init__`: resolve the prefix and the configuration, initialise the backend, maybe save. */
    constructor(applicationId: string, entityPrefix: Option<string>, config: Option<Config>)
      ensures Valid()
      ensures this.applicationId == applicationId && this.config == config.GetOr(Config(None, None))
      ensures this.entityPrefix == InitialPrefix(entityPrefix)
      ensures events == StartupEvents(applicationId, config)
      ensures timelines == map[] && scopes == []
    {
      this.applicationId := applicationId;
      this.entityPrefix := InitialPrefix(entityPrefix);
      this.config := config.GetOr(Config(None, None));
      events := StartupEvents(applicationId, config);
      timelines := map[];
      scopes := [];
    }

    /** `info`: one `TextLog` at `logs/info` with level "INFO". */
    method Info(message: string)
      requires Valid()
      modifies this`events
      ensures Valid()
      ensures events == old(events) + [Log(GetPath(entityPrefix, LevelChannel(Level.Info)), TextLog(message, LevelName(Level.Info)))]
      ensures entityPrefix == old(entityPrefix) && timelines == old(timelines) && scopes == old(scopes)
    {
      events := events + [Log(GetPath(entityPrefix, LevelChannel(Level.Info)), TextLog(message, LevelName(Level.Info)))];
    }

    /** `warning`: one `TextLog` at `logs/warning` with level "WARN" (not "WARNING"). */
    method Warning(message: string)
      requires Valid()
      modifies this`events
      ensures Valid()
      ensures events == old(events) + [Log(GetPath(entityPrefix, LevelChannel(Level.Warning)), TextLog(message, LevelName(Level.Warning)))]
      ensures entityPrefix == old(entityPrefix) && timelines == old(timelines) && scopes == old(scopes)
    {
      events := events + [Log(GetPath(entityPrefix, LevelChannel(Level.Warning)), TextLog(message, LevelName(Level.Warning)))];
    }

    /** `debug`: one `TextLog` at `logs/debug` with level "DEBUG". */
    method Debug(message: string)
      requires Valid()
      modifies this`events
      ensures Valid()
      ensures events == old(events) + [Log(GetPath(entityPrefix, LevelChannel(Level.Debug)), TextLog(message, LevelName(Level.Debug)))]
      ensures entityPrefix == old(entityPrefix) && timelines == old(timelines) && scopes == old(scopes)
    {
      events := events + [Log(GetPath(entityPrefix, LevelChannel(Level.Debug)), TextLog(message, LevelName(Level.Debug)))];
    }

    /** `error`: one `TextLog` at `logs/error` with level "ERROR". */
    method Error(message: string)
      requires Valid()
      modifies this`events
      ensures Valid()
      ensures events == old(events) + [Log(GetPath(entityPrefix, LevelChannel(Level.Error)), TextLog(message, LevelName(Level.Error)))]
      ensures entityPrefix == old(entityPrefix) && timelines == old(timelines) && scopes == old(scopes)
    {
      events := events + [Log(GetPath(entityPrefix, LevelChannel(Level.Error)), TextLog(message, LevelName(Level.Error)))];
    }

    /** `critical`: one `TextLog` at `logs/critical` with level "CRITICAL". */
    method Critical(message: string)
      requires Valid()
      modifies this`events
      ensures Valid()
      ensures events == old(events) + [Log(GetPath(entityPrefix, LevelChannel(Level.Critical)), TextLog(message, LevelName(Level.Critical)))]
      ensures entityPrefix == old(entityPrefix) && timelines == old(timelines) && scopes == old(scopes)
    {
      events := events + [Log(GetPath(entityPrefix, LevelChannel(Level.Critical)), TextLog(message, LevelName(Level.Critical)))];
    }

    /**
     * `log_scalar`: when a step is given, the "step" timeline is set to it
     * before the `Scalars` record is logged; without one, no timeline moves.
     */
    method LogScalar(path: string, value: real, step: Option<int>)
      requires Valid()
      modifies this`events, this`timelines
      ensures Valid()
      ensures step.Some? ==>
        events == old(events) + [SetTime("step", Sequence(step.value)), Log(GetPath(entityPrefix, path), Scalars(value))] &&
        timelines == old(timelines)["step" := Sequence(step.value)]
      ensures step.None? ==>
        events == old(events) + [Log(GetPath(entityPrefix, path), Scalars(value))] &&
        timelines == old(timelines)
      ensures entityPrefix == old(entityPrefix) && scopes == old(scopes)
    {
      if step.Some? {
        events := events + [SetTime("step", Sequence(step.value))];
        timelines := timelines["step" := Sequence(step.value)];
      }
      events := events + [Log(GetPath(entityPrefix, path), Scalars(value))];
    }

    /** `log_image`: one `Image` record at the composed path; the pixels pass through unchecked. */
    method LogImage(path: string, image: ImageData)
      requires Valid()
      modifies this`events
      ensures Valid()
      ensures events == old(events) + [Log(GetPath(entityPrefix, path), Image(image))]
      ensures entityPrefix == old(entityPrefix) && timelines == old(timelines) && scopes == old(scopes)
    {
      events := events + [Log(GetPath(entityPrefix, path), Image(image))];
    }

    /**
     * `log_dict`: one markdown `TextDocument` at the composed path. `dumps`
     * stands for `json.dumps(dictionary, indent=2, default=str)`, returning
     * `None` when it raises; `repr` stands for the `str(dictionary)` fallback.
     */
    method LogDict<D>(path: string, dictionary: D, dumps: D -> Option<string>, repr: D -> string)
      requires Valid()
      modifies this`events
      ensures Valid()
      ensures dumps(dictionary).Some? ==>
        events == old(events) + [Log(GetPath(entityPrefix, path), TextDocument(dumps(dictionary).value, "text/markdown"))]
      ensures dumps(dictionary).None? ==>
        events == old(events) + [Log(GetPath(entityPrefix, path), TextDocument(repr(dictionary), "text/markdown"))]
      ensures entityPrefix == old(entityPrefix) && timelines == old(timelines) && scopes == old(scopes)
    {
      var content;
      match dumps(dictionary) {
        case Some(json) => content := json;
        case None => content := repr(dictionary);
      }
      events := events + [Log(GetPath(entityPrefix, path), TextDocument(content, "text/markdown"))];
    }

    /** `set_time_sequence`: only the named timeline moves, to a sequence coordinate. */
    method SetTimeSequence(timeline: string, step: int)
      requires Valid()
      modifies this`events, this`timelines
      ensures Valid()
      ensures events == old(events) + [SetTime(timeline, Sequence(step))]
      ensures timelines == old(timelines)[timeline := Sequence(step)]
      ensures entityPrefix == old(entityPrefix) && scopes == old(scopes)
    {
      events := events + [SetTime(timeline, Sequence(step))];
      timelines := timelines[timeline := Sequence(step)];
    }

    /** `set_time_seconds`: only the named timeline moves, to a timestamp. */
    method SetTimeSeconds(timeline: string, time: real)
      requires Valid()
      modifies this`events, this`timelines
      ensures Valid()
      ensures events == old(events) + [SetTime(timeline, Timestamp(time))]
      ensures timelines == old(timelines)[timeline := Timestamp(time)]
      ensures entityPrefix == old(entityPrefix) && scopes == old(scopes)
    {
      events := events + [SetTime(timeline, Timestamp(time))];
      timelines := timelines[timeline := Timestamp(time)];
    }

    /** Entry to `context(segment)`: save the prefix, then extend it without any normalisation. */
    method EnterContext(segment: string) returns (token: ContextToken)
      requires Valid()
      modifies this`entityPrefix, this`scopes
      ensures Valid()
      ensures token == ContextToken(old(entityPrefix), segment)
      ensures entityPrefix == ScopedPrefix(old(entityPrefix), segment)
      ensures scopes == old(scopes) + [token]
      ensures events == old(events) && timelines == old(timelines)
    {
      token := ContextToken(entityPrefix, segment);
      if entityPrefix != "" {
        entityPrefix := entityPrefix + "/" + segment;
      } else {
        entityPrefix := segment;
      }
      scopes := scopes + [token];
    }

    /**
     * The `finally` of `context`: put back exactly the prefix saved on entry.
     * A `with` statement exits its innermost open scope, hence the requires.
     */
    method ExitContext(token: ContextToken)
      requires Valid()
      requires scopes != [] && token == scopes[|scopes| - 1]
      modifies this`entityPrefix, this`scopes
      ensures Valid()
      ensures entityPrefix == token.saved
      ensures scopes == old(scopes)[..|old(scopes)| - 1]
      ensures events == old(events) && timelines == old(timelines)
    {
      entityPrefix := token.saved;
      scopes := scopes[..|scopes| - 1];
    }

    /**
     * `with logger.context(segment): body`: enter, run the body, and restore
     * the prefix whether the body finished or raised; `raised` says which,
     * and an exception propagates to the caller.
     */
    method Context(segment: string, body: seq<Call>) returns (raised: bool)
      requires Valid()
      modifies this
      ensures Valid()
      ensures entityPrefix == old(entityPrefix) && scopes == old(scopes)
      ensures events == old(events) + Exec(ScopedPrefix(old(entityPrefix), segment), old(timelines), body).trace
      ensures timelines == Exec(ScopedPrefix(old(entityPrefix), segment), old(timelines), body).timelines
      ensures raised == Raises(body)
      decreases BodySize(body), 2
    {
      var token := EnterContext(segment);
      raised := Run(body);
      ExitContext(token);
    }

    /** `with logger.batch(): body`: the scope itself adds nothing; the body runs as it is. */
    method Batch(body: seq<Call>) returns (raised: bool)
      requires Valid()
      modifies this
      ensures Valid()
      ensures entityPrefix == old(entityPrefix) && scopes == old(scopes)
      ensures events == old(events) + Exec(old(entityPrefix), old(timelines), body).trace
      ensures timelines == Exec(old(entityPrefix), old(timelines), body).timelines
      ensures raised == Raises(body)
      decreases BodySize(body), 2
    {
      raised := Run(body);
    }

    /** Runs one statement: the `Logger` method it names, or the block it opens. */
    method Step(c: Call) returns (raised: bool)
      requires Valid()
      modifies this
      ensures Valid()
      ensures entityPrefix == old(entityPrefix) && scopes == old(scopes)
      ensures events == old(events) + ExecCall(old(entityPrefix), old(timelines), c).trace
      ensures timelines == ExecCall(old(entityPrefix), old(timelines), c).timelines
      ensures raised == ExecCall(old(entityPrefix), old(timelines), c).raised
      decreases CallSize(c), 0
    {
      raised := false;
      match c {
        case TextStmt(level, message) =>
          match level {
            case Info => Info(message);
            case Warning => Warning(message);
            case Debug => Debug(message);
            case Error => Error(message);
            case Critical => Critical(message);
          }
        case ScalarStmt(path, value, step) => LogScalar(path, value, step);
        case ImageStmt(path, image) => LogImage(path, image);
        case SequenceTimeStmt(timeline, sequence) => SetTimeSequence(timeline, sequence);
        case SecondsTimeStmt(timeline, time) => SetTimeSeconds(timeline, time);
        case WithContext(segment, inner) => raised := Context(segment, inner);
        case WithBatch(inner) => raised := Batch(inner);
        case Raise => raised := true;
      }
    }

    /**
     * Runs the statements of a block in order, stopping at the first one that
     * raises. Whatever the block does, it leaves the prefix and the open
     * scopes as it found them.
     */
    method Run(body: seq<Call>) returns (raised: bool)
      requires Valid()
      modifies this
      ensures Valid()
      ensures entityPrefix == old(entityPrefix) && scopes == old(scopes)
      ensures events == old(events) + Exec(old(entityPrefix), old(timelines), body).trace
      ensures timelines == Exec(old(entityPrefix), old(timelines), body).timelines
      ensures raised == Raises(body)
      decreases BodySize(body), 1
    {
      raised := false;
      if body == [] {
        return;
      }
      ghost var before, prefix, start := events, entityPrefix, timelines;
      ExecFirst(prefix, start, body);
      raised := Step(body[0]);
      if raised {
        return;
      }
      raised := Run(body[1..]);
      AppendAssociates(before, ExecCall(prefix, start, body[0]).trace, Exec(prefix, ExecCall(prefix, start, body[0]).timelines, body[1..]).trace);
    }
  }
}
