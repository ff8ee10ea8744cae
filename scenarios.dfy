/**
 * Uses of the chronicle `Logger` that its own documentation describes,
 * checked against the class's contracts alone.
 */
module Scenarios {
  import opened Wrappers
  import opened Paths
  import opened Sink
  import opened Chronicle

  /**
   * The docstring of `context`: with prefix "original_prefix", a scalar
   * logged as "loss" inside `context("training/epoch_5")` lands at
   * "original_prefix/training/epoch_5/loss", and the prefix is restored after.
   */
  method DocstringExample() returns (logger: Logger)
    ensures logger.Valid()
    ensures logger.entityPrefix == "original_prefix" && logger.scopes == []
    ensures logger.events == [Init("app", true), Log("original_prefix/training/epoch_5/loss", Scalars(0.5))]
  {
    logger := new Logger("app", Some("original_prefix"), None);
    DocstringContextPath();
    var token := logger.EnterContext("training/epoch_5");
    logger.LogScalar("loss", 0.5, None);
    logger.ExitContext(token);
  }

  /**
   * The `context` block of the example script: with no prefix,
   * `context("validation_phase")` sends a stepped scalar to
   * "validation_phase/metrics/accuracy" and an info line to
   * "validation_phase/logs/info"; afterwards the prefix is empty again.
   */
  method ValidationPhaseExample() returns (logger: Logger)
    ensures logger.Valid()
    ensures logger.entityPrefix == "" && logger.scopes == []
    ensures logger.timelines == map["step" := Sequence(1)]
    ensures logger.events == [
      Init("chronicle_test_example", true),
      SetTime("step", Sequence(1)),
      Log("validation_phase/metrics/accuracy", Scalars(0.88)),
      Log("validation_phase/logs/info", TextLog("Validation started", "INFO"))]
  {
    logger := new Logger("chronicle_test_example", None, Some(Config(Some(true), None)));
    ValidationAccuracyPath();
    ValidationInfoPath();
    var token := logger.EnterContext("validation_phase");
    logger.LogScalar("metrics/accuracy", 0.88, Some(1));
    logger.Info("Validation started");
    logger.ExitContext(token);
  }

  /**
   * Nested scopes restore in stack order: leaving the inner scope gives back
   * the outer scope's prefix, leaving the outer one gives back the original.
   */
  method NestedScopesRestore(logger: Logger, a: string, b: string)
    requires logger.Valid()
    modifies logger
    ensures logger.Valid()
    ensures logger.entityPrefix == old(logger.entityPrefix) && logger.scopes == old(logger.scopes)
    ensures logger.events == old(logger.events) && logger.timelines == old(logger.timelines)
  {
    var original := logger.entityPrefix;
    var outer := logger.EnterContext(a);
    var inner := logger.EnterContext(b);
    assert logger.entityPrefix == ScopedPrefix(ScopedPrefix(original, a), b);
    logger.ExitContext(inner);
    assert logger.entityPrefix == ScopedPrefix(original, a);
    logger.ExitContext(outer);
  }

  /**
   * The "step" timeline is session state, not call state: once a scalar sets
   * it, a text line and a scalar logged without a step leave it where it was.
   */
  method StepPersists(logger: Logger, path: string)
    requires logger.Valid()
    modifies logger
    ensures logger.Valid()
    ensures "step" in logger.timelines && logger.timelines["step"] == Sequence(5)
    ensures logger.entityPrefix == old(logger.entityPrefix)
  {
    logger.LogScalar(path, 1.0, Some(5));
    logger.Info("between two scalars");
    logger.LogScalar(path, 2.0, None);
  }

  /**
   * An exception raised inside a `context` block propagates, and the prefix
   * is still restored; a later call on the same logger is unaffected.
   */
  method RestoreAfterRaise(logger: Logger, segment: string, path: string)
    requires logger.Valid()
    modifies logger
    ensures logger.Valid()
    ensures logger.entityPrefix == old(logger.entityPrefix)
    ensures logger.events[|logger.events| - 1] == Log(GetPath(old(logger.entityPrefix), path), Scalars(1.0))
  {
    var raised := logger.Context(segment, [ScalarStmt(path, 0.5, Some(1)), Raise, TextStmt(Info, "never reached")]);
    assert raised;
    logger.LogScalar(path, 1.0, None);
  }
}
