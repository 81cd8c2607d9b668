/**
 * What the click handlers write to the log. The main window appends one entry
 * per call of AppendLog; an entry is the message and the colour it is drawn in
 * (blue for progress, green for success, orange for warnings, red for errors).
 * The functions here give the entries each click appends for every outcome of
 * the migration service; the class in main_window.dfy is proved to append
 * exactly these.
 */
module Orchestration {
  import opened Wrappers
  import opened Text
  import opened FormState
  import opened ConnectionConfig

  datatype LogColor = Blue | Green | Orange | Red

  datatype LogEntry = LogEntry(message: string, color: LogColor)

  /** How a call into the migration service ends: with a value, or by throwing
      an exception with the given message. */
  datatype ServiceOutcome<T> = Returns(value: T) | Throws(message: string)

  /** One progress report of the migration service. */
  datatype MigrationProgress = MigrationProgress(progressPercentage: int, message: string)

  /** The result of a migration run. */
  datatype MigrationResult = MigrationResult(success: bool, warnings: seq<string>, errors: seq<string>)

  /** The seven "include" check boxes; `IsChecked` is None when a box is in the
      indeterminate state. */
  datatype IncludeChecks = IncludeChecks(
    data: Option<bool>,
    indexes: Option<bool>,
    constraints: Option<bool>,
    triggers: Option<bool>,
    storedProcedures: Option<bool>,
    functions: Option<bool>,
    views: Option<bool>)

  /** The request handed to the migration service. */
  datatype MigrationConfig = MigrationConfig(
    sourceConfig: DatabaseConnectionConfig,
    targetConfig: DatabaseConnectionConfig,
    includeData: bool,
    includeIndexes: bool,
    includeConstraints: bool,
    includeTriggers: bool,
    includeStoredProcedures: bool,
    includeFunctions: bool,
    includeViews: bool,
    outputPath: string)

  /** `IsChecked ?? true`: an indeterminate box counts as checked. */
  function CheckedOrDefault(isChecked: Option<bool>): (b: bool)
    ensures b <==> isChecked != Some(false)
  {
    isChecked.GetOr(true)
  }

  /** The migration request built from the two resolved descriptors, the check
      boxes and the chosen output file. */
  function BuildMigrationConfig(source: DatabaseConnectionConfig, target: DatabaseConnectionConfig,
                                checks: IncludeChecks, outputPath: string): (c: MigrationConfig)
    ensures c.sourceConfig == source && c.targetConfig == target && c.outputPath == outputPath
    ensures c.includeData <==> checks.data != Some(false)
    ensures c.includeIndexes <==> checks.indexes != Some(false)
    ensures c.includeConstraints <==> checks.constraints != Some(false)
    ensures c.includeTriggers <==> checks.triggers != Some(false)
    ensures c.includeStoredProcedures <==> checks.storedProcedures != Some(false)
    ensures c.includeFunctions <==> checks.functions != Some(false)
    ensures c.includeViews <==> checks.views != Some(false)
  {
    MigrationConfig(source, target,
      CheckedOrDefault(checks.data), CheckedOrDefault(checks.indexes),
      CheckedOrDefault(checks.constraints), CheckedOrDefault(checks.triggers),
      CheckedOrDefault(checks.storedProcedures), CheckedOrDefault(checks.functions),
      CheckedOrDefault(checks.views), outputPath)
  }

  predicate EndsWith(s: string, suffix: string) {
    |suffix| <= |s| && s[|s| - |suffix|..] == suffix
  }

  // ---------------------------------------------------------------------------
  // Testing a connection
  // ---------------------------------------------------------------------------

  /** "源" (source) or "目标" (target), the first word of every test message. */
  function SideName(side: Side): string {
    if side == Source then "源" else "目标"
  }

  /** The entry a connection test appends for the service's answer. */
  function TestConnectionEntry(side: Side, outcome: ServiceOutcome<bool>): (entry: LogEntry)
    ensures entry.color == Green <==> outcome == Returns(true)
    ensures entry.color != Green ==> entry.color == Red
    ensures outcome.Throws? ==> EndsWith(entry.message, outcome.message)
  {
    match outcome
    case Returns(true) => LogEntry(SideName(side) + "数据库连接测试成功！", Green)
    case Returns(false) => LogEntry(SideName(side) + "数据库连接测试失败！", Red)
    case Throws(message) =>
      var text := SideName(side) + "数据库连接测试出错：" + message;
      assert text[|text| - |message|..] == message;
      LogEntry(text, Red)
  }

  /** The required-field check before a test: an engine is selected and the
      panel's own server and database texts are not blank. */
  predicate ReadyToTest(e: EndpointWidgets): (ready: bool)
    ensures ready ==> |e.entries.serverText| > 0 && |e.entries.databaseText| > 0
  {
    && SelectedDbType(e.dbTypeIndex).Some?
    && !IsNullOrWhiteSpace(e.entries.serverText)
    && !IsNullOrWhiteSpace(e.entries.databaseText)
  }

  /** The entries TestSourceConnection_Click / TestTargetConnection_Click append:
      none when the check fails (a message box is shown instead and the service
      is not called), otherwise exactly one, for the service's answer. */
  function TestConnectionLog(side: Side, e: EndpointWidgets, outcome: ServiceOutcome<bool>): (log: seq<LogEntry>)
    ensures |log| == (if ReadyToTest(e) then 1 else 0)
    ensures ReadyToTest(e) ==> log[0] == TestConnectionEntry(side, outcome)
  {
    if ReadyToTest(e) then [TestConnectionEntry(side, outcome)] else []
  }

  /** The descriptor a test click hands to the service: the source resolver for
      the source panel, the target resolver (with its fallback to the source
      database text) for the target panel. */
  function ResolveConnection(f: Form, side: Side): (r: Result<DatabaseConnectionConfig>)
    ensures r.Success? <==> SelectedDbType(f.Get(side).dbTypeIndex).Some?
  {
    if side == Source then GetSourceConnectionConfig(f.source)
    else GetTargetConnectionConfig(f.target, f.source.entries.databaseText)
  }

  /** The target test checks the target panel's own database text: with it
      blank the click logs nothing and calls no service, even though the
      target resolver would fall back to the source database text. */
  lemma TargetTestIgnoresFallback(f: Form, outcome: ServiceOutcome<bool>)
    requires SelectedDbType(f.target.dbTypeIndex).Some?
    requires IsNullOrWhiteSpace(f.target.entries.databaseText)
    requires !IsNullOrWhiteSpace(f.source.entries.databaseText)
    ensures TestConnectionLog(Target, f.target, outcome) == []
    ensures ResolveConnection(f, Target).value.databaseName == f.source.entries.databaseText
  {
  }

  // ---------------------------------------------------------------------------
  // Running a migration
  // ---------------------------------------------------------------------------

  const StartedMessage: string := "开始迁移..."
  const CompletedMessage: string := "迁移完成！"
  const FailedMessage: string := "迁移失败！"
  const WarningPrefix: string := "警告："
  const ErrorPrefix: string := "错误："
  const MigrationErrorPrefix: string := "迁移过程出错："

  /** The value a progress bar with the default range 0 to 100 shows after
      its `Value` is set to `percentage`: WPF coerces it into the range. */
  function BarValue(percentage: int): (value: int)
    ensures 0 <= value <= 100
    ensures 0 <= percentage <= 100 ==> value == percentage
    ensures percentage < 0 ==> value == 0
    ensures percentage > 100 ==> value == 100
  {
    if percentage < 0 then 0 else if percentage > 100 then 100 else percentage
  }

  /** One blue entry per progress report, in order (UpdateProgress). */
  function ProgressEntries(progress: seq<MigrationProgress>): seq<LogEntry> {
    if |progress| == 0 then []
    else ProgressEntries(progress[..|progress| - 1]) + [LogEntry(progress[|progress| - 1].message, Blue)]
  }

  /** One entry per item, in order, each the item after `prefix` (the loops over
      warnings and errors). */
  function PrefixedEntries(prefix: string, items: seq<string>, color: LogColor): seq<LogEntry> {
    if |items| == 0 then []
    else PrefixedEntries(prefix, items[..|items| - 1], color) + [LogEntry(prefix + items[|items| - 1], color)]
  }

  /** What follows the progress entries: one error entry for an exception;
      "completed" and the warnings for a successful result; "failed" and the
      errors for a failed one. */
  function OutcomeEntries(outcome: ServiceOutcome<MigrationResult>): (entries: seq<LogEntry>)
    ensures |entries| > 0
    ensures entries[0].color == Green <==> outcome.Returns? && outcome.value.success
    ensures outcome.Throws? ==>
      |entries| == 1 && entries[0].color == Red && EndsWith(entries[0].message, outcome.message)
    ensures outcome.Returns? ==>
      |entries| == 1 + if outcome.value.success then |outcome.value.warnings| else |outcome.value.errors|
  {
    match outcome
    case Throws(message) =>
      var text := MigrationErrorPrefix + message;
      assert text[|text| - |message|..] == message;
      [LogEntry(text, Red)]
    case Returns(result) =>
      PrefixedEntriesAt(WarningPrefix, result.warnings, Orange);
      PrefixedEntriesAt(ErrorPrefix, result.errors, Red);
      if result.success then
        [LogEntry(CompletedMessage, Green)] + PrefixedEntries(WarningPrefix, result.warnings, Orange)
      else
        [LogEntry(FailedMessage, Red)] + PrefixedEntries(ErrorPrefix, result.errors, Red)
  }

  /** The entries of a migration run that the user confirmed. */
  function MigrationLog(progress: seq<MigrationProgress>, outcome: ServiceOutcome<MigrationResult>): (log: seq<LogEntry>)
    ensures |log| == 1 + |progress| + |OutcomeEntries(outcome)|
    ensures log[0] == LogEntry(StartedMessage, Blue)
  {
    ProgressEntriesAt(progress);
    [LogEntry(StartedMessage, Blue)] + ProgressEntries(progress) + OutcomeEntries(outcome)
  }

  /** The request StartMigration_Click hands to the service, given what the
      source and target resolvers gave: none when either threw (the exception
      ends the click before the dialog opens) or when the dialog is cancelled. */
  function MigrationRequest(source: Result<DatabaseConnectionConfig>, target: Result<DatabaseConnectionConfig>,
                            checks: IncludeChecks, outputFile: Option<string>): (request: Option<MigrationConfig>)
    ensures request.Some? <==> source.Success? && target.Success? && outputFile.Some?
    ensures request.Some? ==>
      && request.value.sourceConfig == source.value
      && request.value.targetConfig == target.value
      && request.value.outputPath == outputFile.value
  {
    if source.Failure? || target.Failure? || outputFile.None? then None
    else Some(BuildMigrationConfig(source.value, target.value, checks, outputFile.value))
  }

  /** The entries StartMigration_Click appends, given what the two resolvers
      gave: the exception entry when one of them threw (the source resolver
      runs first), nothing when the dialog is cancelled, and the run's entries
      otherwise. */
  function StartMigrationLog(source: Result<DatabaseConnectionConfig>, target: Result<DatabaseConnectionConfig>,
                             outputFile: Option<string>, progress: seq<MigrationProgress>,
                             outcome: ServiceOutcome<MigrationResult>): (log: seq<LogEntry>)
    ensures source.Failure? || target.Failure? ==> |log| == 1 && log[0].color == Red
    ensures source.Success? && target.Success? && outputFile.None? ==> log == []
    ensures source.Success? && target.Success? && outputFile.Some? ==>
      |log| >= 2 && log[0] == LogEntry(StartedMessage, Blue)
  {
    if source.Failure? then [LogEntry(MigrationErrorPrefix + source.error, Red)]
    else if target.Failure? then [LogEntry(MigrationErrorPrefix + target.error, Red)]
    else if outputFile.None? then []
    else MigrationLog(progress, outcome)
  }

  /** Every exit of StartMigration_Click on a form: a panel without a selected
      engine makes its resolver throw, which logs one error entry and calls no
      service; a cancelled dialog logs nothing and calls no service; a
      confirmed dialog calls the service and logs the run. */
  lemma StartMigrationExits(f: Form, checks: IncludeChecks, outputFile: Option<string>,
                            progress: seq<MigrationProgress>, outcome: ServiceOutcome<MigrationResult>)
    ensures var source := GetSourceConnectionConfig(f.source);
      var target := GetTargetConnectionConfig(f.target, f.source.entries.databaseText);
      var request := MigrationRequest(source, target, checks, outputFile);
      var log := StartMigrationLog(source, target, outputFile, progress, outcome);
      var resolvable := SelectedDbType(f.source.dbTypeIndex).Some? && SelectedDbType(f.target.dbTypeIndex).Some?;
      && (request.Some? <==> resolvable && outputFile.Some?)
      && (!resolvable ==> log == [LogEntry(MigrationErrorPrefix + NullReferenceMessage, Red)])
      && (resolvable && outputFile.None? ==> log == [])
      && (resolvable && outputFile.Some? ==> log == MigrationLog(progress, outcome))
  {
  }

  // ---------------------------------------------------------------------------
  // Properties of the migration log
  // ---------------------------------------------------------------------------

  lemma {:induction false} ProgressEntriesAt(progress: seq<MigrationProgress>)
    ensures |ProgressEntries(progress)| == |progress|
    ensures forall k :: 0 <= k < |progress| ==>
      ProgressEntries(progress)[k] == LogEntry(progress[k].message, Blue)
  {
    if |progress| > 0 {
      ProgressEntriesAt(progress[..|progress| - 1]);
    }
  }

  lemma {:induction false} PrefixedEntriesAt(prefix: string, items: seq<string>, color: LogColor)
    ensures |PrefixedEntries(prefix, items, color)| == |items|
    ensures forall k :: 0 <= k < |items| ==>
      PrefixedEntries(prefix, items, color)[k] == LogEntry(prefix + items[k], color)
  {
    if |items| > 0 {
      PrefixedEntriesAt(prefix, items[..|items| - 1], color);
    }
  }

  /** The number of entries drawn in `color`. */
  function CountColor(log: seq<LogEntry>, color: LogColor): nat {
    if |log| == 0 then 0
    else CountColor(log[..|log| - 1], color) + (if log[|log| - 1].color == color then 1 else 0)
  }

  lemma {:induction false} CountColorAppend(a: seq<LogEntry>, b: seq<LogEntry>, color: LogColor)
    ensures CountColor(a + b, color) == CountColor(a, color) + CountColor(b, color)
  {
    if |b| > 0 {
      CountColorAppend(a, b[..|b| - 1], color);
      assert (a + b)[..|a + b| - 1] == a + b[..|b| - 1];
    } else {
      assert a + b == a;
    }
  }

  lemma {:induction false} CountColorNone(log: seq<LogEntry>, color: LogColor)
    requires forall k :: 0 <= k < |log| ==> log[k].color != color
    ensures CountColor(log, color) == 0
  {
    if |log| > 0 {
      CountColorNone(log[..|log| - 1], color);
    }
  }

  lemma {:induction false} CountColorAll(log: seq<LogEntry>, color: LogColor)
    requires forall k :: 0 <= k < |log| ==> log[k].color == color
    ensures CountColor(log, color) == |log|
  {
    if |log| > 0 {
      CountColorAll(log[..|log| - 1], color);
    }
  }

  /** A run's log starts with the "started" entry, then relays every progress
      message in order, then holds the outcome's entries. */
  lemma MigrationLogOrder(progress: seq<MigrationProgress>, outcome: ServiceOutcome<MigrationResult>)
    ensures var log := MigrationLog(progress, outcome);
      && |log| == 1 + |progress| + |OutcomeEntries(outcome)|
      && log[0] == LogEntry(StartedMessage, Blue)
      && (forall k :: 0 <= k < |progress| ==> log[1 + k] == LogEntry(progress[k].message, Blue))
      && log[1 + |progress|..] == OutcomeEntries(outcome)
  {
    ProgressEntriesAt(progress);
  }

  /** A successful run ends with "completed" and then one orange entry per
      warning, in the service's order, and logs no error. */
  lemma SuccessfulRunListsWarnings(progress: seq<MigrationProgress>, result: MigrationResult)
    requires result.success
    ensures var log, n := MigrationLog(progress, Returns(result)), 1 + |progress|;
      && |log| == n + 1 + |result.warnings|
      && log[n] == LogEntry(CompletedMessage, Green)
      && (forall k :: 0 <= k < |result.warnings| ==>
            log[n + 1 + k] == LogEntry(WarningPrefix + result.warnings[k], Orange))
      && CountColor(log, Red) == 0
  {
    var log := MigrationLog(progress, Returns(result));
    MigrationLogOrder(progress, Returns(result));
    PrefixedEntriesAt(WarningPrefix, result.warnings, Orange);
    assert forall k :: 0 <= k < |log| ==> log[k].color != Red by {
      ProgressEntriesAt(progress);
      forall k | 0 <= k < |log| ensures log[k].color != Red {
        if k == 0 {
        } else if k <= |progress| {
          assert log[k] == LogEntry(progress[k - 1].message, Blue);
        } else {
          assert log[k] == OutcomeEntries(Returns(result))[k - 1 - |progress|];
        }
      }
    }
    CountColorNone(log, Red);
  }

  /** A failed run ends with "failed" and then one red entry per error, in the
      service's order: 1 + (number of errors) red entries in all. */
  lemma FailedRunListsErrors(progress: seq<MigrationProgress>, result: MigrationResult)
    requires !result.success
    ensures var log, n := MigrationLog(progress, Returns(result)), 1 + |progress|;
      && |log| == n + 1 + |result.errors|
      && log[n] == LogEntry(FailedMessage, Red)
      && (forall k :: 0 <= k < |result.errors| ==>
            log[n + 1 + k] == LogEntry(ErrorPrefix + result.errors[k], Red))
      && CountColor(log, Red) == 1 + |result.errors|
  {
    var head := [LogEntry(StartedMessage, Blue)] + ProgressEntries(progress);
    var errors := PrefixedEntries(ErrorPrefix, result.errors, Red);
    MigrationLogOrder(progress, Returns(result));
    PrefixedEntriesAt(ErrorPrefix, result.errors, Red);
    ProgressEntriesAt(progress);
    assert forall k :: 0 <= k < |head| ==> head[k].color != Red;
    CountColorNone(head, Red);
    CountColorAll([LogEntry(FailedMessage, Red)] + errors, Red);
    assert MigrationLog(progress, Returns(result)) == head + ([LogEntry(FailedMessage, Red)] + errors);
    CountColorAppend(head, [LogEntry(FailedMessage, Red)] + errors, Red);
  }

  /** A run whose service call throws logs exactly one error entry, the last
      one, and it carries the exception's message. */
  lemma ThrownRunLogsOneError(progress: seq<MigrationProgress>, message: string)
    ensures var log := MigrationLog(progress, Throws(message));
      && |log| == 2 + |progress|
      && log[|log| - 1].color == Red
      && EndsWith(log[|log| - 1].message, message)
      && CountColor(log, Red) == 1
  {
    var head := [LogEntry(StartedMessage, Blue)] + ProgressEntries(progress);
    var last := LogEntry(MigrationErrorPrefix + message, Red);
    ProgressEntriesAt(progress);
    assert forall k :: 0 <= k < |head| ==> head[k].color != Red;
    CountColorNone(head, Red);
    assert MigrationLog(progress, Throws(message)) == head + [last];
    assert last.message[|last.message| - |message|..] == message;
  }

  /** A run that reports no progress and returns success with the single warning "view X skipped" logs exactly "started",
      "completed" and that warning. */
  lemma WarningScenario()
    ensures MigrationLog([], Returns(MigrationResult(true, ["view X skipped"], [])))
      == [LogEntry(StartedMessage, Blue), LogEntry(CompletedMessage, Green),
          LogEntry(WarningPrefix + "view X skipped", Orange)]
  {
    assert PrefixedEntries(WarningPrefix, ["view X skipped"], Orange)
      == [LogEntry(WarningPrefix + "view X skipped", Orange)];
  }
}
