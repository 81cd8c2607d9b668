/**
 * The main window as an object: its fields are the widgets' state, the log
 * document and the progress bar, and its methods are the event handlers,
 * which update those fields step by step as the code-behind does. Every
 * method is proved to reach exactly the state that the pure functions of
 * FormState and Orchestration compute, so the properties proved there hold of
 * the window.
 *
 * The migration service is an input: a click method receives what the
 * service answers (or throws) and, for a migration, the progress reports it
 * makes, and returns the request it hands to the service.
 */
module MainWindowModel {
  import opened Wrappers
  import opened Text
  import opened FormState
  import opened ConnectionConfig
  import opened Orchestration

  class MainWindow {
    var source: EndpointWidgets
    var target: EndpointWidgets
    var includeChecks: IncludeChecks
    var startMigrationEnabled: bool
    var progressValue: int
    var log: seq<LogEntry>
    /** How many times an engine SelectionChanged handler has run. */
    ghost var engineHandlerRuns: nat

    function State(): Form
      reads this
    {
      Form(source, target)
    }

    function Panel(side: Side): (e: EndpointWidgets)
      reads this
      ensures e == State().Get(side)
    {
      if side == Source then source else target
    }

    /** Both panels show the credential widgets that their authentication needs. */
    ghost predicate Valid()
      reads this
    {
      PanelsMatchAuth(source) && PanelsMatchAuth(target)
    }

    /** The window as InitializeComponent leaves it (the widget state the
        markup declares, passed in) after the constructor has set the default
        ports and refreshed both authentication panels. The handlers are
        attached only after the markup is loaded, so none of them runs here. */
    constructor (sourceMarkup: EndpointWidgets, targetMarkup: EndpointWidgets, checks: IncludeChecks)
      ensures source == AuthPanelUpdated(sourceMarkup.(portText := "3306"))
      ensures target == AuthPanelUpdated(targetMarkup.(portText := "1433"))
      ensures includeChecks == checks && startMigrationEnabled && progressValue == 0 && log == []
      ensures Valid()
    {
      source := sourceMarkup.(portText := "3306");
      target := targetMarkup.(portText := "1433");
      includeChecks := checks;
      startMigrationEnabled := true;
      progressValue := 0;
      log := [];
      engineHandlerRuns := 0;
      new;
      UpdateAuthPanel(Source);
      UpdateAuthPanel(Target);
    }

    method SetPanel(side: Side, e: EndpointWidgets)
      modifies this`source, this`target
      ensures State() == old(State()).With(side, e)
    {
      if side == Source {
        source := e;
      } else {
        target := e;
      }
    }

    /** UpdateSourceAuthPanel / UpdateTargetAuthPanel. */
    method UpdateAuthPanel(side: Side)
      modifies this`source, this`target
      ensures State() == old(State()).With(side, AuthPanelUpdated(old(Panel(side))))
      ensures PanelsMatchAuth(Panel(side))
    {
      var e := Panel(side);
      if e.authTypeIndex == WindowsAuthIndex {
        e := e.(visibility := Visibility(false, false, true, true));
      } else {
        e := e.(visibility := Visibility(true, true, true, true));
      }
      SetPanel(side, e);
    }

    /** SourceAuthTypeCombo_SelectionChanged / TargetAuthTypeCombo_SelectionChanged. */
    method AuthTypeSelectionChanged(side: Side)
      modifies this`source, this`target
      ensures State() == old(State()).With(side, AuthPanelUpdated(old(Panel(side))))
    {
      UpdateAuthPanel(side);
    }

    /** `AuthTypeCombo.SelectedIndex = index`: SelectionChanged fires when the
        index changes. */
    method AssignAuthTypeIndex(side: Side, index: int)
      modifies this`source, this`target
      ensures State() == old(State()).With(side, AuthTypeIndexAssigned(old(Panel(side)), index))
    {
      if Panel(side).authTypeIndex != index {
        SetPanel(side, Panel(side).(authTypeIndex := index));
        AuthTypeSelectionChanged(side);
      }
    }

    /**
     * SourceDbType_SelectionChanged / TargetDbType_SelectionChanged. Assigning
     * the other combo's index raises that combo's SelectionChanged, whose
     * handler runs nested; it finds the engines complementary and assigns
     * nothing, so at most two handler runs happen.
     */
    method DbTypeSelectionChanged(side: Side)
      modifies this`source, this`target, this`engineHandlerRuns
      decreases if Complementary(State()) then 0 else 1
      ensures State() == FormState.DbTypeSelectionChanged(old(State()), side)
      ensures old(engineHandlerRuns) < engineHandlerRuns
      ensures engineHandlerRuns <= old(engineHandlerRuns) + (if Complementary(old(State())) then 1 else 2)
    {
      engineHandlerRuns := engineHandlerRuns + 1;
      var selected := SelectedDbType(Panel(side).dbTypeIndex);
      if selected.Some? {
        var item := selected.value;
        ContentIdentifiesItem(item);
        SetPanel(side, Panel(side).(portText := if item.Content() == MySqlLabel then "3306" else "1433"));
        if item.Content() == SqlServerLabel {
          if Panel(Other(side)).dbTypeIndex != MySqlIndex {
            SetPanel(Other(side), Panel(Other(side)).(dbTypeIndex := MySqlIndex));
            DbTypeSelectionChanged(Other(side));
          }
        } else if item.Content() == MySqlLabel {
          if Panel(Other(side)).dbTypeIndex != SqlServerIndex {
            SetPanel(Other(side), Panel(Other(side)).(dbTypeIndex := SqlServerIndex));
            DbTypeSelectionChanged(Other(side));
          }
        }
        if item.Content() == MySqlLabel {
          AssignAuthTypeIndex(side, SqlAuthIndex);
          SetPanel(side, Panel(side).(authTypeEnabled := false));
        } else {
          SetPanel(side, Panel(side).(authTypeEnabled := true));
        }
      }
    }

    /** The user picks item `index` of a panel's engine combo. */
    method SelectDbType(side: Side, index: int)
      requires index == MySqlIndex || index == SqlServerIndex
      modifies this`source, this`target, this`engineHandlerRuns
      ensures State() == FormState.SelectDbType(old(State()), side, index)
      ensures old(Valid()) ==> Valid()
    {
      if Panel(side).dbTypeIndex != index {
        SetPanel(side, Panel(side).(dbTypeIndex := index));
        ghost var g := State();
        HandlerSynchronises(g, side);
        DbTypeSelectionChanged(side);
      }
    }

    /** The user picks item `index` of a panel's authentication combo; a
        disabled combo takes no input. */
    method SelectAuthType(side: Side, index: int)
      requires index == WindowsAuthIndex || index == SqlAuthIndex
      modifies this`source, this`target
      ensures State() == FormState.SelectAuthType(old(State()), side, index)
      ensures old(Valid()) ==> Valid()
    {
      if Panel(side).authTypeEnabled {
        AssignAuthTypeIndex(side, index);
      }
    }

    /** AppendLog: one entry at the end of the log. */
    method AppendLog(message: string, color: LogColor)
      modifies this`log
      ensures log == old(log) + [LogEntry(message, color)]
    {
      log := log + [LogEntry(message, color)];
    }

    /** UpdateProgress: moves the progress bar (whose value WPF keeps within
        0 to 100) and relays the report's message. */
    method UpdateProgress(progress: MigrationProgress)
      modifies this`progressValue, this`log
      ensures progressValue == BarValue(progress.progressPercentage)
      ensures 0 <= progress.progressPercentage <= 100 ==> progressValue == progress.progressPercentage
      ensures log == old(log) + [LogEntry(progress.message, Blue)]
    {
      progressValue := progress.progressPercentage;
      if progressValue < 0 {
        progressValue := 0;
      } else if progressValue > 100 {
        progressValue := 100;
      }
      AppendLog(progress.message, Blue);
    }

    /** TestSourceConnection_Click / TestTargetConnection_Click. `outcome` is
        what the service's connection test answers; `request` is the
        descriptor it is called with (None: the service is not called). */
    method TestConnectionClick(side: Side, outcome: ServiceOutcome<bool>) returns (request: Option<DatabaseConnectionConfig>)
      modifies this`log
      ensures request.Some? <==> ReadyToTest(Panel(side))
      ensures request.Some? ==> ResolveConnection(State(), side) == Success(request.value)
      ensures log == old(log) + TestConnectionLog(side, Panel(side), outcome)
    {
      var e := Panel(side);
      if SelectedDbType(e.dbTypeIndex).None? || IsNullOrWhiteSpace(e.entries.serverText)
        || IsNullOrWhiteSpace(e.entries.databaseText)
      {
        // a message box asks for the missing fields
        return None;
      }
      var config := ResolveConnection(State(), side);
      request := Some(config.value);
      match outcome {
        case Returns(true) =>
          AppendLog(SideName(side) + "数据库连接测试成功！", Green);
        case Returns(false) =>
          AppendLog(SideName(side) + "数据库连接测试失败！", Red);
        case Throws(message) =>
          AppendLog(SideName(side) + "数据库连接测试出错：" + message, Red);
      }
    }

    /** The `foreach` over a result's warnings or errors. */
    method AppendEach(prefix: string, items: seq<string>, color: LogColor)
      modifies this`log
      ensures log == old(log) + PrefixedEntries(prefix, items, color)
    {
      var i := 0;
      while i < |items|
        invariant 0 <= i <= |items|
        invariant log == old(log) + PrefixedEntries(prefix, items[..i], color)
      {
        assert items[..i + 1][..i] == items[..i];
        AppendLog(prefix + items[i], color);
        i := i + 1;
      }
      assert items[..i] == items;
    }

    /** The entries after the service call: the exception's, or "completed"
        and the warnings, or "failed" and the errors. */
    method LogOutcome(outcome: ServiceOutcome<MigrationResult>)
      modifies this`log
      ensures log == old(log) + OutcomeEntries(outcome)
    {
      match outcome {
        case Throws(message) =>
          AppendLog(MigrationErrorPrefix + message, Red);
        case Returns(result) =>
          if result.success {
            AppendLog(CompletedMessage, Green);
            AppendEach(WarningPrefix, result.warnings, Orange);
          } else {
            AppendLog(FailedMessage, Red);
            AppendEach(ErrorPrefix, result.errors, Red);
          }
      }
    }

    /** The service's progress reports, each handled by UpdateProgress as it
        arrives. */
    method ReportProgress(progress: seq<MigrationProgress>)
      modifies this`log, this`progressValue
      ensures log == old(log) + ProgressEntries(progress)
      ensures progressValue == if |progress| > 0 then BarValue(progress[|progress| - 1].progressPercentage)
                               else old(progressValue)
    {
      var i := 0;
      while i < |progress|
        invariant 0 <= i <= |progress|
        invariant log == old(log) + ProgressEntries(progress[..i])
        invariant progressValue == if i == 0 then old(progressValue) else BarValue(progress[i - 1].progressPercentage)
      {
        assert progress[..i + 1][..i] == progress[..i];
        UpdateProgress(progress[i]);
        i := i + 1;
      }
      assert progress[..i] == progress;
    }

    /** The part of StartMigration_Click after the dialog is confirmed: the
        button is disabled, the run is logged as it progresses, and the
        outcome is logged. */
    method RunMigration(progress: seq<MigrationProgress>, outcome: ServiceOutcome<MigrationResult>)
      modifies this`log, this`progressValue, this`startMigrationEnabled
      ensures log == old(log) + MigrationLog(progress, outcome)
      ensures progressValue == if |progress| > 0 then BarValue(progress[|progress| - 1].progressPercentage)
                               else old(progressValue)
      ensures !startMigrationEnabled
    {
      startMigrationEnabled := false;
      AppendLog(StartedMessage, Blue);
      ReportProgress(progress);
      LogOutcome(outcome);
      assert log == old(log) + ([LogEntry(StartedMessage, Blue)] + ProgressEntries(progress) + OutcomeEntries(outcome));
    }

    /** StartMigration_Click once both descriptors are resolved: the save
        dialog is shown, and the run happens only when it is confirmed. */
    method MigrateIfConfirmed(sourceConfig: DatabaseConnectionConfig, targetConfig: DatabaseConnectionConfig,
                              outputFile: Option<string>, progress: seq<MigrationProgress>,
                              outcome: ServiceOutcome<MigrationResult>) returns (request: Option<MigrationConfig>)
      modifies this`log, this`progressValue, this`startMigrationEnabled
      ensures outputFile.None? ==> request == None && log == old(log) && progressValue == old(progressValue)
      ensures outputFile.None? ==> startMigrationEnabled == old(startMigrationEnabled)
      ensures outputFile.Some? ==> !startMigrationEnabled
      ensures outputFile.Some? ==>
        && request == Some(BuildMigrationConfig(sourceConfig, targetConfig, includeChecks, outputFile.value))
        && log == old(log) + MigrationLog(progress, outcome)
        && progressValue == if |progress| > 0 then BarValue(progress[|progress| - 1].progressPercentage) else old(progressValue)
    {
      request := None;
      if outputFile.Some? {
        request := Some(BuildMigrationConfig(sourceConfig, targetConfig, includeChecks, outputFile.value));
        RunMigration(progress, outcome);
      }
    }

    /** The body of StartMigration_Click's `try`, given what the source and
        target resolvers gave: an exception from either is caught and logged;
        otherwise the dialog decides whether the migration runs. */
    method MigrateResolved(sourceConfig: Result<DatabaseConnectionConfig>, targetConfig: Result<DatabaseConnectionConfig>,
                           outputFile: Option<string>, progress: seq<MigrationProgress>,
                           outcome: ServiceOutcome<MigrationResult>) returns (request: Option<MigrationConfig>)
      modifies this`log, this`progressValue, this`startMigrationEnabled
      ensures request == MigrationRequest(sourceConfig, targetConfig, includeChecks, outputFile)
      ensures log == old(log) + StartMigrationLog(sourceConfig, targetConfig, outputFile, progress, outcome)
      ensures request.Some? ==> !startMigrationEnabled
      ensures request.None? ==> startMigrationEnabled == old(startMigrationEnabled)
      ensures progressValue == if request.Some? && |progress| > 0 then BarValue(progress[|progress| - 1].progressPercentage)
                               else old(progressValue)
    {
      if sourceConfig.Failure? {
        request := None;
        AppendLog(MigrationErrorPrefix + sourceConfig.error, Red);
      } else if targetConfig.Failure? {
        request := None;
        AppendLog(MigrationErrorPrefix + targetConfig.error, Red);
      } else {
        request := MigrateIfConfirmed(sourceConfig.value, targetConfig.value, outputFile, progress, outcome);
      }
    }

    /**
     * StartMigration_Click. `outputFile` is the save dialog's answer (None:
     * cancelled), `progress` the reports the service makes before it
     * finishes, and `outcome` what it returns or throws; `request` is the
     * configuration it is called with (None: it is not called). The source
     * and target panels are resolved before the dialog opens. The button is
     * enabled again on every path.
     */
    method StartMigrationClick(outputFile: Option<string>, progress: seq<MigrationProgress>,
                               outcome: ServiceOutcome<MigrationResult>) returns (request: Option<MigrationConfig>)
      modifies this`log, this`progressValue, this`startMigrationEnabled
      ensures var sourceConfig := GetSourceConnectionConfig(source);
        var targetConfig := GetTargetConnectionConfig(target, source.entries.databaseText);
        && request == MigrationRequest(sourceConfig, targetConfig, includeChecks, outputFile)
        && log == old(log) + StartMigrationLog(sourceConfig, targetConfig, outputFile, progress, outcome)
      ensures progressValue == if request.Some? && |progress| > 0 then BarValue(progress[|progress| - 1].progressPercentage)
                               else old(progressValue)
      ensures startMigrationEnabled
    {
      var sourceConfig := GetSourceConnectionConfig(source);
      var targetConfig := GetTargetConnectionConfig(target, source.entries.databaseText);
      request := MigrateResolved(sourceConfig, targetConfig, outputFile, progress, outcome);
      startMigrationEnabled := true;
      assert source == old(source) && target == old(target) && includeChecks == old(includeChecks);
    }
  }
}
