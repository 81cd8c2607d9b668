# Database migration tool — main window model

A Dafny model of the main window of a WPF tool that migrates a MySQL or SQL
Server database. The window has two connection panels, source and target. Each
panel holds:

- an engine combo (MySQL or SQL Server);
- an authentication combo (Windows authentication, or user name and password);
- server, port, database, user name and password boxes.

The window also has seven "include" check boxes, a progress bar, a coloured log
and three buttons: test source, test target, start migration. The model covers
all of `MainWindow.xaml.cs`, in three parts.

- **Resolving a panel into a connection descriptor**
  (`connection_config.dfy`, with the .NET text helpers in `text.dfy`).
  - `GetPort`, `GetSourceConnectionConfig` and `GetTargetConnectionConfig` are
    pure functions.
  - Windows authentication gives port 0 and blank credentials.
  - Otherwise the port text is read with a model of `int.TryParse`, falling
    back to 3306 or 1433.
  - A blank target database name falls back to the source database text.
  - A combo with no selected item makes the resolver throw a
    NullReferenceException. This is modelled as a `Failure`.
- **The selection-changed handlers**
  (`form_state.dfy`, and the class in `main_window.dfy`).
  - Choosing an engine on one panel resets that panel's port text.
  - It also sets the other panel to the other engine. That fires the other
    panel's handler, nested, and the nested run stops because the engines are
    then complementary.
  - MySQL locks authentication to user name and password; SQL Server unlocks it.
  - Changing the authentication shows or collapses the credential widgets.
  - `FormState` gives each handler as a pure function on the widget state.
  - `MainWindowModel.MainWindow` runs the same handlers step by step on its
    fields, including the mutual re-entry. Each method is proved to reach the
    state the pure function computes.
  - A decreasing measure (`Complementary` or not) proves that the cascade ends.
    A ghost counter bounds it at two handler runs.
- **The click handlers and the log** (`orchestration.dfy`, `main_window.dfy`).
  - The migration service is an input to the click methods: what it returns or
    throws, and the progress reports it makes.
  - The functions in `Orchestration` give the exact log entries for every exit
    path. They also give the request handed to the service.
  - The methods are proved to append exactly those entries. They keep the
    start button enabled on every path. They leave the progress bar at the last
    reported percentage, held within 0 to 100 as WPF's `RangeBase` coerces it.

Combo indices: engine index 0 is "MySQL" and 1 is "SQL Server". Authentication
index 0 is Windows authentication and 1 is user name and password. Any other
index means no item is selected. The window markup is not part of this model,
so these indices, and the widget values the markup sets, are inputs to the
constructor.

## Model

| member | source | states |
|---|---|---|
| Text.IsNullOrWhiteSpace | MainWindow.xaml.cs:162 | empty text counts as blank (also used at lines 190 and 325); blank non-empty text starts and ends with white space |
| Text.ToLower | MainWindow.xaml.cs:307 | lower-casing keeps the length and maps each character through `char.ToLower` (ASCII letters) |
| Text.ParseInt32 | MainWindow.xaml.cs:300 | `int.TryParse` succeeds only with a 32-bit value and only on text containing a digit |
| Text.ParseDecimalRoundTrip | MainWindow.xaml.cs:300-301 | every 32-bit integer written in decimal is parsed back to itself |
| Text.ParseDefaultPorts | MainWindow.xaml.cs:38-39 | the default port texts "3306" and "1433" parse as 3306 and 1433 |
| FormState.SelectedDbType | MainWindow.xaml.cs:57 | index 0 selects the MySQL item, index 1 the SQL Server item, anything else nothing |
| FormState.ContentIdentifiesItem | MainWindow.xaml.cs:59-72 | comparing an item's content with "MySQL" / "SQL Server" holds for exactly that item |
| FormState.AuthPanelUpdated | MainWindow.xaml.cs:123-157 | credential panels shown exactly when the authentication index is not 0, server and database boxes always shown, nothing else changed |
| FormState.AuthTypeIndexAssigned | MainWindow.xaml.cs:74 | assigning the authentication index sets it, keeps the panels matching the authentication, changes nothing else |
| FormState.AuthLinked | MainWindow.xaml.cs:72-80 | MySQL sets authentication index 1 and disables the combo; SQL Server enables it and keeps the index; engine, port and entries kept |
| FormState.LinkedIndex | MainWindow.xaml.cs:61-70 | the index written into the other panel is the other engine |
| FormState.DbTypeSelectionChanged | MainWindow.xaml.cs:55-111 | the engine handler keeps the server, database, user name and password texts of both panels; its effect on engines, ports and authentication is stated by the handler lemmas below |
| FormState.HandlerWhenComplementary | MainWindow.xaml.cs:55-111 | the nested handler run changes only its own panel: default port, authentication link, entries kept |
| FormState.SwitchingUnfolds | MainWindow.xaml.cs:55-111 | the outer run is the nested run on the switched form followed by the authentication link |
| FormState.HandlerWhenSwitching | MainWindow.xaml.cs:55-111 | when the other panel must switch, both panels end with their engine defaults and complementary engines |
| FormState.HandlerSynchronises | MainWindow.xaml.cs:55-111 | after the handler the engines differ; both touched panels get their engine defaults; an already complementary panel is untouched |
| FormState.HandlerWithoutSelection | MainWindow.xaml.cs:57 | with no selected item the handler changes nothing |
| FormState.SelectDbType | MainWindow.xaml.cs:45-46 | picking an engine sets it; a real change leaves complementary engines and consistent authentication |
| FormState.SelectAuthType | MainWindow.xaml.cs:47-48 | a disabled combo ignores the pick; otherwise the index is set; the other panel is untouched |
| FormState.EngineSelectionSynchronises | MainWindow.xaml.cs:59-70 | picking an engine resets the port text, gives the other panel the other engine and its default port, and keeps every entry |
| FormState.EngineSelectionEstablishesSync | MainWindow.xaml.cs:55-111 | from panels that match their authentication, an engine pick that switches the other panel leaves both panels in step (complementary engines, consistent authentication) |
| FormState.EngineSelectionSetsAuth | MainWindow.xaml.cs:72-80 | picking MySQL locks user-name-and-password authentication; picking SQL Server unlocks and keeps the choice |
| FormState.UserSelectionsKeepSync | MainWindow.xaml.cs:55-157 | once the panels are in step, every engine or authentication pick keeps them in step |
| ConnectionConfig.DbType | MainWindow.xaml.cs:307 | the resolver's engine text is "mysql" or "sql server" |
| ConnectionConfig.LowerLabels | MainWindow.xaml.cs:323 | the two labels lower-case to "mysql" and "sql server" |
| ConnectionConfig.GetPort | MainWindow.xaml.cs:296-303 | the result is a 32-bit integer; it is 0 only in the sentinel case or for port text that parses as 0 |
| ConnectionConfig.GetSourceConnectionConfig | MainWindow.xaml.cs:305-319 | throws exactly when no engine is selected; otherwise engine text, server, raw database text; Windows authentication gives port 0 and blank credentials, else GetPort and the typed credentials |
| ConnectionConfig.GetTargetConnectionConfig | MainWindow.xaml.cs:321-338 | as the source resolver, with the database name falling back to the source text when the target text is blank |
| ConnectionConfig.TargetIsSourceWithFallback | MainWindow.xaml.cs:321-338 | the target resolver equals the source resolver on the panel with its database text replaced by the fallback |
| ConnectionConfig.TargetDatabaseName | MainWindow.xaml.cs:325-327 | the target database name is blank iff both texts are blank; a non-blank target text is kept |
| ConnectionConfig.GetPortReadsDecimal | MainWindow.xaml.cs:300-301 | outside the sentinel case, GetPort returns any 32-bit integer written in decimal |
| ConnectionConfig.SentinelCaseUnreachable | MainWindow.xaml.cs:298-299 | the engine texts are never "sqlserver", so the sentinel branch never applies to them |
| ConnectionConfig.ResolvedPort | MainWindow.xaml.cs:313 | with user-name-and-password authentication the port is the parsed text, else 3306 for MySQL and 1433 for SQL Server; both resolvers agree apart from the database name |
| ConnectionConfig.EngineSelectionResolvesDefaultPort | MainWindow.xaml.cs:59 | right after picking an engine the panel resolves to that engine at its default port (0 for SQL Server with Windows authentication) |
| ConnectionConfig.MySqlWithWindowsAuthResolvesIntegrated | MainWindow.xaml.cs:308 | the resolver does not force credentials: a MySQL panel on Windows authentication resolves to integrated security, port 0 |
| ConnectionConfig.UnparsablePortScenario | MainWindow.xaml.cs:300-302 | port text "oops" on MySQL resolves to 3306 |
| ConnectionConfig.ExplicitPortScenario | MainWindow.xaml.cs:300-301 | port text "14330" resolves to 14330 |
| Orchestration.CheckedOrDefault | MainWindow.xaml.cs:223 | an indeterminate check box counts as checked |
| Orchestration.BuildMigrationConfig | MainWindow.xaml.cs:219-230 | the request carries both descriptors and the output path; each include flag is false only for an unchecked box |
| Orchestration.TestConnectionEntry | MainWindow.xaml.cs:172-184 | the entry is green iff the service answered true, red otherwise; after an exception it ends with the exception's message |
| Orchestration.TestConnectionLog | MainWindow.xaml.cs:159-185 | no entry when the engine, server or the panel's own database text is missing; otherwise exactly the one entry for the answer |
| Orchestration.ReadyToTest | MainWindow.xaml.cs:162 | a panel passes the required-field check (also at line 190) only with non-empty server and database texts |
| Orchestration.ResolveConnection | MainWindow.xaml.cs:169 | the descriptor a test uses resolves exactly when the panel has an engine |
| Orchestration.TargetTestIgnoresFallback | MainWindow.xaml.cs:190 | a blank target database text stops the target test even though the resolver would fall back to the source text |
| Orchestration.MigrationRequest | MainWindow.xaml.cs:219-245 | the service is called iff both resolvers succeed and the dialog is confirmed, with both descriptors and the chosen path |
| Orchestration.StartMigrationLog | MainWindow.xaml.cs:215-273 | a resolver failure logs one red entry; a cancelled dialog logs nothing; a confirmed run starts with "started" and logs at least one more entry |
| Orchestration.StartMigrationExits | MainWindow.xaml.cs:215-273 | no engine: one error entry with the exception message; dialog cancelled: no entry; confirmed: the run's entries |
| Orchestration.BarValue | MainWindow.xaml.cs:279 | the bar value lies in 0..100: a percentage in range is shown as is, one below 0 as 0, one above 100 as 100 |
| Orchestration.ProgressEntriesAt | MainWindow.xaml.cs:275-282 | one blue entry per progress report, in order, carrying its message |
| Orchestration.PrefixedEntriesAt | MainWindow.xaml.cs:250-261 | one entry per warning or error, in order, each the prefix followed by the item |
| Orchestration.OutcomeEntries | MainWindow.xaml.cs:247-268 | the first entry is green iff the service returned success; a returned result gives one entry more than its warnings or errors; an exception gives one red entry ending with its message |
| Orchestration.MigrationLog | MainWindow.xaml.cs:243-262 | a run's log starts with the blue "started" entry and has one entry per progress report plus the outcome's entries |
| Orchestration.MigrationLogOrder | MainWindow.xaml.cs:243-262 | a run logs "started", then every progress message in order, then the outcome's entries |
| Orchestration.SuccessfulRunListsWarnings | MainWindow.xaml.cs:247-254 | a successful run ends with "completed" and the warnings in order, and logs no red entry |
| Orchestration.FailedRunListsErrors | MainWindow.xaml.cs:255-262 | a failed run ends with "failed" and the errors in order: one more red entry than there are errors |
| Orchestration.ThrownRunLogsOneError | MainWindow.xaml.cs:265-268 | an exception from the service gives exactly one red entry, the last, ending with its message |
| Orchestration.WarningScenario | MainWindow.xaml.cs:243-254 | success with the single warning "view X skipped" logs exactly started, completed, that warning |
| MainWindowModel.MainWindow.constructor | MainWindow.xaml.cs:31-53 | ports "3306" and "1433", both authentication panels refreshed, empty log, start button enabled |
| MainWindowModel.MainWindow.UpdateAuthPanel | MainWindow.xaml.cs:123-157 | the window reaches `AuthPanelUpdated` of the panel; the panel shows what its authentication needs |
| MainWindowModel.MainWindow.AuthTypeSelectionChanged | MainWindow.xaml.cs:113-121 | the handler refreshes the panel's credential widgets |
| MainWindowModel.MainWindow.AssignAuthTypeIndex | MainWindow.xaml.cs:103 | assigning the index fires the refresh only on a change: the window reaches `AuthTypeIndexAssigned` |
| MainWindowModel.MainWindow.DbTypeSelectionChanged | MainWindow.xaml.cs:55-111 | the window reaches `FormState.DbTypeSelectionChanged`, with one or two handler runs (one when the engines were already complementary) |
| MainWindowModel.MainWindow.SelectDbType | MainWindow.xaml.cs:45-46 | the window reaches `FormState.SelectDbType` and keeps its panels matching their authentication |
| MainWindowModel.MainWindow.SelectAuthType | MainWindow.xaml.cs:47-48 | the window reaches `FormState.SelectAuthType` and keeps its panels matching their authentication |
| MainWindowModel.MainWindow.AppendLog | MainWindow.xaml.cs:284-294 | one entry appended at the end of the log |
| MainWindowModel.MainWindow.UpdateProgress | MainWindow.xaml.cs:275-282 | the progress bar takes the percentage coerced into 0..100 (`BarValue`), unchanged when already in range, and the message is appended in blue |
| MainWindowModel.MainWindow.TestConnectionClick | MainWindow.xaml.cs:159-213 | calls the service iff the panel is ready, with the resolved descriptor, and appends exactly `TestConnectionLog` |
| MainWindowModel.MainWindow.AppendEach | MainWindow.xaml.cs:250-253 | the loop appends one prefixed entry per item, in order |
| MainWindowModel.MainWindow.LogOutcome | MainWindow.xaml.cs:247-268 | appends exactly the outcome's entries |
| MainWindowModel.MainWindow.ReportProgress | MainWindow.xaml.cs:275-282 | appends the progress entries in order; the bar shows the last percentage coerced into 0..100, or is unchanged without reports |
| MainWindowModel.MainWindow.RunMigration | MainWindow.xaml.cs:242-262 | disables the button and appends exactly `MigrationLog` |
| MainWindowModel.MainWindow.MigrateIfConfirmed | MainWindow.xaml.cs:239-263 | a cancelled dialog changes nothing, the start button included; a confirmed one calls the service with the request, logs the run and leaves the button disabled |
| MainWindowModel.MainWindow.MigrateResolved | MainWindow.xaml.cs:217-268 | a resolver exception is caught and logged; the window reaches `MigrationRequest` and `StartMigrationLog`; the button is disabled exactly when the service was called, otherwise untouched |
| MainWindowModel.MainWindow.StartMigrationClick | MainWindow.xaml.cs:215-273 | request and log as `MigrationRequest` and `StartMigrationLog` of the resolved panels; the start button is enabled on every path |

The resolvers are functions, so resolving the same widget state twice gives
equal descriptors.

The constructor does not run the engine handler: the handlers are attached
after the markup is loaded. A window whose markup starts a panel on MySQL with
Windows authentication therefore keeps that combination until the engine
handler runs on that panel, for instance through an engine pick that switches
the other panel (`EngineSelectionEstablishesSync`).

## Left out

- Rendering, layout and the window markup. The initial widget values the markup
  sets are constructor parameters, and the progress bar starts at 0.
- `MessageBox.Show` after a failed required-field check. It is modelled as "no
  log entry and no service call".
- The save dialog. It is an input `Option<string>`, where None means cancelled.
  The filter and title are not modelled.
- The progress bar's `Minimum` and `Maximum` are taken as WPF's defaults, 0 and
  100; the markup that could change them is not part of this model.
- `async`/`await` and the `Dispatcher.Invoke` in `UpdateProgress`. Progress
  reports are a sequence delivered in order before the service's result. A
  report posted after the result would, in the running program, land after the
  outcome entries; the model does not capture that interleaving.
- The migration service (`IDatabaseMigrationService`) and the types of
  `DatabaseMigrationTool.Core`. Their code is not part of this model. The
  service's answer is an input: `Returns` or `Throws(message)`.
- `AppendLog`'s `DateTime.Now` timestamp prefix and the brushes. An entry is its
  message and one of four colours.
- App.xaml.cs (service container and startup): it has no behaviour beyond
  wiring, and is not part of this model.
- Text.ParseInt32: models `int.TryParse` with `NumberStyles.Integer` under the
  invariant culture. It accepts leading and trailing white space (U+0009 to
  U+000D and U+0020), one optional `+` or `-`, ASCII digits and the 32-bit
  range. Culture-specific signs, trailing NUL characters and non-ASCII digits
  are not modelled.
- Text.ToLower: lower-cases ASCII letters only. The model applies it only to
  the two combo labels.
- ConnectionConfig.DbType: the `?? "mysql"` fallback at MainWindow.xaml.cs:307
  and :323 is not modelled. The combo items' content is never null, so the
  fallback cannot apply.
- ConnectionConfig.GetPort: the return value is 0 for port text that parses as
  0, even without integrated security, and the contract states exactly that.
  The `"sqlserver"` sentinel branch (line 298) is kept as written.
  `SentinelCaseUnreachable` shows it never fires.
- The resolvers do not force user-name-and-password credentials for MySQL; only
  the engine handler keeps a MySQL panel on that authentication (see
  `MySqlWithWindowsAuthResolvesIntegrated`).
- The exception message of a failed resolution is .NET's standard
  NullReferenceException text. Any other exception the resolvers might raise
  cannot arise in this model.
