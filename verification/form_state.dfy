/**
 * The widget state of the main window's two connection panels (source and
 * target) and the selection-changed handlers that keep them in step, as pure
 * functions from the old widget state to the new one. The class in
 * main_window.dfy runs the same handlers step by step on its fields and is
 * proved to reach exactly the state these functions compute.
 *
 * Combo indices: the engine combo lists the item "MySQL" at index 0 and the
 * item "SQL Server" at index 1; the authentication combo lists Windows
 * authentication at index 0 and user name and password at index 1. Any other
 * index means that no item is selected.
 */
module FormState {
  import opened Wrappers

  const MySqlIndex: int := 0
  const SqlServerIndex: int := 1
  const WindowsAuthIndex: int := 0
  const SqlAuthIndex: int := 1

  const MySqlLabel: string := "MySQL"
  const SqlServerLabel: string := "SQL Server"

  /** The two items of an engine combo. */
  datatype DbTypeItem = MySqlItem | SqlServerItem {
    /** The item's `Content.ToString()`. */
    function Content(): string {
      if this == MySqlItem then MySqlLabel else SqlServerLabel
    }
  }

  /** The handlers tell the items apart by comparing their content with "MySQL"
      and "SQL Server"; each comparison holds for exactly one item. */
  lemma ContentIdentifiesItem(item: DbTypeItem)
    ensures item.Content() == MySqlLabel <==> item == MySqlItem
    ensures item.Content() == SqlServerLabel <==> item == SqlServerItem
  {
    assert |MySqlLabel| != |SqlServerLabel|;
  }

  /** An engine combo's `SelectedItem` for its `SelectedIndex` (None: null). */
  function SelectedDbType(index: int): (item: Option<DbTypeItem>)
    ensures item == Some(MySqlItem) <==> index == MySqlIndex
    ensures item == Some(SqlServerItem) <==> index == SqlServerIndex
  {
    if index == MySqlIndex then Some(MySqlItem)
    else if index == SqlServerIndex then Some(SqlServerItem)
    else None
  }

  datatype Side = Source | Target

  function Other(side: Side): (r: Side)
    ensures r != side
  {
    if side == Source then Target else Source
  }

  /** What the user typed into a panel's server, database, user name and
      password boxes; no handler writes these. */
  datatype Entries = Entries(serverText: string, databaseText: string, usernameText: string, password: string)

  /** The visibility of a panel's widgets: `true` for Visible, `false` for Collapsed. */
  datatype Visibility = Visibility(sqlAuthPanel: bool, userPassPanel: bool, databaseBox: bool, serverBox: bool)

  /** The widgets of one connection panel. */
  datatype EndpointWidgets = EndpointWidgets(
    dbTypeIndex: int,
    authTypeIndex: int,
    authTypeEnabled: bool,
    portText: string,
    entries: Entries,
    visibility: Visibility)

  /** Both panels. */
  datatype Form = Form(source: EndpointWidgets, target: EndpointWidgets) {
    function Get(side: Side): EndpointWidgets {
      if side == Source then source else target
    }

    function With(side: Side, e: EndpointWidgets): (r: Form)
      ensures r.Get(side) == e && r.Get(Other(side)) == Get(Other(side))
    {
      if side == Source then this.(source := e) else this.(target := e)
    }
  }

  /** The credential panels are shown exactly when user-name-and-password
      authentication is chosen; the server and database boxes are always shown. */
  predicate PanelsMatchAuth(e: EndpointWidgets) {
    var showCredentials := e.authTypeIndex != WindowsAuthIndex;
    e.visibility == Visibility(showCredentials, showCredentials, true, true)
  }

  /** A MySQL panel is locked to user-name-and-password authentication; a SQL
      Server panel lets the user choose. */
  predicate AuthConsistent(e: EndpointWidgets) {
    && (e.dbTypeIndex == MySqlIndex ==> e.authTypeIndex == SqlAuthIndex && !e.authTypeEnabled)
    && (e.dbTypeIndex == SqlServerIndex ==> e.authTypeEnabled)
  }

  /** The two panels name the two different engines. */
  predicate Complementary(f: Form) {
    || (f.source.dbTypeIndex == MySqlIndex && f.target.dbTypeIndex == SqlServerIndex)
    || (f.source.dbTypeIndex == SqlServerIndex && f.target.dbTypeIndex == MySqlIndex)
  }

  /** The state that every user action keeps once it holds. */
  predicate Synced(f: Form) {
    && Complementary(f)
    && AuthConsistent(f.source) && AuthConsistent(f.target)
    && PanelsMatchAuth(f.source) && PanelsMatchAuth(f.target)
  }

  /** The port text an engine handler writes into its panel. */
  function DefaultPortText(item: DbTypeItem): string {
    if item.Content() == MySqlLabel then "3306" else "1433"
  }

  /** What the engine handler leaves in the panel it ran for: the engine's
      default port text, authentication locked for MySQL and unlocked (with the
      user's choice kept) for SQL Server, and every entry as it was. */
  predicate HandledPanel(before: EndpointWidgets, after: EndpointWidgets) {
    && after.dbTypeIndex == before.dbTypeIndex
    && after.portText == (if before.dbTypeIndex == MySqlIndex then "3306" else "1433")
    && AuthConsistent(after)
    && (before.dbTypeIndex == SqlServerIndex ==> after.authTypeIndex == before.authTypeIndex)
    && after.entries == before.entries
    && (PanelsMatchAuth(before) ==> PanelsMatchAuth(after))
  }

  /** UpdateSourceAuthPanel / UpdateTargetAuthPanel: shows or collapses the
      credential panels for the chosen authentication. */
  function AuthPanelUpdated(e: EndpointWidgets): (r: EndpointWidgets)
    ensures PanelsMatchAuth(r)
    ensures r.(visibility := e.visibility) == e
  {
    var showCredentials := e.authTypeIndex != WindowsAuthIndex;
    e.(visibility := Visibility(showCredentials, showCredentials, true, true))
  }

  /** `AuthTypeCombo.SelectedIndex = index`: the combo raises SelectionChanged,
      whose handler refreshes the panel, only when the index really changes. */
  function AuthTypeIndexAssigned(e: EndpointWidgets, index: int): (r: EndpointWidgets)
    ensures r.authTypeIndex == index
    ensures PanelsMatchAuth(e) ==> PanelsMatchAuth(r)
    ensures r.(authTypeIndex := e.authTypeIndex, visibility := e.visibility) == e
  {
    if e.authTypeIndex == index then e else AuthPanelUpdated(e.(authTypeIndex := index))
  }

  /** The authentication link at the end of an engine handler: MySQL forces
      user-name-and-password authentication and disables the combo; SQL Server
      enables the combo and keeps the chosen authentication. */
  function AuthLinked(e: EndpointWidgets, item: DbTypeItem): (r: EndpointWidgets)
    ensures item == MySqlItem ==> r.authTypeIndex == SqlAuthIndex && !r.authTypeEnabled
    ensures item == SqlServerItem ==> r.authTypeEnabled && r.authTypeIndex == e.authTypeIndex
    ensures r.dbTypeIndex == e.dbTypeIndex && r.portText == e.portText && r.entries == e.entries
    ensures PanelsMatchAuth(e) ==> PanelsMatchAuth(r)
  {
    ContentIdentifiesItem(item);
    if item.Content() == MySqlLabel then
      AuthTypeIndexAssigned(e, SqlAuthIndex).(authTypeEnabled := false)
    else
      e.(authTypeEnabled := true)
  }

  /** The engine index the handler assigns to the other panel, if any. */
  function LinkedIndex(item: DbTypeItem): (index: int)
    ensures item == MySqlItem ==> index == SqlServerIndex
    ensures item == SqlServerItem ==> index == MySqlIndex
  {
    ContentIdentifiesItem(item);
    if item.Content() == SqlServerLabel then MySqlIndex
    else SqlServerIndex
  }

  /**
   * SourceDbType_SelectionChanged / TargetDbType_SelectionChanged, run on the
   * panel `side` whose engine index has just changed. It resets that panel's
   * port text, assigns the complementary engine to the other panel when that
   * one differs (whose own handler then runs, nested), and locks or unlocks
   * the authentication combo. The nested handler finds the two engines
   * already complementary and assigns nothing, so the cascade stops there.
   */
  function DbTypeSelectionChanged(f: Form, side: Side): (r: Form)
    decreases if Complementary(f) then 0 else 1
    ensures r.source.entries == f.source.entries && r.target.entries == f.target.entries
  {
    match SelectedDbType(f.Get(side).dbTypeIndex)
    case None => f
    case Some(item) =>
      var f1 := f.With(side, f.Get(side).(portText := DefaultPortText(item)));
      var other := f1.Get(Other(side));
      var f2 :=
        if other.dbTypeIndex != LinkedIndex(item)
        then DbTypeSelectionChanged(f1.With(Other(side), other.(dbTypeIndex := LinkedIndex(item))), Other(side))
        else f1;
      f2.With(side, AuthLinked(f2.Get(side), item))
  }

  /** The nested run of the handler: the engines are already complementary, so
      it touches only its own panel. */
  lemma HandlerWhenComplementary(f: Form, side: Side)
    requires Complementary(f)
    ensures var r := DbTypeSelectionChanged(f, side);
      && r.Get(Other(side)) == f.Get(Other(side))
      && HandledPanel(f.Get(side), r.Get(side))
  {
  }

  /** The outer run of the handler when the other panel has to be switched:
      the nested run on the switched form, then the authentication link on this
      panel. */
  lemma SwitchingUnfolds(f: Form, side: Side)
    requires SelectedDbType(f.Get(side).dbTypeIndex).Some?
    requires f.Get(Other(side)).dbTypeIndex != 1 - f.Get(side).dbTypeIndex
    ensures var e, o := f.Get(side), f.Get(Other(side));
      var item := SelectedDbType(e.dbTypeIndex).value;
      var g := f.With(side, e.(portText := DefaultPortText(item))).With(Other(side), o.(dbTypeIndex := 1 - e.dbTypeIndex));
      var f2 := DbTypeSelectionChanged(g, Other(side));
      && Complementary(g)
      && f2.Get(side) == e.(portText := DefaultPortText(item))
      && HandledPanel(o.(dbTypeIndex := 1 - e.dbTypeIndex), f2.Get(Other(side)))
      && DbTypeSelectionChanged(f, side) == f2.With(side, AuthLinked(f2.Get(side), item))
  {
    var e, o := f.Get(side), f.Get(Other(side));
    var item := SelectedDbType(e.dbTypeIndex).value;
    var g := f.With(side, e.(portText := DefaultPortText(item))).With(Other(side), o.(dbTypeIndex := 1 - e.dbTypeIndex));
    assert Other(Other(side)) == side;
    HandlerWhenComplementary(g, Other(side));
  }

  /** The outer run of the handler when the other panel has to be switched: the
      nested run applies the engine defaults to the other panel and leaves this
      panel as the outer run had it. */
  lemma HandlerWhenSwitching(f: Form, side: Side)
    requires SelectedDbType(f.Get(side).dbTypeIndex).Some?
    requires f.Get(Other(side)).dbTypeIndex != 1 - f.Get(side).dbTypeIndex
    ensures var r, o, j := DbTypeSelectionChanged(f, side), f.Get(Other(side)), 1 - f.Get(side).dbTypeIndex;
      && Complementary(r)
      && HandledPanel(f.Get(side), r.Get(side))
      && HandledPanel(o.(dbTypeIndex := j), r.Get(Other(side)))
  {
    SwitchingUnfolds(f, side);
  }

  /** The engine handler leaves the two panels on different engines. It applies
      the engine defaults to its own panel, and to the other panel too when that
      one had to be switched; an other panel already on the complementary
      engine is left exactly as it was. */
  lemma HandlerSynchronises(f: Form, side: Side)
    requires SelectedDbType(f.Get(side).dbTypeIndex).Some?
    ensures var r, o, j := DbTypeSelectionChanged(f, side), f.Get(Other(side)), 1 - f.Get(side).dbTypeIndex;
      && Complementary(r)
      && HandledPanel(f.Get(side), r.Get(side))
      && (o.dbTypeIndex == j ==> r.Get(Other(side)) == o)
      && (o.dbTypeIndex != j ==> HandledPanel(o.(dbTypeIndex := j), r.Get(Other(side))))
  {
    if f.Get(Other(side)).dbTypeIndex == 1 - f.Get(side).dbTypeIndex {
      HandlerWhenComplementary(f, side);
    } else {
      HandlerWhenSwitching(f, side);
    }
  }

  /** A handler run on a panel with no selected engine changes nothing. */
  lemma HandlerWithoutSelection(f: Form, side: Side)
    requires SelectedDbType(f.Get(side).dbTypeIndex).None?
    ensures DbTypeSelectionChanged(f, side) == f
  {
  }

  /** The user picks item `index` of a panel's engine combo: SelectionChanged
      fires only when the selection changes. */
  function SelectDbType(f: Form, side: Side, index: int): (r: Form)
    requires index == MySqlIndex || index == SqlServerIndex
    ensures r.Get(side).dbTypeIndex == index
    ensures index != f.Get(side).dbTypeIndex ==> Complementary(r) && AuthConsistent(r.Get(side))
  {
    var e := f.Get(side);
    if e.dbTypeIndex == index then f
    else
      var g := f.With(side, e.(dbTypeIndex := index));
      HandlerSynchronises(g, side);
      DbTypeSelectionChanged(g, side)
  }

  /** The user picks item `index` of a panel's authentication combo; a disabled
      combo takes no input. */
  function SelectAuthType(f: Form, side: Side, index: int): (r: Form)
    requires index == WindowsAuthIndex || index == SqlAuthIndex
    ensures !f.Get(side).authTypeEnabled ==> r == f
    ensures f.Get(side).authTypeEnabled ==> r.Get(side).authTypeIndex == index
    ensures r.Get(Other(side)) == f.Get(Other(side))
  {
    var e := f.Get(side);
    if !e.authTypeEnabled then f else f.With(side, AuthTypeIndexAssigned(e, index))
  }

  /** Choosing an engine for one panel gives the other panel the other engine,
      resets both port texts that changed engine to their engine's default,
      keeps every server, database and credential entry, and leaves the other
      panel untouched if it already named the other engine. */
  lemma EngineSelectionSynchronises(f: Form, side: Side, index: int)
    requires index == MySqlIndex || index == SqlServerIndex
    requires index != f.Get(side).dbTypeIndex
    ensures var r, o := SelectDbType(f, side, index), f.Get(Other(side));
      && r.Get(side).dbTypeIndex == index
      && r.Get(Other(side)).dbTypeIndex == 1 - index
      && r.Get(side).portText == (if index == MySqlIndex then "3306" else "1433")
      && r.source.entries == f.source.entries && r.target.entries == f.target.entries
      && (o.dbTypeIndex == 1 - index ==> r.Get(Other(side)) == o)
      && (o.dbTypeIndex != 1 - index ==>
            r.Get(Other(side)).portText == (if index == MySqlIndex then "1433" else "3306"))
  {
    var g := f.With(side, f.Get(side).(dbTypeIndex := index));
    assert g.Get(Other(side)) == f.Get(Other(side));
    HandlerSynchronises(g, side);
    assert Other(Other(side)) == side;
  }

  /** Choosing MySQL locks the panel to user-name-and-password authentication;
      choosing SQL Server unlocks the combo and keeps the chosen authentication. */
  lemma EngineSelectionSetsAuth(f: Form, side: Side, index: int)
    requires index == MySqlIndex || index == SqlServerIndex
    requires index != f.Get(side).dbTypeIndex
    ensures var e := SelectDbType(f, side, index).Get(side);
      && (index == MySqlIndex ==> e.authTypeIndex == SqlAuthIndex && !e.authTypeEnabled)
      && (index == SqlServerIndex ==> e.authTypeEnabled && e.authTypeIndex == f.Get(side).authTypeIndex)
  {
    HandlerSynchronises(f.With(side, f.Get(side).(dbTypeIndex := index)), side);
  }

  /** An engine pick that switches the other panel brings the two panels in
      step, from any form whose credential widgets match their authentication. */
  lemma EngineSelectionEstablishesSync(f: Form, side: Side, index: int)
    requires index == MySqlIndex || index == SqlServerIndex
    requires index != f.Get(side).dbTypeIndex
    requires f.Get(Other(side)).dbTypeIndex != 1 - index
    requires PanelsMatchAuth(f.source) && PanelsMatchAuth(f.target)
    ensures Synced(SelectDbType(f, side, index))
  {
    var g := f.With(side, f.Get(side).(dbTypeIndex := index));
    HandlerSynchronises(g, side);
    assert Other(Other(side)) == side;
  }

  /** Once the two panels are in step, every user selection keeps them in step. */
  lemma UserSelectionsKeepSync(f: Form, side: Side, index: int)
    requires Synced(f)
    requires index == 0 || index == 1
    ensures Synced(SelectDbType(f, side, index))
    ensures Synced(SelectAuthType(f, side, index))
  {
    var e := f.Get(side);
    if e.dbTypeIndex != index {
      var g := f.With(side, e.(dbTypeIndex := index));
      assert f.Get(Other(side)).dbTypeIndex == index;
      assert Other(Other(side)) == side;
      HandlerSynchronises(g, side);
    }
  }
}
