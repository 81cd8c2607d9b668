/**
 * Connection-descriptor resolution: GetPort, GetSourceConnectionConfig and
 * GetTargetConnectionConfig, which turn one panel's widget state into the
 * DatabaseConnectionConfig handed to the migration service.
 */
module ConnectionConfig {
  import opened Wrappers
  import opened Text
  import opened FormState

  /** The resolved descriptor of one endpoint. */
  datatype DatabaseConnectionConfig = DatabaseConnectionConfig(
    databaseType: string,
    server: string,
    port: int,
    databaseName: string,
    username: string,
    password: string,
    integratedSecurity: bool)

  /** The message of the NullReferenceException raised by reading the content
      of a combo that has no selected item. */
  const NullReferenceMessage: string := "Object reference not set to an instance of an object."

  /** The resolver's engine text: the selected item's content, lower-cased. */
  function DbType(item: DbTypeItem): (t: string)
    ensures item == MySqlItem ==> t == "mysql"
    ensures item == SqlServerItem ==> t == "sql server"
  {
    LowerLabels();
    ToLower(item.Content())
  }

  lemma LowerLabels()
    ensures ToLower(MySqlLabel) == "mysql"
    ensures ToLower(SqlServerLabel) == "sql server"
  {
    var m, q := MySqlLabel, SqlServerLabel;
    assert LowerChar(m[0]) == 'm' && LowerChar(m[2]) == 's' && LowerChar(m[3]) == 'q' && LowerChar(m[4]) == 'l';
    ToLowerByLetters(m, "mysql");
    assert LowerChar(q[0]) == 's' && LowerChar(q[4]) == 's';
    ToLowerByLetters(q, "sql server");
  }

  /**
   * GetPort: 0 for integrated security on an engine named "sqlserver", else the
   * port text when it parses as a 32-bit integer, else the engine's default
   * port (3306 for "mysql", 1433 for anything else).
   */
  function GetPort(dbType: string, portText: string, integratedSecurity: bool): (port: int)
    ensures InInt32(port)
    ensures port == 0 ==> (integratedSecurity && ToLower(dbType) == "sqlserver") || ParseInt32(portText) == Some(0)
  {
    if integratedSecurity && ToLower(dbType) == "sqlserver" then 0
    else
      match ParseInt32(portText)
      case Some(port) => port
      case None => if ToLower(dbType) == "mysql" then 3306 else 1433
  }

  /** What the resolver makes of one panel, with `databaseName` as the database:
      Windows authentication (index 0) gives integrated security, port 0 and
      blank credentials whatever the engine; any other choice gives the port
      GetPort reads from the port text and the credentials exactly as typed. */
  predicate ResolvedFrom(c: DatabaseConnectionConfig, e: EndpointWidgets, item: DbTypeItem, databaseName: string) {
    && c.databaseType == DbType(item)
    && c.server == e.entries.serverText
    && c.databaseName == databaseName
    && c.integratedSecurity == (e.authTypeIndex == WindowsAuthIndex)
    && (c.integratedSecurity ==> c.port == 0 && c.username == "" && c.password == "")
    && (!c.integratedSecurity ==>
          && c.port == GetPort(c.databaseType, e.portText, false)
          && c.username == e.entries.usernameText
          && c.password == e.entries.password)
  }

  /** GetSourceConnectionConfig. Reading the engine of a combo with no selected
      item throws a NullReferenceException. */
  function GetSourceConnectionConfig(source: EndpointWidgets): (r: Result<DatabaseConnectionConfig>)
    ensures r.Failure? <==> SelectedDbType(source.dbTypeIndex).None?
    ensures r.Failure? ==> r.error == NullReferenceMessage
    ensures r.Success? ==>
      ResolvedFrom(r.value, source, SelectedDbType(source.dbTypeIndex).value, source.entries.databaseText)
  {
    match SelectedDbType(source.dbTypeIndex)
    case None => Failure(NullReferenceMessage)
    case Some(item) =>
      var dbType := DbType(item);
      var integratedSecurity := source.authTypeIndex == WindowsAuthIndex;
      Success(DatabaseConnectionConfig(
        dbType,
        source.entries.serverText,
        if integratedSecurity then 0 else GetPort(dbType, source.portText, false),
        source.entries.databaseText,
        if integratedSecurity then "" else source.entries.usernameText,
        if integratedSecurity then "" else source.entries.password,
        integratedSecurity))
  }

  /** GetTargetConnectionConfig: as the source resolver, except that a blank
      target database name falls back to the source panel's database text. */
  function GetTargetConnectionConfig(target: EndpointWidgets, sourceDatabaseText: string): (r: Result<DatabaseConnectionConfig>)
    ensures r.Failure? <==> SelectedDbType(target.dbTypeIndex).None?
    ensures r.Failure? ==> r.error == NullReferenceMessage
    ensures r.Success? ==>
      ResolvedFrom(r.value, target, SelectedDbType(target.dbTypeIndex).value,
        if IsNullOrWhiteSpace(target.entries.databaseText) then sourceDatabaseText else target.entries.databaseText)
  {
    match SelectedDbType(target.dbTypeIndex)
    case None => Failure(NullReferenceMessage)
    case Some(item) =>
      var dbType := DbType(item);
      var integratedSecurity := target.authTypeIndex == WindowsAuthIndex;
      var dbName := if IsNullOrWhiteSpace(target.entries.databaseText)
        then sourceDatabaseText
        else target.entries.databaseText;
      Success(DatabaseConnectionConfig(
        dbType,
        target.entries.serverText,
        if integratedSecurity then 0 else GetPort(dbType, target.portText, false),
        dbName,
        if integratedSecurity then "" else target.entries.usernameText,
        if integratedSecurity then "" else target.entries.password,
        integratedSecurity))
  }

  /** The target resolver is the source resolver applied to the target panel
      with its database text already replaced by the fallback. */
  lemma TargetIsSourceWithFallback(target: EndpointWidgets, sourceDatabaseText: string)
    ensures var dbName := if IsNullOrWhiteSpace(target.entries.databaseText)
                          then sourceDatabaseText else target.entries.databaseText;
      GetTargetConnectionConfig(target, sourceDatabaseText)
        == GetSourceConnectionConfig(target.(entries := target.entries.(databaseText := dbName)))
  {
  }

  /** The resolved target database name is blank only when both the target and
      the source database texts are blank; a non-blank target text is kept. */
  lemma TargetDatabaseName(target: EndpointWidgets, sourceDatabaseText: string)
    requires SelectedDbType(target.dbTypeIndex).Some?
    ensures var c := GetTargetConnectionConfig(target, sourceDatabaseText).value;
      && (var bothBlank := IsNullOrWhiteSpace(target.entries.databaseText) && IsNullOrWhiteSpace(sourceDatabaseText);
          IsNullOrWhiteSpace(c.databaseName) <==> bothBlank)
      && (!IsNullOrWhiteSpace(target.entries.databaseText) ==> c.databaseName == target.entries.databaseText)
  {
  }

  /** GetPort reads back any 32-bit integer written in decimal, unless its
      sentinel case applies. */
  lemma GetPortReadsDecimal(dbType: string, n: int, integratedSecurity: bool)
    requires InInt32(n)
    requires !(integratedSecurity && ToLower(dbType) == "sqlserver")
    ensures GetPort(dbType, IntToDecimal(n), integratedSecurity) == n
  {
    ParseDecimalRoundTrip(n);
  }

  /** The engine texts the resolvers pass to GetPort are "mysql" and
      "sql server"; neither is "sqlserver", so the sentinel case of GetPort
      never applies to them and integrated security makes no difference. */
  lemma SentinelCaseUnreachable(item: DbTypeItem, portText: string)
    ensures ToLower(DbType(item)) != "sqlserver"
    ensures GetPort(DbType(item), portText, true) == GetPort(DbType(item), portText, false)
  {
    assert |ToLower(DbType(item))| != |"sqlserver"|;
  }

  /** The port of a panel resolved with user name and password: the port text
      when it parses, else 3306 for MySQL and 1433 for SQL Server. */
  lemma ResolvedPort(e: EndpointWidgets, sourceDatabaseText: string)
    requires SelectedDbType(e.dbTypeIndex).Some?
    requires e.authTypeIndex != WindowsAuthIndex
    ensures var c := GetSourceConnectionConfig(e).value;
      c == GetTargetConnectionConfig(e, sourceDatabaseText).value.(databaseName := c.databaseName)
      && !c.integratedSecurity
      && c.port == match ParseInt32(e.portText)
                   case Some(p) => p
                   case None => if e.dbTypeIndex == MySqlIndex then 3306 else 1433
  {
    var item := SelectedDbType(e.dbTypeIndex).value;
    SentinelCaseUnreachable(item, e.portText);
  }

  /** Right after the user picks an engine, the panel resolves to that engine
      at its default port: MySQL always with user name and password, SQL Server
      with whatever authentication the panel shows. */
  lemma EngineSelectionResolvesDefaultPort(f: Form, side: Side, index: int)
    requires index == MySqlIndex || index == SqlServerIndex
    requires index != f.Get(side).dbTypeIndex
    ensures var e := SelectDbType(f, side, index).Get(side);
      var c := GetSourceConnectionConfig(e).value;
      && c.databaseType == (if index == MySqlIndex then "mysql" else "sql server")
      && (index == MySqlIndex ==> !c.integratedSecurity && c.port == 3306)
      && (index == SqlServerIndex ==>
            c.port == (if f.Get(side).authTypeIndex == WindowsAuthIndex then 0 else 1433))
  {
    EngineSelectionSynchronises(f, side, index);
    EngineSelectionSetsAuth(f, side, index);
    ParseDefaultPorts();
  }

  /** As written, the resolver does not force credentials for MySQL: a MySQL
      panel still showing Windows authentication resolves to integrated
      security on port 0. Only the engine handler keeps such a panel away. */
  lemma MySqlWithWindowsAuthResolvesIntegrated(e: EndpointWidgets)
    requires e.dbTypeIndex == MySqlIndex && e.authTypeIndex == WindowsAuthIndex
    ensures var c := GetSourceConnectionConfig(e).value;
      c.databaseType == "mysql" && c.integratedSecurity && c.port == 0 && c.username == ""
  {
  }

  /** Port text that is not a number falls back to the engine default: "oops"
      on MySQL gives 3306. */
  lemma UnparsablePortScenario()
    ensures GetPort(DbType(MySqlItem), "oops", false) == 3306
  {
    assert TrimStartWhite("oops") == "oops";
    assert TrimEndWhite("oops") == "oops";
    assert !IsDigit("oops"[0]);
    assert ParseInt32("oops") == None;
  }

  /** A numeric port text is used as it is: "14330" on SQL Server gives 14330. */
  lemma ExplicitPortScenario()
    ensures GetPort(DbType(SqlServerItem), "14330", false) == 14330
  {
    assert NatToDecimal(1) == "1";
    assert NatToDecimal(14) == "14";
    assert NatToDecimal(143) == "143";
    assert NatToDecimal(1433) == "1433";
    assert NatToDecimal(14330) == "14330";
    ParseDecimalRoundTrip(14330);
  }
}
