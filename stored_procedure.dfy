/** The stored-procedure call builder: a procedure name, a parameter source and
    the database driver become one statement, which is sent to one of four
    database entry points; the rows that come back are normalised. */
module StoredProcedures {
  import opened Placeholders

  // ---------------------------------------------------------------------------
  // Dialects

  /** The keyword that invokes a stored procedure on the active driver. */
  datatype Dialect = Call | Exec {
    function Keyword(): (k: string)
      ensures |k| == 4
    {
      match this
      case Call => "CALL"
      case Exec => "EXEC"
    }
  }

  /** The dialect chosen from the driver name: `sqlsrv` uses EXEC, `mysql` and
      every other driver name use CALL. */
  function DialectFor(driver: string): (d: Dialect)
    ensures d == Exec <==> driver == "sqlsrv"
    ensures driver == "mysql" ==> d.Keyword() == "CALL"
  {
    match driver
    case "mysql" => Call
    case "sqlsrv" => Exec
    case _ => Call
  }

  /** What `execute` appends to the statement: the parameter list in
      parentheses and a semicolon for CALL, or after one space for EXEC.
      Either way the parameter list can be read back out of the clause. */
  function Clause(dialect: Dialect, params: string): (c: string)
    ensures dialect == Call ==>
      |c| == |params| + 4 && c[..2] == " (" && c[2..|c| - 2] == params && c[|c| - 2..] == ");"
    ensures dialect == Exec ==>
      |c| == |params| + 1 && c[0] == ' ' && c[1..] == params
  {
    if dialect == Call then " (" + params + ");" else " " + params
  }

  // ---------------------------------------------------------------------------
  // The database side

  /** A bind value. */
  datatype Value = NullValue | BoolValue(b: bool) | IntValue(i: int) | StringValue(s: string)

  /** A result record: column name to value. */
  type Row = map<string, Value>

  /** The four database entry points `execute` can call, with their arguments. */
  datatype EntryPoint =
    | Select(query: string)
    | SelectWith(query: string, bindings: seq<Value>)
    | ConnectionSelect(name: string, query: string)
    | ConnectionSelectWith(name: string, query: string, bindings: seq<Value>)
  {
    /** The connection used; "" stands for the default connection. */
    function Connection(): string
    {
      match this
      case Select(_) => ""
      case SelectWith(_, _) => ""
      case ConnectionSelect(n, _) => n
      case ConnectionSelectWith(n, _, _) => n
    }

    /** The positional values bound; [] when the call binds none. */
    function Bound(): seq<Value>
    {
      match this
      case Select(_) => []
      case SelectWith(_, v) => v
      case ConnectionSelect(_, _) => []
      case ConnectionSelectWith(_, _, v) => v
    }
  }

  /** The entry point `execute` chooses: the default connection when the
      connection name is empty, the named one otherwise; a call without
      bindings when there are no values, with the values otherwise. The call
      carries the statement, the connection name and the values unchanged. */
  function Route(connection: string, values: seq<Value>, query: string): (e: EntryPoint)
    ensures e.query == query
    ensures e.Connection() == connection
    ensures e.Bound() == values
    ensures (e.Select? || e.SelectWith?) <==> connection == ""
    ensures (e.Select? || e.ConnectionSelect?) <==> values == []
  {
    if connection == "" then
      if values == [] then Select(query) else SelectWith(query, values)
    else
      if values == [] then ConnectionSelect(connection, query)
      else ConnectionSelectWith(connection, query, values)
  }

  /** The default connection and a named one are always told apart. */
  lemma RouteSeparatesConnections(name: string, values: seq<Value>, query: string)
    requires name != ""
    ensures Route("", values, query) != Route(name, values, query)
    ensures Route(name, values, query).name == name
  {
  }

  // ---------------------------------------------------------------------------
  // Results

  /** The stored result: nothing yet, a plain array of rows, or a collection of rows. */
  datatype Rows = Unset | PlainArray(items: seq<Row>) | Collection(items: seq<Row>)

  /** The number of rows `collect(result)->count()` sees. */
  function Count(raw: Rows): nat
  {
    if raw.Unset? then 0 else |raw.items|
  }

  /** `stored_procedure_result`: no rows give an empty array, never nothing;
      a non-empty collection stays a collection and a non-empty array stays an
      array, with the same rows in the same order. */
  function Normalised(raw: Rows): (r: Rows)
    ensures r != Unset
    ensures Count(r) == Count(raw)
    ensures Count(raw) == 0 ==> r == PlainArray([])
    ensures Count(raw) > 0 ==> r.items == raw.items && (r.Collection? <==> raw.Collection?)
  {
    if Count(raw) > 0 && raw.Collection? then Collection(raw.items)
    else if Count(raw) > 0 && raw.PlainArray? then raw
    else PlainArray([])
  }

  /** Normalising twice changes nothing more. */
  lemma NormalisedIdempotent(raw: Rows)
    ensures Normalised(Normalised(raw)) == Normalised(raw)
  {
  }

  // ---------------------------------------------------------------------------
  // Parameter sources

  /** What `stored_procedure_params` is given: a request, of which only the
      field names in order matter, or an array of raw tokens. */
  datatype ParamSource = RequestFields(keys: seq<string>) | RawTokens(tokens: seq<string>)

  /** The placeholder list a parameter source yields. */
  function PlaceholderList(source: ParamSource): string
  {
    match source
    case RequestFields(keys) => Join(Named(WithoutToken(keys)))
    case RawTokens(tokens) => Join(tokens)
  }

  /** The complete statement `execute` sends after `stored_procedure(procedure)`. */
  function Statement(dialect: Dialect, procedure: string, params: string): string
  {
    dialect.Keyword() + " " + procedure + Clause(dialect, params)
  }

  /** Procedure name and parameter list are read back out of the statement. */
  lemma StatementParts(dialect: Dialect, procedure: string, params: string)
    ensures var s := Statement(dialect, procedure, params);
      && s[..5] == dialect.Keyword() + " "
      && s[5..5 + |procedure|] == procedure
      && (dialect == Call ==> s[5 + |procedure|..] == " (" + params + ");")
      && (dialect == Exec ==> s[5 + |procedure|..] == " " + params)
  {
  }

  // ---------------------------------------------------------------------------
  // The builder

  class StoredProcedure {
    /** The driver name read once at construction. */
    const driver: string
    /** CALL or EXEC; fixed at construction. */
    const command: Dialect
    /** The statement built so far. */
    var query: string
    /** The placeholder list. */
    var params: string
    /** The positional bind values. */
    var values: seq<Value>
    /** The connection name; "" is the default connection. */
    var connection: string
    /** The raw result of the last execution. */
    var result: Rows
    /** The database call `execute` made, if any. */
    var dispatched: Option<EntryPoint>

    constructor (driver: string)
      ensures this.driver == driver && command == DialectFor(driver)
      ensures query == "" && params == "" && values == [] && connection == ""
      ensures result == Unset && dispatched == None
    {
      this.driver := driver;
      command := DialectFor(driver);
      query := "";
      params := "";
      values := [];
      connection := "";
      result := Unset;
      dispatched := None;
    }

    /** `stored_procedure`: the statement becomes the keyword and the name,
        whatever it was before. */
    method SetProcedure(procedure: string) returns (self: StoredProcedure)
      modifies this`query
      ensures self == this
      ensures query == command.Keyword() + " " + procedure
    {
      query := command.Keyword() + " " + procedure;
      self := this;
    }

    /** `stored_procedure_connection`. */
    method SetConnection(name: string) returns (self: StoredProcedure)
      modifies this`connection
      ensures self == this
      ensures connection == name
    {
      connection := name;
      self := this;
    }

    /** `stored_procedure_params`: request fields other than the token
        become `:field` placeholders; raw tokens are taken verbatim. */
    method SetParams(source: ParamSource) returns (self: StoredProcedure)
      modifies this`params
      ensures self == this
      ensures params == PlaceholderList(source)
    {
      match source {
        case RequestFields(fields) =>
          var keys := WithoutToken(fields);
          var placeholders: seq<string> := [];
          for i := 0 to |keys|
            invariant |placeholders| == i
            invariant forall j :: 0 <= j < i ==> placeholders[j] == ":" + keys[j]
          {
            placeholders := placeholders + [":" + keys[i]];
          }
          assert placeholders == Named(keys);
          params := Join(placeholders);
        case RawTokens(tokens) =>
          params := Join(tokens);
      }
      self := this;
    }

    /** `stored_procedure_values`. */
    method SetValues(vs: seq<Value>) returns (self: StoredProcedure)
      modifies this`values
      ensures self == this
      ensures values == vs
    {
      values := vs;
      self := this;
    }

    /** `execute`: appends the dialect's clause to the statement, makes exactly
        one database call, chosen by Route, and keeps the rows it returns.
        `db` stands for the database: the rows each call returns. */
    method Execute(db: EntryPoint -> seq<Row>) returns (self: StoredProcedure)
      modifies this`query, this`result, this`dispatched
      ensures self == this
      ensures query == old(query) + Clause(command, params)
      ensures old(query) <= query
      ensures dispatched == Some(Route(connection, values, query))
      ensures result == PlainArray(db(dispatched.value))
    {
      var bindings := Clause(command, params);
      query := query + bindings;
      var call := Route(connection, values, query);
      dispatched := Some(call);
      result := PlainArray(db(call));
      self := this;
    }

    /** `stored_procedure_result`. */
    method Result() returns (r: Rows)
      ensures r == Normalised(result)
    {
      r := Normalised(result);
    }
  }

  datatype Option<T> = None | Some(value: T)

  // ---------------------------------------------------------------------------
  // Clients

  /** A request with the token field and two others gives two named placeholders. */
  lemma RequestExample()
    ensures PlaceholderList(RequestFields(["_token", "id", "name"])) == ":id, :name"
    ensures PlaceholderList(RequestFields(["_token"])) == ""
  {
  }

  /** Raw tokens are joined verbatim. */
  lemma TokensExample()
    ensures PlaceholderList(RawTokens(["?", "?"])) == "?, ?"
    ensures PlaceholderList(RawTokens([])) == ""
  {
  }

  /** The two statements the clients below build, spelled out. */
  lemma StatementExamples()
    ensures Statement(Call, "get_user", ":id, :name") == "CALL get_user (:id, :name);"
    ensures Statement(Exec, "get_user", "?, ?") == "EXEC get_user ?, ?"
  {
  }

  /** The usual request-driven call on MySQL: the token field is dropped and
      the statement is sent without bindings on the default connection. */
  method RequestCallOnMySql(db: EntryPoint -> seq<Row>) returns (statement: string, call: EntryPoint)
    ensures statement == "CALL get_user (:id, :name);"
    ensures call == Select(statement)
  {
    var sp := new StoredProcedure("mysql");
    var b1 := sp.SetProcedure("get_user");
    var b2 := b1.SetParams(RequestFields(["_token", "id", "name"]));
    assert b2.params == ":id, :name" by { RequestExample(); }
    var b3 := b2.Execute(db);
    assert b3.query == Statement(Call, "get_user", ":id, :name");
    StatementExamples();
    statement := b3.query;
    call := b3.dispatched.value;
  }

  /** Positional tokens with values on a named SQL Server connection. */
  method TokenCallOnSqlServer(db: EntryPoint -> seq<Row>) returns (statement: string, call: EntryPoint)
    ensures statement == "EXEC get_user ?, ?"
    ensures call == ConnectionSelectWith("reporting", statement, [IntValue(7), StringValue("x")])
  {
    var sp := new StoredProcedure("sqlsrv");
    var b1 := sp.SetProcedure("get_user");
    var b2 := b1.SetConnection("reporting");
    var b3 := b2.SetParams(RawTokens(["?", "?"]));
    assert b3.params == "?, ?" by { TokensExample(); }
    var b4 := b3.SetValues([IntValue(7), StringValue("x")]);
    var b5 := b4.Execute(db);
    assert b5.query == Statement(Exec, "get_user", "?, ?");
    StatementExamples();
    statement := b5.query;
    call := b5.dispatched.value;
  }
}
