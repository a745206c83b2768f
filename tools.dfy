/** The three read-only tools the agent's model may call: execute_sql_query,
    get_parameter_value and get_schema_details (tools.py). The SQLite
    database, pandas' DataFrame.to_string, Python's str() and json.dumps are
    supplied from outside as functions; the four JSON documents loaded at
    start-up are passed in as maps. */
module Tools {
  import opened PyText

  /** A JSON value as json.load produces it. Numbers keep their literal text. */
  datatype Json =
    | JNull
    | JBool(b: bool)
    | JNumber(literal: string)
    | JString(s: string)
    | JArray(items: seq<Json>)
    | JObject(fields: map<string, Json>)

  /** One cell of a query result as SQLite hands it to pandas. */
  datatype SqlValue = SqlNull | SqlInteger(i: int) | SqlReal(literal: string) | SqlText(t: string)

  /** The DataFrame built by pd.read_sql_query. */
  datatype Table = Table(columns: seq<string>, rows: seq<seq<SqlValue>>)

  /** What the database does with a query: a result set, or an exception
      whose str() is `message`. */
  datatype QueryAnswer = ResultSet(table: Table) | DbError(message: string)

  /** The state the tools read: the database and the four JSON documents
      loaded once at start-up. The two schema documents are JSON objects
      whose "properties" entry holds the parameter descriptors. */
  datatype Store = Store(
    database: string -> QueryAnswer,
    encoderParams: map<string, Json>,
    decoderParams: map<string, Json>,
    encoderSchema: map<string, Json>,
    decoderSchema: map<string, Json>)

  /** Library formatting the tools rely on: DataFrame.to_string(index=False),
      Python's str() of a JSON value that is not a string, None or a bool, and
      json.dumps(..., indent=2). */
  datatype Formatters = Formatters(
    tableText: Table -> string,
    reprText: Json -> string,
    dumpsText: Json -> string)

  /** An exception escaping a tool. */
  datatype PyError = KeyError(key: string) | AttributeError(name: string)

  /** What a tool call produces: text, or an exception it lets escape. */
  datatype ToolOutput = Text(text: string) | Raised(error: PyError)

  /** A value, or the exception computing it raised. */
  datatype Result<T> = Ok(value: T) | Fail(error: PyError)

  const SelectKeyword := "SELECT"
  const RejectedText := "Error: Only SELECT queries are allowed."
  const NoResultsText := "No results found."
  const FailurePrefix := "Query failed with error: "
  const NotFoundText := "Not found"
  // The three longer texts below are each one literal of tools.py, written as
  // two joined pieces so that proofs can look into them character by character.
  /** The config-type error of get_parameter_value (tools.py:97). */
  const ConfigTypeErrorText := "Error: config_type must be " + "'encoder' or 'decoder'."
  /** The schema-type error of get_schema_details (tools.py:135). */
  const SchemaTypeErrorText := "Error: schema_type must be " + "'table', 'encoder', or 'decoder'."
  /** The table-definitions query of get_schema_details up to the name (tools.py:120). */
  const TableQueryPrefix := "SELECT * FROM table_definitions" + " WHERE header = '"

  /** The descriptor reported for a parameter the schema does not define. */
  const NotFoundDescriptor := JObject(map["description" := JString(NotFoundText)])

  // ---------------------------------------------------------------- SQL tool

  /** The guard of execute_sql_query: strip, upper-case, then a plain prefix
      test. There is no word boundary after the keyword. */
  predicate IsSelectQuery(q: string) {
    SelectKeyword <= Upper(Strip(q))
  }

  /** DataFrame.empty: no rows or no columns. */
  predicate IsEmpty(t: Table) {
    |t.columns| == 0 || |t.rows| == 0
  }

  /** The part of execute_sql_query inside its try block, with the exception
      handler: the database answer turned into the text the model reads. */
  function AnswerText(answer: QueryAnswer, fmt: Formatters): string {
    match answer
    case DbError(e) => FailurePrefix + e
    case ResultSet(t) => if IsEmpty(t) then NoResultsText else fmt.tableText(t)
  }

  /** execute_sql_query: the guard, then the database, always text. */
  function ExecuteSqlQuery(store: Store, fmt: Formatters, q: string): string {
    if !IsSelectQuery(q) then RejectedText else AnswerText(store.database(q), fmt)
  }

  /** s begins with the keyword, up to case. */
  predicate KeywordAhead(s: string) {
    |s| >= |SelectKeyword| && forall i :: 0 <= i < |SelectKeyword| ==> UpperChar(s[i]) == SelectKeyword[i]
  }

  lemma UpperKeywordPrefix(s: string)
    ensures SelectKeyword <= Upper(s) <==> KeywordAhead(s)
  {
    if KeywordAhead(s) {
      assert Upper(s)[..|SelectKeyword|] == SelectKeyword;
    }
  }

  /** The guard depends only on the first six characters left after leading
      whitespace: trailing whitespace is irrelevant because the keyword's
      letters are not whitespace. */
  lemma GuardReadsLeadingKeyword(q: string)
    ensures IsSelectQuery(q) <==> KeywordAhead(LStrip(q))
  {
    var l := LStrip(q);
    var r := RStrip(l);
    UpperKeywordPrefix(r);
    if KeywordAhead(l) {
      assert !IsSpace(l[5]);
    }
  }

  /** The guard is case-insensitive: queries that upper-case alike are
      admitted alike. */
  lemma GuardIgnoresCase(q1: string, q2: string)
    requires SameUpper(q1, q2)
    ensures IsSelectQuery(q1) <==> IsSelectQuery(q2)
  {
    LStripSameUpper(q1, q2);
    GuardReadsLeadingKeyword(q1);
    GuardReadsLeadingKeyword(q2);
  }

  /** Whitespace after a string neither completes nor spoils the keyword. */
  lemma KeywordAheadIgnoresTrailingSpace(l: string, w: string)
    requires AllSpace(w)
    ensures KeywordAhead(l + w) <==> KeywordAhead(l)
  {
    if |l| >= |SelectKeyword| {
      assert forall i :: 0 <= i < |SelectKeyword| ==> (l + w)[i] == l[i];
    } else if |l + w| >= |SelectKeyword| {
      assert (l + w)[|l|] == w[0];
    }
  }

  /** After str.lstrip(), surrounding whitespace leaves the keyword test
      unchanged. */
  lemma LStripSurroundingSpace(w1: string, q: string, w2: string)
    requires AllSpace(w1) && AllSpace(w2)
    ensures KeywordAhead(LStrip(w1 + q + w2)) <==> KeywordAhead(LStrip(q))
  {
    assert w1 + q + w2 == w1 + (q + w2);
    LStripSkipsSpace(w1, q + w2);
    LStripAppend(q, w2);
    if LStrip(q) == [] {
      LStripAllSpace(w2);
    } else {
      KeywordAheadIgnoresTrailingSpace(LStrip(q), w2);
    }
  }

  /** The guard ignores whitespace before and after the query. */
  lemma GuardIgnoresSurroundingSpace(w1: string, q: string, w2: string)
    requires AllSpace(w1) && AllSpace(w2)
    ensures IsSelectQuery(w1 + q + w2) <==> IsSelectQuery(q)
  {
    LStripSurroundingSpace(w1, q, w2);
    GuardReadsLeadingKeyword(w1 + q + w2);
    GuardReadsLeadingKeyword(q);
  }

  /** A query that fails the guard gets the rejection text, whatever the
      database would have answered: the database is never consulted. */
  lemma NonSelectNeverReachesDatabase(s1: Store, s2: Store, fmt: Formatters, q: string)
    requires !IsSelectQuery(q)
    ensures ExecuteSqlQuery(s1, fmt, q) == RejectedText
    ensures ExecuteSqlQuery(s2, fmt, q) == RejectedText
  {
  }

  /** A query that passes the guard is sent to the database as written
      (not stripped or upper-cased), and only that answer decides the text. */
  lemma SelectDependsOnlyOnItsAnswer(s1: Store, s2: Store, fmt: Formatters, q: string)
    requires IsSelectQuery(q)
    requires s1.database(q) == s2.database(q)
    ensures ExecuteSqlQuery(s1, fmt, q) == ExecuteSqlQuery(s2, fmt, q) == AnswerText(s1.database(q), fmt)
  {
  }

  /** The three fixed texts of execute_sql_query are distinct, and neither
      fixed text looks like a failure report. */
  lemma OutcomeTextsDistinct()
    ensures RejectedText != NoResultsText
    ensures !(FailurePrefix <= RejectedText) && !(FailurePrefix <= NoResultsText)
  {
    assert RejectedText[0] != FailurePrefix[0];
    assert NoResultsText[0] != FailurePrefix[0];
  }

  /** An admitted query that matches nothing yields exactly "No results
      found.", which is neither the rejection nor a failure report. */
  lemma EmptyResultIsNoResults(store: Store, fmt: Formatters, q: string)
    requires IsSelectQuery(q)
    requires store.database(q).ResultSet? && IsEmpty(store.database(q).table)
    ensures ExecuteSqlQuery(store, fmt, q) == NoResultsText
    ensures ExecuteSqlQuery(store, fmt, q) != RejectedText
    ensures !(FailurePrefix <= ExecuteSqlQuery(store, fmt, q))
  {
    OutcomeTextsDistinct();
  }

  /** An admitted query the database fails on yields the failure prefix
      followed by the error's text, distinct from both fixed texts. */
  lemma DatabaseErrorIsReported(store: Store, fmt: Formatters, q: string)
    requires IsSelectQuery(q)
    requires store.database(q).DbError?
    ensures ExecuteSqlQuery(store, fmt, q) == FailurePrefix + store.database(q).message
    ensures FailurePrefix <= ExecuteSqlQuery(store, fmt, q)
    ensures ExecuteSqlQuery(store, fmt, q) != RejectedText
    ensures ExecuteSqlQuery(store, fmt, q) != NoResultsText
  {
    OutcomeTextsDistinct();
    var r := ExecuteSqlQuery(store, fmt, q);
    assert r[..|FailurePrefix|] == FailurePrefix;
  }

  /** An admitted query with a non-empty result is rendered by to_string. */
  lemma RowsAreRendered(store: Store, fmt: Formatters, q: string)
    requires IsSelectQuery(q)
    requires store.database(q).ResultSet? && !IsEmpty(store.database(q).table)
    ensures ExecuteSqlQuery(store, fmt, q) == fmt.tableText(store.database(q).table)
  {
  }

  const LowerSelect := "select * from camera_feeds"
  const IndentedLowerSelect := "  " + LowerSelect

  lemma LowerSelectHasKeyword()
    ensures KeywordAhead(LowerSelect)
  {
    var k := LowerSelect;
    assert UpperChar(k[0]) == 'S' && UpperChar(k[1]) == 'E' && UpperChar(k[2]) == 'L';
    assert UpperChar(k[3]) == 'E' && UpperChar(k[4]) == 'C' && UpperChar(k[5]) == 'T';
  }

  /** The guard is case-insensitive after trimming: a lower-case, indented
      select passes it. */
  lemma LowerCaseSelectPasses()
    ensures IsSelectQuery(IndentedLowerSelect)
  {
    LStripSkipsSpace("  ", LowerSelect);
    assert !IsSpace(LowerSelect[0]);
    LowerSelectHasKeyword();
    GuardReadsLeadingKeyword(IndentedLowerSelect);
  }

  /** ... and reaches the database unchanged. */
  lemma LowerCaseSelectReachesDatabase(store: Store, fmt: Formatters)
    ensures ExecuteSqlQuery(store, fmt, IndentedLowerSelect)
         == AnswerText(store.database(IndentedLowerSelect), fmt)
  {
    LowerCaseSelectPasses();
  }

  /** "DROP TABLE camera_feeds" is rejected without touching the database. */
  lemma DropTableRejected(store: Store, fmt: Formatters)
    ensures ExecuteSqlQuery(store, fmt, "DROP TABLE camera_feeds") == RejectedText
  {
    var q := "DROP TABLE camera_feeds";
    GuardReadsLeadingKeyword(q);
    assert LStrip(q) == q;
    assert !KeywordAhead(q);
  }

  const SelectedText := "SELECTED"
  const StackedStatements := "SELECT 1; DROP TABLE camera_feeds"

  lemma KeywordAheadOf(s: string)
    requires |s| >= 6 && s[..6] == "SELECT"
    ensures KeywordAhead(s) && LStrip(s) == s
  {
    assert s[0] == 'S';
    assert forall i :: 0 <= i < |SelectKeyword| ==> s[i] == s[..6][i];
  }

  /** The guard is a prefix test only: a word that merely begins with SELECT,
      or a select followed by a second statement, passes it. */
  lemma GuardIsPrefixOnly()
    ensures IsSelectQuery(SelectedText)
    ensures IsSelectQuery(StackedStatements)
  {
    assert SelectedText[..6] == "SELECT";
    KeywordAheadOf(SelectedText);
    GuardReadsLeadingKeyword(SelectedText);
    assert StackedStatements[..6] == "SELECT";
    KeywordAheadOf(StackedStatements);
    GuardReadsLeadingKeyword(StackedStatements);
  }

  // ---------------------------------------------------------- parameter tool

  /** Python's str() of a JSON value, which `{value}` in an f-string uses. */
  function PyStr(v: Json, fmt: Formatters): string {
    match v
    case JString(s) => s
    case JNull => "None"
    case JBool(b) => if b then "True" else "False"
    case _ => fmt.reprText(v)
  }

  /** dict.get(name, default). */
  function Get(m: map<string, Json>, name: string, default: Json): Json {
    if name in m then m[name] else default
  }

  function ValueSentence(name: string, configType: string, value: string): string {
    "The value of '" + name + "' in " + configType + " config is: " + value
  }

  /** get_parameter_value. The config type is compared case-sensitively. */
  function GetParameterValue(store: Store, fmt: Formatters, configType: string, name: string): string {
    if configType == "encoder" then
      ValueSentence(name, "encoder", PyStr(Get(store.encoderParams, name, JString(NotFoundText)), fmt))
    else if configType == "decoder" then
      ValueSentence(name, "decoder", PyStr(Get(store.decoderParams, name, JString(NotFoundText)), fmt))
    else
      ConfigTypeErrorText
  }

  /** The map get_parameter_value consults for an accepted config type. */
  function ParamsFor(store: Store, configType: string): map<string, Json> {
    if configType == "encoder" then store.encoderParams else store.decoderParams
  }

  /** For "encoder" and "decoder" the answer names the parameter and the
      config and reports str() of the value, or "Not found" when the name is
      absent; it is never the config-type error. */
  lemma ParameterLookupReports(store: Store, fmt: Formatters, configType: string, name: string)
    requires configType == "encoder" || configType == "decoder"
    ensures var m := ParamsFor(store, configType);
      GetParameterValue(store, fmt, configType, name)
        == ValueSentence(name, configType, if name in m then PyStr(m[name], fmt) else NotFoundText)
    ensures GetParameterValue(store, fmt, configType, name) != ConfigTypeErrorText
  {
    var r := GetParameterValue(store, fmt, configType, name);
    assert r[0] == 'T';
    assert ConfigTypeErrorText[0] == 'E';
  }

  /** A missing parameter is not an error: the answer ends in "Not found". */
  lemma MissingParameterIsNotFound(store: Store, fmt: Formatters, configType: string, name: string)
    requires configType == "encoder" || configType == "decoder"
    requires name !in ParamsFor(store, configType)
    ensures var r := GetParameterValue(store, fmt, configType, name);
      |r| >= |NotFoundText| && r[|r| - |NotFoundText|..] == NotFoundText
  {
    ParameterLookupReports(store, fmt, configType, name);
  }

  /** Each accepted config type reads its own map and not the other one. */
  lemma ParameterLookupReadsOneMap(s1: Store, s2: Store, fmt: Formatters, configType: string, name: string)
    requires configType == "encoder" || configType == "decoder"
    requires ParamsFor(s1, configType) == ParamsFor(s2, configType)
    ensures GetParameterValue(s1, fmt, configType, name) == GetParameterValue(s2, fmt, configType, name)
  {
  }

  /** Any other config type, including "Encoder", gets the fixed error text
      whatever the documents hold. */
  lemma UnknownConfigTypeRejected(s1: Store, s2: Store, fmt: Formatters, configType: string, name: string)
    requires configType != "encoder" && configType != "decoder"
    ensures GetParameterValue(s1, fmt, configType, name) == ConfigTypeErrorText
    ensures GetParameterValue(s2, fmt, configType, name) == ConfigTypeErrorText
    ensures GetParameterValue(s1, fmt, "Encoder", name) == ConfigTypeErrorText
  {
    assert "Encoder"[0] != "encoder"[0];
  }

  /** A decoder document {"preset": "fast"} answers "preset" with "fast": the
      sentence of tools.py:93, written as two joined pieces as above. */
  lemma DecoderPresetIsReported(store: Store, fmt: Formatters)
    requires store.decoderParams == map["preset" := JString("fast")]
    ensures GetParameterValue(store, fmt, "decoder", "preset")
         == "The value of 'preset' " + "in decoder config is: fast"
  {
    assert "decoder"[0] != "encoder"[0];
    assert PyStr(Get(store.decoderParams, "preset", JString(NotFoundText)), fmt) == "fast";
    assert GetParameterValue(store, fmt, "decoder", "preset") == ValueSentence("preset", "decoder", "fast");
  }

  // ------------------------------------------------------------- schema tool

  /** The query the "table" branch builds: the name is pasted in verbatim,
      between single quotes, without escaping. */
  function TableQuery(name: string): string {
    TableQueryPrefix + name + "'"
  }

  /** `schema['properties'].get(name, default)`: KeyError when the document
      has no "properties" entry, AttributeError when that entry is not an
      object. */
  function DescriptorOf(schema: map<string, Json>, name: string): Result<Json> {
    if "properties" !in schema then Fail(KeyError("properties"))
    else match schema["properties"]
      case JObject(props) => Ok(Get(props, name, NotFoundDescriptor))
      case _ => Fail(AttributeError("get"))
  }

  function DumpDescriptor(d: Result<Json>, fmt: Formatters): ToolOutput {
    match d
    case Ok(v) => Text(fmt.dumpsText(v))
    case Fail(e) => Raised(e)
  }

  /** get_schema_details. */
  function GetSchemaDetails(store: Store, fmt: Formatters, schemaType: string, name: string): ToolOutput {
    if schemaType == "table" then
      Text(ExecuteSqlQuery(store, fmt, TableQuery(name)))
    else if schemaType == "encoder" then
      DumpDescriptor(DescriptorOf(store.encoderSchema, name), fmt)
    else if schemaType == "decoder" then
      DumpDescriptor(DescriptorOf(store.decoderSchema, name), fmt)
    else
      Text(SchemaTypeErrorText)
  }

  /** Every query the "table" branch builds passes the guard, whatever the
      name; the name appears in it verbatim. */
  lemma TableQueryIsSelect(name: string)
    ensures IsSelectQuery(TableQuery(name))
    ensures TableQuery(name)[|TableQueryPrefix|..|TableQueryPrefix| + |name|] == name
  {
    var q := TableQuery(name);
    GuardReadsLeadingKeyword(q);
    assert q[..6] == SelectKeyword;
    assert LStrip(q) == q;
    assert KeywordAhead(q);
  }

  /** The "table" branch is execute_sql_query on the interpolated query, and
      it always takes the database path, never the rejection. */
  lemma TableSchemaDelegatesToQuery(store: Store, fmt: Formatters, name: string)
    ensures GetSchemaDetails(store, fmt, "table", name) == Text(ExecuteSqlQuery(store, fmt, TableQuery(name)))
    ensures GetSchemaDetails(store, fmt, "table", name) == Text(AnswerText(store.database(TableQuery(name)), fmt))
  {
    TableQueryIsSelect(name);
  }

  /** The schema document a descriptor lookup reads. */
  function SchemaFor(store: Store, schemaType: string): map<string, Json> {
    if schemaType == "encoder" then store.encoderSchema else store.decoderSchema
  }

  /** For "encoder" and "decoder" with an object of properties, the answer is
      json.dumps of the parameter's descriptor, or of {"description": "Not
      found"} when the name is absent. */
  lemma SchemaDescriptorLookup(store: Store, fmt: Formatters, schemaType: string, name: string)
    requires schemaType == "encoder" || schemaType == "decoder"
    requires "properties" in SchemaFor(store, schemaType)
    requires SchemaFor(store, schemaType)["properties"].JObject?
    ensures var props := SchemaFor(store, schemaType)["properties"].fields;
      GetSchemaDetails(store, fmt, schemaType, name)
        == Text(fmt.dumpsText(if name in props then props[name] else NotFoundDescriptor))
  {
  }

  /** A schema document without an object under "properties" makes the tool
      raise instead of answering. */
  lemma MalformedSchemaRaises(store: Store, fmt: Formatters, schemaType: string, name: string)
    requires schemaType == "encoder" || schemaType == "decoder"
    requires "properties" !in SchemaFor(store, schemaType) || !SchemaFor(store, schemaType)["properties"].JObject?
    ensures GetSchemaDetails(store, fmt, schemaType, name).Raised?
    ensures "properties" !in SchemaFor(store, schemaType)
        ==> GetSchemaDetails(store, fmt, schemaType, name) == Raised(KeyError("properties"))
    ensures "properties" in SchemaFor(store, schemaType) && !SchemaFor(store, schemaType)["properties"].JObject?
        ==> GetSchemaDetails(store, fmt, schemaType, name) == Raised(AttributeError("get"))
  {
  }

  /** Any other schema type gets the fixed error text and reads neither the
      database nor the documents. */
  lemma UnknownSchemaTypeRejected(s1: Store, s2: Store, fmt: Formatters, schemaType: string, name: string)
    requires schemaType != "table" && schemaType != "encoder" && schemaType != "decoder"
    ensures GetSchemaDetails(s1, fmt, schemaType, name) == Text(SchemaTypeErrorText)
    ensures GetSchemaDetails(s2, fmt, schemaType, name) == Text(SchemaTypeErrorText)
  {
  }
}
