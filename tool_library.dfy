/** The client-side tool registry and executor: a table from tool name to handler, the five
    built-in tools, and `executeTool`, which turns every outcome, including a missing tool and a
    thrown error, into a `ToolResult`. */
module ToolLibrary {
  import opened Wrappers
  import opened Text
  import opened Json

  /** A tool call's `arguments` and a result's `metadata`: plain objects. */
  type Args = map<string, Json>
  type Meta = map<string, Json>

  /** The fields of a tool call that the executor reads. */
  datatype ToolCall = ToolCall(id: string, name: string, arguments: Args)

  /** What a built-in tool hands back as `data`. Generated HTML is recorded by what decides its
      content rather than as text. */
  datatype Payload =
    | Value(v: Json)
    | ScriptOutput(result: Option<Json>, consoleOutput: seq<string>)
    | Page(css: string, body: string)
    | Widget(component: Component)
    | ChartPage(title: string, chartType: string, points: Option<nat>, data: Option<Json>)

  /** The component a `create_interactive_component` call builds: its template and the
      feature blocks the template includes. */
  datatype Component =
    | Form(styling: string, validation: bool, submission: bool, reset: bool)
    | Table(styling: string, search: bool, sorting: bool, pagination: bool)
    | Modal(styling: string, backdrop: bool, animation: bool)
    | ChartWidget(styling: string)
    | Generic(typeName: string, items: seq<string>, styling: string)

  datatype ToolResult = ToolResult(success: bool, data: Option<Payload>, error: Option<string>, metadata: Option<Meta>)

  /** A thrown value: an `Error` with its message, or anything else. */
  datatype Thrown = ErrorObject(message: string) | NonError

  /** `error instanceof Error ? error.message : 'Unknown error'`. */
  function ErrorMessage(t: Thrown): string {
    match t
    case ErrorObject(m) => m
    case NonError => "Unknown error"
  }

  datatype Result<T> = Ok(value: T) | Fail(thrown: Thrown)

  /** What running a handler does: it resolves to a result or rejects. */
  datatype Outcome = Returned(result: ToolResult) | Threw(thrown: Thrown)

  /** What evaluating a script gives: its return value and captured console lines, or what it threw. */
  datatype ScriptRun = ScriptReturned(value: Option<Json>, lines: seq<string>) | ScriptThrew(thrown: Thrown)

  datatype DataKind = Users | Products | Posts | Analytics | Companies | Events

  /** The outside world a call sees: the milliseconds since `startTime` when the result is
      built, the script evaluator, and the random part of each generated record field. */
  datatype Env = Env(elapsed: int, runScript: string -> ScriptRun, sample: (DataKind, nat, string) -> Json)

  datatype Builtin = JavaScript | HtmlRenderer | InteractiveComponent | SampleData | CreateChart

  datatype Handler = Builtin(tool: Builtin) | Custom(run: Args -> Outcome)

  /** A property read on the arguments: `None` when the key is absent (`undefined`). */
  function Get(args: Args, key: string): Prop {
    if key in args then Some(args[key]) else None
  }

  /** The value is a string, so string methods can be called on it. */
  predicate IsString(v: Prop) {
    v.Some? && v.value.JStr?
  }

  /** The TypeError a method call on a non-string raises, in V8's wording. */
  function MethodTypeError(variable: string, member: string, v: Prop): Thrown {
    match v
    case None => ErrorObject("Cannot read properties of undefined (reading '" + member + "')")
    case Some(JNull) => ErrorObject("Cannot read properties of null (reading '" + member + "')")
    case Some(_) => ErrorObject(variable + "." + member + " is not a function")
  }

  const JsonMeta: Meta := map["contentType" := JStr("application/json"), "displayType" := JStr("json")]
  const HtmlMeta: Meta := map["contentType" := JStr("text/html"), "displayType" := JStr("html")]
  const PlainMeta: Meta := map["contentType" := JStr("text/plain"), "displayType" := JStr("text")]

  const DefaultNames: seq<string> :=
    ["javascript", "html_renderer", "create_interactive_component", "generate_sample_data", "create_chart"]

  /** No name is listed twice. */
  predicate Distinct(names: seq<string>) {
    forall i, j :: 0 <= i < j < |names| ==> names[i] != names[j]
  }

  // ---------------------------------------------------------------- built-in tools

  /** The `javascript` tool: a script failure is caught and reported, never rethrown. */
  function RunJavaScript(args: Args, env: Env): (r: ToolResult)
    ensures r.success <==> env.runScript(ToText(Get(args, "code"))).ScriptReturned?
    ensures !r.success ==>
      r.error == Some("JavaScript execution failed: " + ErrorMessage(env.runScript(ToText(Get(args, "code"))).thrown))
      && r.metadata == Some(PlainMeta)
  {
    match env.runScript(ToText(Get(args, "code")))
    case ScriptReturned(v, lines) => ToolResult(true, Some(ScriptOutput(v, lines)), None, Some(JsonMeta))
    case ScriptThrew(t) =>
      ToolResult(false, None, Some("JavaScript execution failed: " + ErrorMessage(t)), Some(PlainMeta))
  }

  /** The `html_renderer` tool: the page wraps the html, with `css` only when it is truthy. */
  function RenderHtml(args: Args): (r: ToolResult)
    ensures r.success && r.metadata == Some(HtmlMeta)
    ensures r.data.Some? && r.data.value.Page? && r.data.value.body == ToText(Get(args, "html"))
    ensures !Truthy(Get(args, "css")) ==> r.data.value.css == ""
  {
    var css := if Truthy(Get(args, "css")) then ToText(Get(args, "css")) else "";
    ToolResult(true, Some(Page(css, ToText(Get(args, "html")))), None, Some(HtmlMeta))
  }

  /** `features.split(',').map(f => f.trim())`. */
  function FeatureList(features: string): (r: seq<string>)
    ensures |r| == CountChar(features, ',') + 1
  {
    SplitLength(features, ',');
    TrimEach(Split(features, ','))
  }

  /** `styling = 'modern'` applies only when the argument is absent. */
  function Styling(args: Args): string {
    if "styling" in args then ToText(Some(args["styling"])) else "modern"
  }

  /** `createInteractiveComponent`: `features` is split before `componentType` is lower-cased,
      so a bad `features` is reported first. */
  function CreateInteractiveComponent(args: Args): (r: Result<Component>)
    ensures !(IsString(Get(args, "features"))) ==>
      r == Fail(MethodTypeError("features", "split", Get(args, "features")))
    ensures IsString(Get(args, "features")) && !IsString(Get(args, "componentType")) ==>
      r == Fail(MethodTypeError("componentType", "toLowerCase", Get(args, "componentType")))
  {
    var features := Get(args, "features");
    var componentType := Get(args, "componentType");
    if !(IsString(features)) then Fail(MethodTypeError("features", "split", features))
    else if !(IsString(componentType)) then
      Fail(MethodTypeError("componentType", "toLowerCase", componentType))
    else Ok(ComponentFor(componentType.value.s, FeatureList(features.value.s), Styling(args)))
  }

  /** The `switch (componentType.toLowerCase())`: each template sees whether its own feature
      tokens are in the list; any other type gets the generic template listing every feature. */
  function ComponentFor(componentType: string, list: seq<string>, styling: string): (c: Component)
    ensures ToLower(componentType) == "form" <==> c.Form?
    ensures ToLower(componentType) == "table" <==> c.Table?
    ensures ToLower(componentType) == "modal" <==> c.Modal?
    ensures ToLower(componentType) == "chart" <==> c.ChartWidget?
    ensures c.styling == styling
    ensures c.Form? ==> c.validation == ("validation" in list) && c.submission == ("submission" in list) && c.reset == ("reset" in list)
    ensures c.Table? ==> c.search == ("search" in list) && c.sorting == ("sorting" in list) && c.pagination == ("pagination" in list)
    ensures c.Modal? ==> c.backdrop == ("backdrop" in list) && c.animation == ("animation" in list)
    ensures c.Generic? ==> c.typeName == componentType && c.items == list
  {
    match ToLower(componentType)
    case "form" => Form(styling, "validation" in list, "submission" in list, "reset" in list)
    case "table" => Table(styling, "search" in list, "sorting" in list, "pagination" in list)
    case "modal" => Modal(styling, "backdrop" in list, "animation" in list)
    case "chart" => ChartWidget(styling)
    case _ => Generic(componentType, list, styling)
  }

  /** Dispatch ignores the case of ASCII letters in `componentType`. */
  lemma ComponentCaseInsensitive(a: string, b: string, list: seq<string>, styling: string)
    requires ToLower(a) == ToLower(b)
    requires !ComponentFor(a, list, styling).Generic?
    ensures ComponentFor(a, list, styling) == ComponentFor(b, list, styling)
  {
  }

  /** The generic template lists one item per comma-separated feature, trimmed. */
  lemma GenericListsEveryFeature(componentType: string, features: string, styling: string)
    requires ComponentFor(componentType, FeatureList(features), styling).Generic?
    ensures |ComponentFor(componentType, FeatureList(features), styling).items| == CountChar(features, ',') + 1
    ensures forall k :: 0 <= k < CountChar(features, ',') + 1 ==>
      ComponentFor(componentType, FeatureList(features), styling).items[k] == Trim(Split(features, ',')[k])
  {
  }

  // ---------------------------------------------------------------- sample data

  /** The fields each generator puts in a record, `id` first. */
  function FieldsOf(kind: DataKind): seq<string> {
    match kind
    case Users => ["id", "name", "email", "role", "age", "joinDate", "isActive"]
    case Products => ["id", "name", "category", "price", "stock", "rating", "inStock", "description"]
    case Posts => ["id", "title", "author", "content", "publishDate", "views", "likes", "comments", "tags", "published"]
    case Analytics => ["id", "date", "pageviews", "sessions", "users", "bounceRate", "avgSessionDuration", "source", "device"]
    case Companies => ["id", "name", "industry", "employees", "revenue", "founded", "headquarters", "isPublic", "website"]
    case Events => ["id", "name", "date", "location", "attendees", "maxCapacity", "price", "organizer", "description", "isVirtual"]
  }

  /** Record `i` (from 0) of a kind: `id` is `i + 1`, every other field is random. */
  function FullRecord(kind: DataKind, i: nat, sample: (DataKind, nat, string) -> Json): (rec: map<string, Json>)
    ensures forall f :: f in rec <==> f in FieldsOf(kind)
    ensures "id" in rec && rec["id"] == JNum(i + 1)
  {
    map f | f in FieldsOf(kind) :: if f == "id" then JNum(i + 1) else sample(kind, i, f)
  }

  /** The `fields.forEach` projection: each requested field the record defines is copied, in
      request order; a field the record lacks is skipped. */
  function Project(rec: map<string, Json>, fields: seq<string>): (r: map<string, Json>)
    ensures forall k :: k in r <==> k in rec && k in fields
    ensures forall k :: k in r ==> r[k] == rec[k]
  {
    if fields == [] then map[]
    else
      var f := fields[|fields| - 1];
      var p := Project(rec, fields[..|fields| - 1]);
      assert forall k :: k in fields <==> k in fields[..|fields| - 1] || k == f;
      if f in rec then p[f := rec[f]] else p
  }

  /** The projection loop as the source writes it, filling `filtered` one field at a time. */
  method ProjectFields(rec: map<string, Json>, fields: seq<string>) returns (filtered: map<string, Json>)
    ensures filtered == Project(rec, fields)
    ensures forall k :: k in filtered <==> k in rec && k in fields
  {
    filtered := map[];
    var n := 0;
    while n < |fields|
      invariant 0 <= n <= |fields|
      invariant filtered == Project(rec, fields[..n])
    {
      var field := fields[n];
      if field in rec {
        filtered := filtered[field := rec[field]];
      }
      assert fields[..n + 1][..n] == fields[..n];
      n := n + 1;
    }
    assert fields[..n] == fields;
  }

  /** The record a generator emits: all fields, or only the projected ones when a field list
      was given. */
  function Shape(kind: DataKind, i: nat, fields: Option<seq<string>>, sample: (DataKind, nat, string) -> Json): map<string, Json> {
    match fields
    case None => FullRecord(kind, i, sample)
    case Some(list) => Project(FullRecord(kind, i, sample), list)
  }

  /** `Array.from({ length: n }, ...)`: a negative length gives no records. */
  function Records(kind: DataKind, n: int, fields: Option<seq<string>>, sample: (DataKind, nat, string) -> Json): (rs: seq<Json>)
    ensures |rs| == if n < 0 then 0 else n
    ensures forall i :: 0 <= i < |rs| ==> rs[i] == JObj(Shape(kind, i, fields, sample))
  {
    var len := if n < 0 then 0 else n;
    seq(len, i requires 0 <= i < len => JObj(Shape(kind, i, fields, sample)))
  }

  /** `parseInt(count) || 10`: `NaN` and `0` fall back to 10. */
  function ItemCount(count: Prop): (n: int)
    ensures ParseInt(ToText(count)).None? ==> n == 10
    ensures ParseInt(ToText(count)) == Some(0) ==> n == 10
    ensures ParseInt(ToText(count)).Some? && ParseInt(ToText(count)) != Some(0) ==> n == ParseInt(ToText(count)).value
  {
    match ParseInt(ToText(count))
    case None => 10
    case Some(k) => if k == 0 then 10 else k
  }

  /** The largest length an array can have; `Array.from` throws a `RangeError` beyond it. */
  const MaxArrayLength: int := 0x1_0000_0000 - 1

  /** The generator each own key of the `generators` object names. */
  function KindNamed(key: string): Option<DataKind> {
    match key
    case "users" => Some(Users)
    case "products" => Some(Products)
    case "posts" => Some(Posts)
    case "analytics" => Some(Analytics)
    case "companies" => Some(Companies)
    case "events" => Some(Events)
    case _ => None
  }

  /** The lower-cased `dataType` chooses the generator; anything else gets `users`. */
  function GeneratorFor(key: string): (k: DataKind)
    ensures KindNamed(key).Some? ==> k == KindNamed(key).value
    ensures KindNamed(key).None? ==> k == Users
  {
    KindNamed(key).GetOr(Users)
  }

  /** The `fields` argument: split and trimmed when truthy, ignored when falsy. */
  function FieldList(fields: Prop): Result<Option<seq<string>>> {
    if !Truthy(fields) then Ok(None)
    else if fields.value.JStr? then Ok(Some(FeatureList(fields.value.s)))
    else Fail(MethodTypeError("fields", "split", fields))
  }

  /** `generateSampleData`: the records of the chosen kind, as many as `ItemCount` says. */
  function GenerateSampleData(args: Args, sample: (DataKind, nat, string) -> Json): (r: Result<seq<Json>>)
    ensures FieldList(Get(args, "fields")).Fail? ==> r == Fail(FieldList(Get(args, "fields")).thrown)
    ensures FieldList(Get(args, "fields")).Ok? && !(IsString(Get(args, "dataType"))) ==>
      r == Fail(MethodTypeError("dataType", "toLowerCase", Get(args, "dataType")))
    ensures r.Ok? ==> |r.value| == if ItemCount(Get(args, "count")) < 0 then 0 else ItemCount(Get(args, "count"))
    ensures r.Ok? <==>
      (FieldList(Get(args, "fields")).Ok? && IsString(Get(args, "dataType")) && ItemCount(Get(args, "count")) <= MaxArrayLength)
  {
    var n := ItemCount(Get(args, "count"));
    var dataType := Get(args, "dataType");
    match FieldList(Get(args, "fields"))
    case Fail(t) => Fail(t)
    case Ok(fields) =>
      if !(IsString(dataType)) then Fail(MethodTypeError("dataType", "toLowerCase", dataType))
      else if n > MaxArrayLength then Fail(ErrorObject("Invalid array length"))
      else Ok(Records(GeneratorFor(ToLower(dataType.value.s)), n, fields, sample))
  }

  /** Record ids run from 1 to n in order whenever `id` is kept. */
  lemma SampleIds(args: Args, sample: (DataKind, nat, string) -> Json, i: nat)
    requires GenerateSampleData(args, sample).Ok? && i < |GenerateSampleData(args, sample).value|
    requires FieldList(Get(args, "fields")) == Ok(None) || (FieldList(Get(args, "fields")).Ok? && "id" in FieldList(Get(args, "fields")).value.value)
    ensures GenerateSampleData(args, sample).value[i].JObj?
    ensures var rec := GenerateSampleData(args, sample).value[i].fields; "id" in rec && rec["id"] == JNum(i + 1)
  {
  }

  /** With a field list, a record's keys are exactly the requested fields its kind defines. */
  lemma SampleFields(args: Args, sample: (DataKind, nat, string) -> Json, i: nat, list: seq<string>)
    requires GenerateSampleData(args, sample).Ok? && i < |GenerateSampleData(args, sample).value|
    requires FieldList(Get(args, "fields")) == Ok(Some(list))
    ensures GenerateSampleData(args, sample).value[i].JObj?
    ensures forall f :: f in GenerateSampleData(args, sample).value[i].fields <==>
      f in list && f in FieldsOf(GeneratorFor(ToLower(Get(args, "dataType").value.s)))
  {
  }

  /** A `dataType` that names no generator gets user records, whatever its case. */
  lemma SampleFallback(key: string)
    requires KindNamed(ToLower(key)).None?
    ensures GeneratorFor(ToLower(key)) == Users
  {
  }

  /** Every record of a successful call is an object whose keys are fields of the chosen kind;
      without a field list each record has them all, `id` included. */
  lemma SampleDataIsRecordList(args: Args, sample: (DataKind, nat, string) -> Json)
    requires GenerateSampleData(args, sample).Ok?
    ensures var kind := GeneratorFor(ToLower(Get(args, "dataType").value.s));
      forall i :: 0 <= i < |GenerateSampleData(args, sample).value| ==>
        GenerateSampleData(args, sample).value[i].JObj?
        && (forall f :: f in GenerateSampleData(args, sample).value[i].fields ==> f in FieldsOf(kind))
        && (FieldList(Get(args, "fields")) == Ok(None) ==> "id" in GenerateSampleData(args, sample).value[i].fields)
  {
  }

  /** What `generators[key]` finds on the object literal, whose prototype is `Object.prototype`:
      one of its own generators, the inherited `constructor` (the `Object` function), the
      inherited `__proto__` accessor's value (a plain object), or nothing. Lower-cased keys can
      reach no other inherited member. */
  datatype Lookup = OwnGenerator(kind: DataKind) | InheritedConstructor | InheritedPrototype | Missing

  function LookupAsWritten(key: string): Lookup {
    match KindNamed(key)
    case Some(k) => OwnGenerator(k)
    case None =>
      if key == "constructor" then InheritedConstructor
      else if key == "__proto__" then InheritedPrototype
      else Missing
  }

  /** `generateSampleData` exactly as written: `generators[dataType.toLowerCase()] || generators.users`
      lets the two inherited names through. `Object()` then returns an empty object instead of a
      list, and calling the prototype object throws. */
  function GenerateSampleDataAsWritten(args: Args, sample: (DataKind, nat, string) -> Json): (r: Result<Json>)
    ensures r.Ok? && r.value.JObj? ==>
      IsString(Get(args, "dataType")) && LookupAsWritten(ToLower(Get(args, "dataType").value.s)) == InheritedConstructor
    ensures (IsString(Get(args, "dataType")) && FieldList(Get(args, "fields")).Ok?
      && LookupAsWritten(ToLower(Get(args, "dataType").value.s)) == InheritedPrototype) ==>
      r == Fail(ErrorObject("generator is not a function"))
  {
    var n := ItemCount(Get(args, "count"));
    var dataType := Get(args, "dataType");
    match FieldList(Get(args, "fields"))
    case Fail(t) => Fail(t)
    case Ok(fields) =>
      if !IsString(dataType) then Fail(MethodTypeError("dataType", "toLowerCase", dataType))
      else
        match LookupAsWritten(ToLower(dataType.value.s))
        case InheritedConstructor => Ok(JObj(map[]))
        case InheritedPrototype => Fail(ErrorObject("generator is not a function"))
        case OwnGenerator(kind) =>
          if n > MaxArrayLength then Fail(ErrorObject("Invalid array length")) else Ok(JArr(Records(kind, n, fields, sample)))
        case Missing =>
          if n > MaxArrayLength then Fail(ErrorObject("Invalid array length")) else Ok(JArr(Records(Users, n, fields, sample)))
  }

  lemma ConstructorIsInherited()
    ensures LookupAsWritten("constructor") == InheritedConstructor
    ensures GeneratorFor("constructor") == Users
  {
    assert KindNamed("constructor") == None;
  }

  /** A `dataType` such as `"Constructor"`, without a field list: as written the call yields an
      empty object, where the fallback that was meant gives the user records. */
  lemma ConstructorDataType(args: Args, sample: (DataKind, nat, string) -> Json)
    requires Get(args, "fields") == None && IsString(Get(args, "dataType"))
    requires ToLower(Get(args, "dataType").value.s) == "constructor"
    requires 0 <= ItemCount(Get(args, "count")) <= MaxArrayLength
    ensures GenerateSampleDataAsWritten(args, sample) == Ok(JObj(map[]))
    ensures GenerateSampleData(args, sample) == Ok(Records(Users, ItemCount(Get(args, "count")), None, sample))
  {
    ConstructorIsInherited();
  }

  /** The as-written lookup and the corrected one part only at the two inherited names: for every
      other `dataType` (and for a missing or non-string one) both give the same records or throw
      the same error. */
  lemma AsWrittenAgreesElsewhere(args: Args, sample: (DataKind, nat, string) -> Json)
    requires !IsString(Get(args, "dataType")) ||
      LookupAsWritten(ToLower(Get(args, "dataType").value.s)) !in {InheritedConstructor, InheritedPrototype}
    ensures GenerateSampleData(args, sample).Ok? ==>
      GenerateSampleDataAsWritten(args, sample) == Ok(JArr(GenerateSampleData(args, sample).value))
    ensures GenerateSampleData(args, sample).Fail? ==>
      GenerateSampleDataAsWritten(args, sample) == Fail(GenerateSampleData(args, sample).thrown)
  {
    if FieldList(Get(args, "fields")).Ok? && IsString(Get(args, "dataType")) {
      var key := ToLower(Get(args, "dataType").value.s);
      assert LookupAsWritten(key).OwnGenerator? ==> GeneratorFor(key) == LookupAsWritten(key).kind;
      assert LookupAsWritten(key).Missing? ==> GeneratorFor(key) == Users;
    }
  }

  // ---------------------------------------------------------------- charts

  /** `createChart`: `options = {}` only when absent, so a `null` options object throws. */
  function CreateChart(args: Args): (r: Result<Payload>)
    ensures Get(args, "options") == Some(JNull) <==> r.Fail?
    ensures r.Ok? ==> r.value.ChartPage? && r.value.chartType == ToText(Get(args, "type"))
    ensures r.Ok? && Get(args, "data").Some? && Get(args, "data").value.JArr? ==>
      r.value.points == Some(|Get(args, "data").value.items|)
    ensures r.Ok? && !(Get(args, "data").Some? && Get(args, "data").value.JArr?) ==> r.value.points == None
    ensures r.Ok? && !(Get(args, "options").Some? && Get(args, "options").value.JObj?) ==> r.value.title == "Chart"
  {
    var options := Get(args, "options");
    var data := Get(args, "data");
    if options == Some(JNull) then Fail(ErrorObject("Cannot read properties of null (reading 'title')"))
    else
      var title := if options.Some? && options.value.JObj? && Truthy(Get(options.value.fields, "title"))
        then ToText(Get(options.value.fields, "title")) else "Chart";
      var points := if data.Some? && data.value.JArr? then Some(|data.value.items|) else None;
      Ok(ChartPage(title, ToText(Get(args, "type")), points, data))
  }

  // ---------------------------------------------------------------- dispatch

  /** What a built-in handler does with its arguments. */
  function RunBuiltin(tool: Builtin, args: Args, env: Env): Outcome {
    match tool
    case JavaScript => Returned(RunJavaScript(args, env))
    case HtmlRenderer => Returned(RenderHtml(args))
    case InteractiveComponent =>
      (match CreateInteractiveComponent(args)
       case Ok(c) => Returned(ToolResult(true, Some(Widget(c)), None, Some(HtmlMeta)))
       case Fail(t) => Threw(t))
    case SampleData =>
      (match GenerateSampleData(args, env.sample)
       case Ok(rs) => Returned(ToolResult(true, Some(Value(JArr(rs))), None, Some(JsonMeta)))
       case Fail(t) => Threw(t))
    case CreateChart =>
      (match CreateChart(args)
       case Ok(p) => Returned(ToolResult(true, Some(p), None, Some(HtmlMeta)))
       case Fail(t) => Threw(t))
  }

  function Run(h: Handler, args: Args, env: Env): Outcome {
    match h
    case Builtin(tool) => RunBuiltin(tool, args, env)
    case Custom(run) => run(args)
  }

  /** `{ ...metadata, executionTime }`: every other key kept, `executionTime` set. */
  function WithTime(metadata: Option<Meta>, elapsed: int): (m: Meta)
    ensures "executionTime" in m && m["executionTime"] == JNum(elapsed)
    ensures forall k :: k in m <==> k == "executionTime" || (metadata.Some? && k in metadata.value)
    ensures forall k :: metadata.Some? && k in metadata.value && k != "executionTime" ==> m[k] == metadata.value[k]
  {
    (if metadata.Some? then metadata.value else map[])["executionTime" := JNum(elapsed)]
  }

  /** The failure envelope `executeTool` builds itself. */
  function Failure(message: string, elapsed: int): ToolResult {
    ToolResult(false, None, Some(message), Some(PlainMeta["executionTime" := JNum(elapsed)]))
  }

  /** The result `executeTool` resolves to, given the registry, the call and the environment. */
  function Executed(tools: map<string, Handler>, call: ToolCall, env: Env): ToolResult {
    if call.name in tools then
      match Run(tools[call.name], call.arguments, env)
      case Returned(result) => result.(metadata := Some(WithTime(result.metadata, env.elapsed)))
      case Threw(t) => Failure(ErrorMessage(t), env.elapsed)
    else Failure("Tool '" + call.name + "' not found", env.elapsed)
  }

  /** The built-in tools never reject on the `html_renderer` and `javascript` paths. */
  lemma BuiltinsThatNeverThrow(args: Args, env: Env)
    ensures RunBuiltin(HtmlRenderer, args, env).Returned? && RunBuiltin(HtmlRenderer, args, env).result.success
    ensures RunBuiltin(JavaScript, args, env).Returned?
  {
  }

  class ToolExecutor {
    /** `clientTools`, with its keys in insertion order. */
    var tools: map<string, Handler>
    var names: seq<string>

    ghost predicate Valid()
      reads this
    {
      Distinct(names) && (forall n :: n in tools <==> n in names)
    }

    /** A new executor holds the five built-in tools, in registration order. */
    constructor()
      ensures Valid()
      ensures names == DefaultNames
      ensures tools == map["javascript" := Builtin(JavaScript), "html_renderer" := Builtin(HtmlRenderer),
        "create_interactive_component" := Builtin(InteractiveComponent),
        "generate_sample_data" := Builtin(SampleData), "create_chart" := Builtin(CreateChart)]
    {
      tools := map["javascript" := Builtin(JavaScript), "html_renderer" := Builtin(HtmlRenderer),
        "create_interactive_component" := Builtin(InteractiveComponent),
        "generate_sample_data" := Builtin(SampleData), "create_chart" := Builtin(CreateChart)];
      names := DefaultNames;
    }

    /** `clientTools.set(name, handler)`: the last registration wins and a new name goes last. */
    method RegisterTool(name: string, handler: Handler)
      requires Valid()
      modifies this
      ensures Valid()
      ensures tools == old(tools)[name := handler]
      ensures names == if name in old(tools) then old(names) else old(names) + [name]
    {
      if name !in tools {
        names := names + [name];
      }
      tools := tools[name := handler];
    }

    /** `Array.from(clientTools.keys())`: each registered name once. */
    method GetAvailableTools() returns (list: seq<string>)
      requires Valid()
      ensures list == names
      ensures Distinct(list) && forall n :: n in list <==> n in tools
    {
      list := names;
    }

    /** `executeTool`: a registered handler's result comes back with `executionTime` added to
        its metadata; a missing tool and a thrown error become failure results. */
    method ExecuteTool(call: ToolCall, env: Env) returns (r: ToolResult)
      ensures r == Executed(tools, call, env)
      ensures call.name !in tools ==> r == Failure("Tool '" + call.name + "' not found", env.elapsed)
      ensures call.name in tools && Run(tools[call.name], call.arguments, env).Threw? ==>
        r == Failure(ErrorMessage(Run(tools[call.name], call.arguments, env).thrown), env.elapsed)
      ensures call.name in tools && Run(tools[call.name], call.arguments, env).Returned? ==>
        var res := Run(tools[call.name], call.arguments, env).result;
        r.success == res.success && r.data == res.data && r.error == res.error
        && r.metadata == Some(WithTime(res.metadata, env.elapsed))
    {
      if call.name in tools {
        var tool := tools[call.name];
        var outcome := Run(tool, call.arguments, env);
        match outcome {
          case Returned(result) =>
            r := result.(metadata := Some(WithTime(result.metadata, env.elapsed)));
          case Threw(t) =>
            r := Failure(ErrorMessage(t), env.elapsed);
        }
      } else {
        r := Failure("Tool '" + call.name + "' not found", env.elapsed);
      }
    }
  }

  /** The failure envelope is a text result carrying the message and the elapsed time. */
  lemma FailureShape(message: string, elapsed: int)
    ensures !Failure(message, elapsed).success && Failure(message, elapsed).error == Some(message)
    ensures Failure(message, elapsed).metadata.value["displayType"] == JStr("text")
    ensures Failure(message, elapsed).metadata.value["executionTime"] == JNum(elapsed)
  {
  }
}
