/** The tool tables: `TOOLS`, the list `tools/list` answers with, and `HANDLERS`, the functions
    `tools/call` dispatches to. The Excel automation behind each handler belongs to the host and is a
    parameter here (`Host`); what the model keeps is which arguments a handler reads, how it finds its
    pooled object, what it does with the host's answer, and where it throws. */
module Tools {
  import opened Wrappers
  import opened JsValues
  import opened HandlePool

  datatype Tool =
    | WscriptCreateObject
    | ExcelApplicationSetVisible
    | ExcelApplicationSetDisplayAlerts
    | ExcelApplicationQuit
    | ExcelApplicationGetWorkbooks
    | ExcelWorkbooksAdd
    | ExcelWorkbooksGetCount
    | ExcelWorkbooksItem
    | ExcelWorkbookGetWorksheets
    | ExcelWorksheetsGetCount
    | ExcelWorksheetsItem
    | ExcelWorksheetCells
    | ExcelRangeSetValue
    | ExcelRangeGetValue

  /** The tools in the order `TOOLS` lists them. */
  const Registered: seq<Tool> := [
    WscriptCreateObject, ExcelApplicationSetVisible, ExcelApplicationSetDisplayAlerts,
    ExcelApplicationQuit, ExcelApplicationGetWorkbooks, ExcelWorkbooksAdd, ExcelWorkbooksGetCount,
    ExcelWorkbooksItem, ExcelWorkbookGetWorksheets, ExcelWorksheetsGetCount, ExcelWorksheetsItem,
    ExcelWorksheetCells, ExcelRangeSetValue, ExcelRangeGetValue]

  /** The `name` of a tool's `TOOLS` entry. */
  function Name(t: Tool): string {
    match t
    case WscriptCreateObject => "wscript_create_object"
    case ExcelApplicationSetVisible => "excel_application_set_visible"
    case ExcelApplicationSetDisplayAlerts => "excel_application_set_display_alerts"
    case ExcelApplicationQuit => "excel_application_quit"
    case ExcelApplicationGetWorkbooks => "excel_application_get_workbooks"
    case ExcelWorkbooksAdd => "excel_workbooks_add"
    case ExcelWorkbooksGetCount => "excel_workbooks_get_count"
    case ExcelWorkbooksItem => "excel_workbooks_item"
    case ExcelWorkbookGetWorksheets => "excel_workbook_get_worksheets"
    case ExcelWorksheetsGetCount => "excel_worksheets_get_count"
    case ExcelWorksheetsItem => "excel_worksheets_item"
    case ExcelWorksheetCells => "excel_worksheet_cells"
    case ExcelRangeSetValue => "excel_range_set_value"
    case ExcelRangeGetValue => "excel_range_get_value"
  }

  /** One entry of an input schema's `properties`: the argument name and its declared `type`. */
  datatype Param = Param(key: string, kind: string)

  /** The `properties` of a tool's `inputSchema`, in the order `TOOLS` writes them. */
  function Params(t: Tool): seq<Param> {
    match t
    case WscriptCreateObject => [Param("progId", "string")]
    case ExcelApplicationSetVisible => [Param("excelApplicationId", "string"), Param("value", "boolean")]
    case ExcelApplicationSetDisplayAlerts => [Param("excelApplicationId", "string"), Param("value", "boolean")]
    case ExcelApplicationQuit => [Param("excelApplicationId", "string")]
    case ExcelApplicationGetWorkbooks => [Param("excelApplicationId", "string")]
    case ExcelWorkbooksAdd => [Param("excelWorkbooksId", "string")]
    case ExcelWorkbooksGetCount => [Param("excelWorkbooksId", "string")]
    case ExcelWorkbooksItem => [Param("excelWorkbooksId", "string"), Param("index", "number")]
    case ExcelWorkbookGetWorksheets => [Param("excelWorkbookId", "string")]
    case ExcelWorksheetsGetCount => [Param("excelWorksheetsId", "string")]
    case ExcelWorksheetsItem => [Param("excelWorksheetsId", "string"), Param("index", "number")]
    case ExcelWorksheetCells =>
      [Param("excelWorksheetId", "string"), Param("row", "number"), Param("column", "number")]
    case ExcelRangeSetValue => [Param("excelRangeId", "string"), Param("value", "string")]
    case ExcelRangeGetValue => [Param("excelRangeId", "string")]
  }

  /** The `required` list of a tool's `inputSchema`. */
  function Required(t: Tool): seq<string> {
    match t
    case WscriptCreateObject => ["progId"]
    case ExcelApplicationSetVisible => ["excelApplicationId", "value"]
    case ExcelApplicationSetDisplayAlerts => ["excelApplicationId", "value"]
    case ExcelApplicationQuit => ["excelApplicationId"]
    case ExcelApplicationGetWorkbooks => ["excelApplicationId"]
    case ExcelWorkbooksAdd => ["excelWorkbooksId"]
    case ExcelWorkbooksGetCount => ["excelWorkbooksId"]
    case ExcelWorkbooksItem => ["excelWorkbooksId", "index"]
    case ExcelWorkbookGetWorksheets => ["excelWorkbookId"]
    case ExcelWorksheetsGetCount => ["excelWorksheetsId"]
    case ExcelWorksheetsItem => ["excelWorksheetsId", "index"]
    case ExcelWorksheetCells => ["excelWorksheetId", "row", "column"]
    case ExcelRangeSetValue => ["excelRangeId", "value"]
    case ExcelRangeGetValue => ["excelRangeId"]
  }

  function ParamMembers(ps: seq<Param>): (r: seq<Member>)
    ensures |r| == |ps|
    ensures forall i :: 0 <= i < |ps| ==> r[i] == Member(ps[i].key, Object([Member("type", Str(ps[i].kind))]))
  {
    if ps == [] then [] else [Member(ps[0].key, Object([Member("type", Str(ps[0].kind))]))] + ParamMembers(ps[1..])
  }

  function Strs(ss: seq<string>): (r: seq<Value>)
    ensures |r| == |ss| && forall i :: 0 <= i < |ss| ==> r[i] == Str(ss[i])
  {
    if ss == [] then [] else [Str(ss[0])] + Strs(ss[1..])
  }

  /** An `inputSchema` object. */
  function Schema(ps: seq<Param>, required: seq<string>): Value {
    Object([
      Member("type", Str("object")),
      Member("properties", Object(ParamMembers(ps))),
      Member("required", Array(Strs(required)))])
  }

  /** The `TOOLS` entry of a tool, as the object literal writes it. */
  function Entry(t: Tool): Value {
    Object([Member("name", Str(Name(t))), Member("inputSchema", Schema(Params(t), Required(t)))])
  }

  /** The keys of a member list, in order. */
  function MemberKeys(ms: seq<Member>): (r: seq<string>)
    ensures |r| == |ms| && forall i :: 0 <= i < |ms| ==> r[i] == ms[i].key
  {
    if ms == [] then [] else [ms[0].key] + MemberKeys(ms[1..])
  }

  /** The `name` property of a `TOOLS` entry. */
  function ListedName(entry: Value): Value {
    if entry.Object? then Lookup(entry.members, "name") else Undefined
  }

  /** What a `TOOLS` entry tells a client about tool `t`: a `name` that `HANDLERS` resolves to
      `t`, and an object `inputSchema` whose `properties` and `required` list exactly the arguments
      `t`'s handler reads, in the order it reads them. */
  predicate Describes(entry: Value, t: Tool) {
    entry.Object?
    && ListedName(entry) == Str(Name(t))
    && HandlerNamed(Name(t)) == Some(t)
    && (var schema := Lookup(entry.members, "inputSchema");
        schema.Object?
        && Lookup(schema.members, "type") == Str("object")
        && Lookup(schema.members, "properties").Object?
        && MemberKeys(Lookup(schema.members, "properties").members) == ArgKeys(HandlerOf(t))
        && Lookup(schema.members, "required") == Array(Strs(ArgKeys(HandlerOf(t)))))
  }

  /** `TOOLS`: fourteen entries, entry `i` describing tool `i`, and no name listed twice. */
  function ToolList(): (r: Value)
    ensures r.Array? && |r.items| == |Registered| == 14
    ensures forall i :: 0 <= i < |Registered| ==> Describes(r.items[i], Registered[i])
    ensures forall i, j :: 0 <= i < j < |r.items| ==> ListedName(r.items[i]) != ListedName(r.items[j])
  {
    RegisteredTools();
    EntriesDescribe();
    Array(seq(|Registered|, i requires 0 <= i < |Registered| => Entry(Registered[i])))
  }

  /** The properties an entry literal shows, for any name, parameters and required list. */
  lemma EntryShape(name: string, ps: seq<Param>, required: seq<string>)
    ensures var e := Object([Member("name", Str(name)), Member("inputSchema", Schema(ps, required))]);
      ListedName(e) == Str(name)
      && Lookup(e.members, "inputSchema") == Schema(ps, required)
    ensures Lookup(Schema(ps, required).members, "type") == Str("object")
    ensures Lookup(Schema(ps, required).members, "properties") == Object(ParamMembers(ps))
    ensures Lookup(Schema(ps, required).members, "required") == Array(Strs(required))
  {
    var m := Schema(ps, required).members;
    assert m[1..][1..] == [m[2]];
    assert Lookup(m, "required") == Lookup(m[1..], "required") == Lookup(m[1..][1..], "required");
  }

  /** Every tool's entry describes it. */
  lemma EntryDescribes(t: Tool)
    ensures Describes(Entry(t), t)
  {
    HandlerNamedName(t);
    SchemaMatchesHandler(t);
    EntryShape(Name(t), Params(t), Required(t));
  }

  /** The facts `ToolList` states, about the entries one by one. */
  lemma EntriesDescribe()
    ensures forall i :: 0 <= i < |Registered| ==> Describes(Entry(Registered[i]), Registered[i])
    ensures forall i, j :: 0 <= i < j < |Registered| ==> Name(Registered[i]) != Name(Registered[j])
  {
    RegisteredTools();
    forall i | 0 <= i < |Registered| ensures Describes(Entry(Registered[i]), Registered[i]) {
      EntryDescribes(Registered[i]);
    }
    forall i, j | 0 <= i < j < |Registered| ensures Name(Registered[i]) != Name(Registered[j]) {
      NameInjective(Registered[i], Registered[j]);
    }
  }

  /** The own properties of `HANDLERS`: the tool a name selects, if any. */
  function HandlerNamed(name: string): (r: Option<Tool>)
    ensures r.Some? ==> Name(r.value) == name
  {
    if name == "wscript_create_object" then Some(WscriptCreateObject)
    else if name == "excel_application_set_visible" then Some(ExcelApplicationSetVisible)
    else if name == "excel_application_set_display_alerts" then Some(ExcelApplicationSetDisplayAlerts)
    else if name == "excel_application_quit" then Some(ExcelApplicationQuit)
    else if name == "excel_application_get_workbooks" then Some(ExcelApplicationGetWorkbooks)
    else if name == "excel_workbooks_add" then Some(ExcelWorkbooksAdd)
    else if name == "excel_workbooks_get_count" then Some(ExcelWorkbooksGetCount)
    else if name == "excel_workbooks_item" then Some(ExcelWorkbooksItem)
    else if name == "excel_workbook_get_worksheets" then Some(ExcelWorkbookGetWorksheets)
    else if name == "excel_worksheets_get_count" then Some(ExcelWorksheetsGetCount)
    else if name == "excel_worksheets_item" then Some(ExcelWorksheetsItem)
    else if name == "excel_worksheet_cells" then Some(ExcelWorksheetCells)
    else if name == "excel_range_set_value" then Some(ExcelRangeSetValue)
    else if name == "excel_range_get_value" then Some(ExcelRangeGetValue)
    else None
  }

  /** What a handler does with the object its handle names. */
  datatype Access =
    | Fetch(prop: string)                        // `pool[id].Prop`
    | Assign(prop: string, valueKey: string)     // `pool[id].Prop = args[valueKey]`
    | Invoke(member: string, argKeys: seq<string>) // `pool[id].Method(args[k1], ...)`

  /** The shape of a handler: `wscriptCreateObject`, or an operation on a pooled object whose result
      is either returned or itself added to the pool. */
  datatype Handler =
    | Create(progIdKey: string)
    | OnHandle(handleKey: string, access: Access, pooled: bool)

  /** The body of each `HANDLERS` entry, with the helper function it calls inlined. */
  function HandlerOf(t: Tool): Handler {
    match t
    case WscriptCreateObject => Create("progId")
    case ExcelApplicationSetVisible => OnHandle("excelApplicationId", Assign("Visible", "value"), false)
    case ExcelApplicationSetDisplayAlerts => OnHandle("excelApplicationId", Assign("DisplayAlerts", "value"), false)
    case ExcelApplicationQuit => OnHandle("excelApplicationId", Invoke("Quit", []), false)
    case ExcelApplicationGetWorkbooks => OnHandle("excelApplicationId", Fetch("Workbooks"), true)
    case ExcelWorkbooksAdd => OnHandle("excelWorkbooksId", Invoke("Add", []), true)
    case ExcelWorkbooksGetCount => OnHandle("excelWorkbooksId", Fetch("Count"), false)
    case ExcelWorkbooksItem => OnHandle("excelWorkbooksId", Invoke("Item", ["index"]), true)
    case ExcelWorkbookGetWorksheets => OnHandle("excelWorkbookId", Fetch("Worksheets"), true)
    // `excelWorksheetsGetCount` and `excelWorksheetsItem` are the workbooks functions under another name
    case ExcelWorksheetsGetCount => OnHandle("excelWorksheetsId", Fetch("Count"), false)
    case ExcelWorksheetsItem => OnHandle("excelWorksheetsId", Invoke("Item", ["index"]), true)
    case ExcelWorksheetCells => OnHandle("excelWorksheetId", Invoke("Cells", ["row", "column"]), true)
    case ExcelRangeSetValue => OnHandle("excelRangeId", Assign("Value", "value"), false)
    case ExcelRangeGetValue => OnHandle("excelRangeId", Fetch("Value"), false)
  }

  /** The properties of `args` a handler reads, in the order it reads them. */
  function ArgKeys(h: Handler): seq<string> {
    match h
    case Create(k) => [k]
    case OnHandle(k, Fetch(_), _) => [k]
    case OnHandle(k, Assign(_, v), _) => [k, v]
    case OnHandle(k, Invoke(_, ks), _) => [k] + ks
  }

  /** Whether a tool's answer is an identifier of a newly pooled object. */
  predicate Pooled(t: Tool) {
    match HandlerOf(t)
    case Create(_) => true
    case OnHandle(_, _, pooled) => pooled
  }

  /** The host: COM automation and the script engine's own errors. `O` is the type of host objects. */
  datatype Host<!O> = Host(
    createObject: Value -> Result<O, Exception>,          // `WScript.CreateObject(progId)`
    getProperty: (O, string) -> Result<O, Exception>,     // `obj.Prop`
    setProperty: (O, string, Value) -> Option<Exception>, // `obj.Prop = v`: the error it raises, if any
    callMethod: (O, string, seq<Value>) -> Result<O, Exception>, // `obj.Method(args...)`
    toValue: O -> Value,                                   // a host result seen as a script value
    typeError: Exception,                                  // a property read on undefined or null
    notCallable: Exception)                                // a call of a value that is not a function

  /** What running a handler comes to. `Minted(o)`: `o` goes into the pool and the handler returns
      its new identifier. */
  datatype Outcome<O> = Returned(value: Value) | Minted(obj: O) | Threw(error: Exception)

  /** `args[k]` for each key in turn; None when `args` is undefined or null, where the first read
      throws. */
  function ArgValues(args: Value, keys: seq<string>): (r: Option<seq<Value>>)
    ensures r.None? <==> args.Undefined? || args.Null?
    ensures r.Some? ==> |r.value| == |keys|
    ensures r.Some? && args.Object? ==> forall i :: 0 <= i < |keys| ==> r.value[i] == Lookup(args.members, keys[i])
  {
    if args.Undefined? || args.Null? then None
    else Some(seq(|keys|, i requires 0 <= i < |keys| => Get(args, keys[i]).value))
  }

  function Deliver<O>(res: Result<O, Exception>, pooled: bool, host: Host<O>): Outcome<O> {
    match res
    case Failure(e) => Threw(e)
    case Success(o) => if pooled then Minted(o) else Returned(host.toValue(o))
  }

  /** Runs a handler on `args` against the pool's current entries. */
  function Run<O>(t: Tool, args: Value, entries: map<string, O>, host: Host<O>): (r: Outcome<O>)
    ensures r.Minted? ==> Pooled(t)
    ensures !r.Threw? ==> (r.Minted? <==> Pooled(t))
    ensures args.Undefined? || args.Null? ==> r == Threw(host.typeError)
  {
    var h := HandlerOf(t);
    match ArgValues(args, ArgKeys(h))
    case None => Threw(host.typeError)
    case Some(vals) =>
      match h
      case Create(_) =>
        (match host.createObject(vals[0])
         case Success(o) => Minted(o)
         case Failure(e) => Threw(e))
      case OnHandle(_, access, pooled) =>
        match Find(entries, vals[0])
        case None => Threw(host.typeError)
        case Some(obj) =>
          match access
          case Fetch(prop) => Deliver(host.getProperty(obj, prop), pooled, host)
          case Assign(prop, _) =>
            (match host.setProperty(obj, prop, vals[1])
             case None => Returned(vals[1])
             case Some(e) => Threw(e))
          case Invoke(m, _) => Deliver(host.callMethod(obj, m, vals[1..]), pooled, host)
  }

  /** What a handler can come to as the script runs it: an outcome of `Run`'s kind, or `undefined`
      added to the pool under a new identifier. */
  datatype WrittenOutcome<O> = Ran(outcome: Outcome<O>) | PooledUndefined

  /** A handler as written, where `pool[id]` can reach a method the pool inherits from
      `Object.prototype`. Such a function has none of the automation properties: reading one gives
      `undefined` (which a pooling handler then adds to the pool), assigning one succeeds with the
      value assigned, and calling one throws. */
  function RunAsWritten<O>(t: Tool, args: Value, entries: map<string, O>, host: Host<O>): WrittenOutcome<O> {
    var h := HandlerOf(t);
    match ArgValues(args, ArgKeys(h))
    case None => Ran(Threw(host.typeError))
    case Some(vals) =>
      match h
      case Create(_) => Ran(Run(t, args, entries, host))
      case OnHandle(_, access, pooled) =>
        match FindAsWritten(entries, vals[0])
        case Some(Builtin(_)) =>
          (match access
           case Fetch(_) => if pooled then PooledUndefined else Ran(Returned(Undefined))
           case Assign(_, _) => Ran(Returned(vals[1]))
           case Invoke(_, _) => Ran(Threw(host.notCallable)))
        case _ => Ran(Run(t, args, entries, host))
  }

  /** The handle argument names an inherited member the pool does not hold. */
  predicate InheritedHandle<O>(t: Tool, args: Value, entries: map<string, O>) {
    HandlerOf(t).OnHandle? && args.Object?
    && var key := ToPropertyKey(Lookup(args.members, HandlerOf(t).handleKey));
       Inherited(key) && key !in entries
  }

  /** Away from inherited handle names, the handlers as written and `Run` agree. */
  lemma RunAsWrittenAgrees<O>(t: Tool, args: Value, entries: map<string, O>, host: Host<O>)
    ensures !InheritedHandle(t, args, entries) ==> RunAsWritten(t, args, entries, host) == Ran(Run(t, args, entries, host))
  {
    var h := HandlerOf(t);
    if h.OnHandle? && !args.Undefined? && !args.Null? {
      var vals := ArgValues(args, ArgKeys(h)).value;
      if args.Object? {
        assert vals[0] == Lookup(args.members, h.handleKey);
      } else {
        assert vals[0] == Undefined;
      }
    }
  }

  /** On an inherited handle name, `Run` throws the TypeError an unknown handle deserves, while
      the handlers as written read, assign or call the inherited method. */
  lemma InheritedHandleAsWritten<O>(t: Tool, args: Value, entries: map<string, O>, host: Host<O>)
    requires InheritedHandle(t, args, entries)
    ensures Run(t, args, entries, host) == Threw(host.typeError)
    ensures HandlerOf(t).access.Fetch? ==>
      RunAsWritten(t, args, entries, host) == (if HandlerOf(t).pooled then PooledUndefined else Ran(Returned(Undefined)))
    ensures HandlerOf(t).access.Assign? ==>
      RunAsWritten(t, args, entries, host) == Ran(Returned(Lookup(args.members, HandlerOf(t).access.valueKey)))
    ensures HandlerOf(t).access.Invoke? ==> RunAsWritten(t, args, entries, host) == Ran(Threw(host.notCallable))
  {
    var h := HandlerOf(t);
    var vals := ArgValues(args, ArgKeys(h)).value;
    assert vals[0] == Lookup(args.members, h.handleKey);
    if h.access.Assign? {
      assert vals[1] == Lookup(args.members, h.access.valueKey);
    }
  }

  /** The handle `"constructor"` reaches `Object` itself: as written, `excel_workbooks_get_count`
      answers `undefined` and `excel_application_get_workbooks` pools `undefined`, where both
      should throw for a handle nobody issued. */
  lemma ConstructorHandleAsWritten<O>(entries: map<string, O>, host: Host<O>)
    requires "constructor" !in entries
    ensures var args := Object([Member("excelWorkbooksId", Str("constructor"))]);
      RunAsWritten(ExcelWorkbooksGetCount, args, entries, host) == Ran(Returned(Undefined))
      && Run(ExcelWorkbooksGetCount, args, entries, host) == Threw(host.typeError)
    ensures var args := Object([Member("excelApplicationId", Str("constructor"))]);
      RunAsWritten(ExcelApplicationGetWorkbooks, args, entries, host) == PooledUndefined
      && Run(ExcelApplicationGetWorkbooks, args, entries, host) == Threw(host.typeError)
  {
    InheritedHandleAsWritten(ExcelWorkbooksGetCount, Object([Member("excelWorkbooksId", Str("constructor"))]), entries, host);
    InheritedHandleAsWritten(ExcelApplicationGetWorkbooks, Object([Member("excelApplicationId", Str("constructor"))]), entries, host);
  }

  /** `HANDLERS[name](args)` with the lookup confined to the registered tools: any other name is
      `undefined`, and calling it throws. */
  function Call<O>(name: string, args: Value, entries: map<string, O>, host: Host<O>): (r: Outcome<O>)
    ensures HandlerNamed(name).None? ==> r == Threw(host.notCallable)
    ensures r.Minted? ==> HandlerNamed(name).Some? && Pooled(HandlerNamed(name).value)
    ensures !r.Threw? ==> (r.Minted? <==> HandlerNamed(name).Some? && Pooled(HandlerNamed(name).value))
  {
    match HandlerNamed(name)
    case None => Threw(host.notCallable)
    case Some(t) => Run(t, args, entries, host)
  }

  /** `HANDLERS[name](args)` as written: the property lookup also finds the inherited members.
      `toString` and `toLocaleString`, called on `HANDLERS`, return `"[object Object]"`; the other
      inherited members are not followed (None). */
  function CallAsWritten<O>(name: string, args: Value, entries: map<string, O>, host: Host<O>): Option<Outcome<O>> {
    if HandlerNamed(name).Some? then Some(Run(HandlerNamed(name).value, args, entries, host))
    else if name == "toString" || name == "toLocaleString" then Some(Returned(Str("[object Object]")))
    else if Inherited(name) then None
    else Some(Threw(host.notCallable))
  }

  /** `TOOLS` lists every tool, each once. */
  lemma RegisteredTools()
    ensures |Registered| == 14
    ensures forall t :: t in Registered
    ensures forall i, j :: 0 <= i < j < |Registered| ==> Registered[i] != Registered[j]
  {
    forall t ensures t in Registered {
      match t
      case WscriptCreateObject => assert Registered[0] == t;
      case ExcelApplicationSetVisible => assert Registered[1] == t;
      case ExcelApplicationSetDisplayAlerts => assert Registered[2] == t;
      case ExcelApplicationQuit => assert Registered[3] == t;
      case ExcelApplicationGetWorkbooks => assert Registered[4] == t;
      case ExcelWorkbooksAdd => assert Registered[5] == t;
      case ExcelWorkbooksGetCount => assert Registered[6] == t;
      case ExcelWorkbooksItem => assert Registered[7] == t;
      case ExcelWorkbookGetWorksheets => assert Registered[8] == t;
      case ExcelWorksheetsGetCount => assert Registered[9] == t;
      case ExcelWorksheetsItem => assert Registered[10] == t;
      case ExcelWorksheetCells => assert Registered[11] == t;
      case ExcelRangeSetValue => assert Registered[12] == t;
      case ExcelRangeGetValue => assert Registered[13] == t;
    }
  }

  /** Different tools have different names. */
  lemma NameInjective(a: Tool, b: Tool)
    ensures Name(a) == Name(b) ==> a == b
  {
    if Name(a) == Name(b) {
      HandlerNamedName(a);
      HandlerNamedName(b);
    }
  }

  /** Every tool's name selects that tool's handler. */
  lemma HandlerNamedName(t: Tool)
    ensures HandlerNamed(Name(t)) == Some(t)
  {
    NamedApplicationTools();
    NamedWorkbookTools();
    NamedSheetTools();
    NamedRangeTools();
  }

  lemma NamedApplicationTools()
    ensures HandlerNamed(Name(WscriptCreateObject)) == Some(WscriptCreateObject)
    ensures HandlerNamed(Name(ExcelApplicationSetVisible)) == Some(ExcelApplicationSetVisible)
    ensures HandlerNamed(Name(ExcelApplicationSetDisplayAlerts)) == Some(ExcelApplicationSetDisplayAlerts)
    ensures HandlerNamed(Name(ExcelApplicationQuit)) == Some(ExcelApplicationQuit)
    ensures HandlerNamed(Name(ExcelApplicationGetWorkbooks)) == Some(ExcelApplicationGetWorkbooks)
  {
  }

  lemma NamedWorkbookTools()
    ensures HandlerNamed(Name(ExcelWorkbooksAdd)) == Some(ExcelWorkbooksAdd)
    ensures HandlerNamed(Name(ExcelWorkbooksGetCount)) == Some(ExcelWorkbooksGetCount)
    ensures HandlerNamed(Name(ExcelWorkbooksItem)) == Some(ExcelWorkbooksItem)
    ensures HandlerNamed(Name(ExcelWorkbookGetWorksheets)) == Some(ExcelWorkbookGetWorksheets)
  {
    assert Name(ExcelApplicationSetVisible)[6] == 'a' && Name(ExcelWorkbookGetWorksheets)[6] == 'w';
  }

  lemma NamedSheetTools()
    ensures HandlerNamed(Name(ExcelWorksheetsGetCount)) == Some(ExcelWorksheetsGetCount)
    ensures HandlerNamed(Name(ExcelWorksheetsItem)) == Some(ExcelWorksheetsItem)
    ensures HandlerNamed(Name(ExcelWorksheetCells)) == Some(ExcelWorksheetCells)
  {
    assert Name(WscriptCreateObject)[0] == 'w';
    assert Name(ExcelWorksheetCells)[0] == 'e' && Name(ExcelWorksheetCells)[15] == '_';
    assert Name(ExcelWorksheetsItem)[0] == 'e' && Name(ExcelWorksheetsItem)[15] == 's';
  }

  lemma NamedRangeTools()
    ensures HandlerNamed(Name(ExcelRangeSetValue)) == Some(ExcelRangeSetValue)
    ensures HandlerNamed(Name(ExcelRangeGetValue)) == Some(ExcelRangeGetValue)
  {
    NamedRangeSet();
    NamedRangeGet();
  }

  // Names of equal length differ at one of the positions asserted below.
  lemma NamedRangeSet()
    ensures HandlerNamed(Name(ExcelRangeSetValue)) == Some(ExcelRangeSetValue)
  {
    assert Name(WscriptCreateObject)[0] == 'w';
    assert Name(ExcelWorksheetCells)[6] == 'w' && Name(ExcelWorksheetsItem)[6] == 'w';
    assert Name(ExcelRangeSetValue)[0] == 'e' && Name(ExcelRangeSetValue)[6] == 'r';
  }

  lemma NamedRangeGet()
    ensures HandlerNamed(Name(ExcelRangeGetValue)) == Some(ExcelRangeGetValue)
  {
    assert Name(WscriptCreateObject)[0] == 'w';
    assert Name(ExcelWorksheetCells)[6] == 'w' && Name(ExcelWorksheetsItem)[6] == 'w';
    assert Name(ExcelRangeGetValue)[0] == 'e' && Name(ExcelRangeGetValue)[6] == 'r' && Name(ExcelRangeGetValue)[12] == 'g';
    assert Name(ExcelRangeSetValue)[12] == 's';
  }

  lemma NamesCoincide(name: string)
    ensures HandlerNamed(name).Some? <==> exists i :: 0 <= i < |Registered| && Name(Registered[i]) == name
  {
    RegisteredTools();
    if HandlerNamed(name).Some? {
      var t := HandlerNamed(name).value;
      assert t in Registered;
      var i :| 0 <= i < |Registered| && Registered[i] == t;
      assert Name(Registered[i]) == name;
    }
    if exists i :: 0 <= i < |Registered| && Name(Registered[i]) == name {
      var i :| 0 <= i < |Registered| && Name(Registered[i]) == name;
      HandlerNamedName(Registered[i]);
    }
  }

  /** Each schema declares, and requires, exactly the arguments its handler reads, in the same
      order. */
  lemma SchemaMatchesHandler(t: Tool)
    ensures MemberKeys(ParamMembers(Params(t))) == ArgKeys(HandlerOf(t))
    ensures Required(t) == ArgKeys(HandlerOf(t))
  {
    var ks := MemberKeys(ParamMembers(Params(t)));
    match t
    case WscriptCreateObject => assert ks == ["progId"];
    case ExcelApplicationSetVisible => assert ks == ["excelApplicationId", "value"];
    case ExcelApplicationSetDisplayAlerts => assert ks == ["excelApplicationId", "value"];
    case ExcelApplicationQuit => assert ks == ["excelApplicationId"];
    case ExcelApplicationGetWorkbooks => assert ks == ["excelApplicationId"];
    case ExcelWorkbooksAdd => assert ks == ["excelWorkbooksId"];
    case ExcelWorkbooksGetCount => assert ks == ["excelWorkbooksId"];
    case ExcelWorkbooksItem => assert ks == ["excelWorkbooksId", "index"];
    case ExcelWorkbookGetWorksheets => assert ks == ["excelWorkbookId"];
    case ExcelWorksheetsGetCount => assert ks == ["excelWorksheetsId"];
    case ExcelWorksheetsItem => assert ks == ["excelWorksheetsId", "index"];
    case ExcelWorksheetCells => assert ks == ["excelWorksheetId", "row", "column"];
    case ExcelRangeSetValue => assert ks == ["excelRangeId", "value"];
    case ExcelRangeGetValue => assert ks == ["excelRangeId"];
  }

  /** A handle the pool does not hold makes every handle tool throw the engine's TypeError, before
      the host is asked anything. */
  lemma UnknownHandleThrows<O>(t: Tool, args: Value, entries: map<string, O>, host: Host<O>)
    requires HandlerOf(t).OnHandle? && args.Object?
    requires ToPropertyKey(Lookup(args.members, HandlerOf(t).handleKey)) !in entries
    ensures Run(t, args, entries, host) == Threw(host.typeError)
  {
    var vals := ArgValues(args, ArgKeys(HandlerOf(t))).value;
    assert vals[0] == Lookup(args.members, HandlerOf(t).handleKey);
  }

  /** A handler that does not throw found its object: the handle argument names a pool entry. */
  lemma SuccessNeedsHandle<O>(t: Tool, args: Value, entries: map<string, O>, host: Host<O>)
    requires HandlerOf(t).OnHandle? && !Run(t, args, entries, host).Threw?
    ensures args.Object? ==> ToPropertyKey(Lookup(args.members, HandlerOf(t).handleKey)) in entries
    ensures !args.Object? ==> "undefined" in entries
  {
    var vals := ArgValues(args, ArgKeys(HandlerOf(t))).value;
    if args.Object? {
      assert vals[0] == Lookup(args.members, HandlerOf(t).handleKey);
    }
  }

  /** A setter that the host accepts answers with the value assigned, as an assignment expression
      does. */
  lemma AssignReturnsValue<O>(t: Tool, args: Value, entries: map<string, O>, host: Host<O>)
    requires HandlerOf(t).OnHandle? && HandlerOf(t).access.Assign? && args.Object?
    requires ToPropertyKey(Lookup(args.members, HandlerOf(t).handleKey)) in entries
    requires host.setProperty(entries[ToPropertyKey(Lookup(args.members, HandlerOf(t).handleKey))],
      HandlerOf(t).access.prop, Lookup(args.members, HandlerOf(t).access.valueKey)).None?
    ensures Run(t, args, entries, host) == Returned(Lookup(args.members, HandlerOf(t).access.valueKey))
  {
    var vals := ArgValues(args, ArgKeys(HandlerOf(t))).value;
    assert vals[0] == Lookup(args.members, HandlerOf(t).handleKey);
    assert vals[1] == Lookup(args.members, HandlerOf(t).access.valueKey);
  }

  /** Outside the inherited names, the lookup as written and the confined one agree. */
  lemma CallAsWrittenAgrees<O>(name: string, args: Value, entries: map<string, O>, host: Host<O>)
    requires !Inherited(name)
    ensures CallAsWritten(name, args, entries, host) == Some(Call(name, args, entries, host))
  {
  }

  /** `toString` is no tool, yet as written a call of it succeeds with `"[object Object]"`, where an
      unknown name should throw. */
  lemma CallToStringAsWritten<O>(args: Value, entries: map<string, O>, host: Host<O>)
    ensures HandlerNamed("toString").None?
    ensures CallAsWritten("toString", args, entries, host) == Some(Returned(Str("[object Object]")))
    ensures Call("toString", args, entries, host) == Threw(host.notCallable)
  {
  }
}
