/**
 * The gateway's tool registry: a name-keyed table of tools kept in registration order, the filtered views of
 * it, the validation of a call's parameters against a tool's declared parameters, and the checks a tool
 * execution goes through before its handler runs.
 */
module Tools {
  import opened Wrappers
  import opened Text

  /** A parameter value. Python compares `True` equal to 1 and `False` equal to 0, which `PyEquals` keeps. */
  datatype Value = Str(s: string) | Int(i: int) | Flag(b: bool) | NoneValue

  function AsInt(v: Value): Option<int>
  {
    match v
    case Int(i) => Some(i)
    case Flag(b) => Some(if b then 1 else 0)
    case _ => None
  }

  /** Python's `==` on these values. */
  predicate PyEquals(a: Value, b: Value)
  {
    if AsInt(a).Some? || AsInt(b).Some? then AsInt(a) == AsInt(b) else a == b
  }

  /** Python's `in` on a list. */
  predicate PyIn(v: Value, list: seq<Value>)
  {
    exists k :: 0 <= k < |list| && PyEquals(v, list[k])
  }

  /** A character `repr` writes as `\xhh`: the control characters other than tab, newline and carriage return,
      and the characters from DEL to the no-break space. */
  predicate NeedsHexEscape(c: char)
  {
    (c < ' ' && c != '\t' && c != '\n' && c != '\r') || (0x7f <= c as int <= 0xa0)
  }

  function HexDigit(n: nat): (c: char)
    requires n < 16
  {
    if n < 10 then (n + 0x30) as char else (n - 10 + 0x61) as char
  }

  function HexValue(c: char): Option<nat>
  {
    if '0' <= c <= '9' then Some(c as int - 0x30)
    else if 'a' <= c <= 'f' then Some(c as int - 0x61 + 10)
    else None
  }

  /** One character inside a string literal quoted with `q`. */
  function CharRepr(c: char, q: char): string
  {
    if c == '\\' then "\\\\"
    else if c == q then ['\\', q]
    else if c == '\n' then "\\n"
    else if c == '\r' then "\\r"
    else if c == '\t' then "\\t"
    else if NeedsHexEscape(c) then ['\\', 'x', HexDigit(c as int / 16), HexDigit(c as int % 16)]
    else [c]
  }

  function Escaped(s: string, q: char): string
  {
    if s == [] then [] else CharRepr(s[0], q) + Escaped(s[1..], q)
  }

  /** The quote `repr` chooses: double quotes when the string holds a single quote and no double quote. */
  function ReprQuote(s: string): (q: char)
    ensures q == '\'' || q == '"'
  {
    if '\'' in s && '"' !in s then '"' else '\''
  }

  /** Python's `repr` of a string. */
  function StrRepr(s: string): string
  {
    var q := ReprQuote(s);
    [q] + Escaped(s, q) + [q]
  }

  /** Reading the inside of a string literal quoted with `q` back: the inverse of `Escaped`. */
  function Unescaped(t: string, q: char): Option<string>
    decreases |t|
  {
    if t == [] then Some([])
    else if t[0] != '\\' then Prepend(t[0], Unescaped(t[1..], q))
    else if |t| < 2 then None
    else if t[1] == '\\' || t[1] == q then Prepend(t[1], Unescaped(t[2..], q))
    else if t[1] == 'n' then Prepend('\n', Unescaped(t[2..], q))
    else if t[1] == 'r' then Prepend('\r', Unescaped(t[2..], q))
    else if t[1] == 't' then Prepend('\t', Unescaped(t[2..], q))
    else if t[1] == 'x' && |t| >= 4 && HexValue(t[2]).Some? && HexValue(t[3]).Some? then
      Prepend((HexValue(t[2]).value * 16 + HexValue(t[3]).value) as char, Unescaped(t[4..], q))
    else None
  }

  function Prepend(c: char, r: Option<string>): Option<string>
  {
    if r.Some? then Some([c] + r.value) else None
  }

  lemma HexRoundTrip(n: nat)
    requires n < 16
    ensures HexValue(HexDigit(n)) == Some(n)
  {
  }

  /** Reading back one escaped character and then the rest. */
  lemma CharReprReadBack(c: char, q: char, t: string)
    requires q == '\'' || q == '"'
    ensures Unescaped(CharRepr(c, q) + t, q) == Prepend(c, Unescaped(t, q))
  {
    var r := CharRepr(c, q);
    if c != '\\' && c != q && c != '\n' && c != '\r' && c != '\t' && NeedsHexEscape(c) {
      var hi, lo := c as int / 16, c as int % 16;
      HexRoundTrip(hi);
      HexRoundTrip(lo);
      assert (r + t)[4..] == t;
      assert (hi * 16 + lo) as char == c;
    } else if r == [c] {
      assert (r + t)[1..] == t;
    } else {
      assert (r + t)[2..] == t;
    }
  }

  /** Every string is read back from its escaped form, whichever quote surrounds it. */
  lemma {:induction false} EscapedReadsBack(s: string, q: char)
    requires q == '\'' || q == '"'
    ensures Unescaped(Escaped(s, q), q) == Some(s)
  {
    if s != [] {
      EscapedReadsBack(s[1..], q);
      CharReprReadBack(s[0], q, Escaped(s[1..], q));
      assert [s[0]] + s[1..] == s;
    }
  }

  /** A character `repr` writes as it is, whichever quote it uses. */
  predicate ReprPlain(c: char)
  {
    c != '\'' && c != '"' && c != '\\' && c != '\n' && c != '\r' && c != '\t' && !NeedsHexEscape(c)
  }

  /** A string without quotes, backslashes or characters that need escaping is printed between single quotes
      as it is, and a string holding only a single quote switches to double quotes. */
  lemma {:induction false} PlainStrRepr(s: string)
    requires forall k :: 0 <= k < |s| ==> ReprPlain(s[k])
    ensures StrRepr(s) == "'" + s + "'"
  {
    PlainEscaped(s, '\'');
  }

  lemma {:induction false} PlainEscaped(s: string, q: char)
    requires q == '\''
    requires forall k :: 0 <= k < |s| ==> ReprPlain(s[k])
    ensures Escaped(s, q) == s
  {
    if s != [] {
      PlainEscaped(s[1..], q);
      assert [s[0]] + s[1..] == s;
    }
  }

  /** The repr of the enum value "it's" is "\"it's\"". */
  lemma ApostropheRepr()
    ensures StrRepr("it's") == "\"it's\""
  {
    var s := "it's";
    assert '\'' in s && '"' !in s;
    assert Escaped(s, '"') == s;
  }

  /** A value as Python's `repr` prints it. */
  function ValueRepr(v: Value): string
  {
    match v
    case Str(s) => StrRepr(s)
    case Int(i) => IntToString(i)
    case Flag(b) => if b then "True" else "False"
    case NoneValue => "None"
  }

  function ItemsRepr(vs: seq<Value>): string
  {
    if vs == [] then "" else if |vs| == 1 then ValueRepr(vs[0]) else ValueRepr(vs[0]) + ", " + ItemsRepr(vs[1..])
  }

  /** A list as Python prints it. */
  function ListRepr(vs: seq<Value>): string
  {
    "[" + ItemsRepr(vs) + "]"
  }

  /** A declared parameter. An empty `allowed` list stands for both a missing and an empty enum: either
      way no value is checked against it. */
  datatype ToolParameter = ToolParameter(name: string, paramType: string, description: string, required: bool,
                                         default: Option<Value>, allowed: seq<Value>)

  /** The handler a tool runs, named; what it does is given to `ExecuteTool` by the caller. */
  datatype Handler = Handler(id: nat)

  datatype Tool = Tool(name: string, description: string, parameters: seq<ToolParameter>, handler: Option<Handler>,
                       enabled: bool, mvpReady: bool, category: string, requiresConfirmation: bool,
                       estimatedTimeSeconds: int)

  /** A tool with the schema's defaults: enabled, ready for the first release, "general", no confirmation, 2s. */
  function NewTool(name: string, description: string, parameters: seq<ToolParameter>, handler: Option<Handler>): Tool
  {
    Tool(name, description, parameters, handler, true, true, "general", false, 2)
  }

  /** The human-readable description of a parameter and of a tool. */
  datatype ParameterInfo = ParameterInfo(name: string, paramType: string, description: string, required: bool,
                                         default: Option<Value>)
  datatype ToolInfo = ToolInfo(name: string, description: string, category: string, parameters: seq<ParameterInfo>,
                               enabled: bool, mvpReady: bool, requiresConfirmation: bool, estimatedTimeSeconds: int)

  /** The dictionary `get_tool_info` builds: every field of the tool but its handler, and every field of each
      parameter but its enum. */
  function InfoOf(tool: Tool): (info: ToolInfo)
    ensures info.name == tool.name && info.description == tool.description && info.category == tool.category
    ensures info.enabled == tool.enabled && info.mvpReady == tool.mvpReady
    ensures info.requiresConfirmation == tool.requiresConfirmation && info.estimatedTimeSeconds == tool.estimatedTimeSeconds
    ensures |info.parameters| == |tool.parameters|
    ensures forall k :: 0 <= k < |info.parameters| ==>
      var (i, p) := (info.parameters[k], tool.parameters[k]);
      i.name == p.name && i.paramType == p.paramType && i.description == p.description
      && i.required == p.required && i.default == p.default
  {
    ToolInfo(tool.name, tool.description, tool.category,
             seq(|tool.parameters|, k requires 0 <= k < |tool.parameters| =>
               var p := tool.parameters[k]; ParameterInfo(p.name, p.paramType, p.description, p.required, p.default)),
             tool.enabled, tool.mvpReady, tool.requiresConfirmation, tool.estimatedTimeSeconds)
  }

  /** A tool with its handler and its parameters' enums cleared: what a description cannot show. */
  function Described(tool: Tool): Tool
  {
    tool.(handler := None,
          parameters := seq(|tool.parameters|, k requires 0 <= k < |tool.parameters| => tool.parameters[k].(allowed := [])))
  }

  /** Two tools have the same description exactly when they differ only in their handlers and their enums. */
  lemma InfoOfForgetsOnlyHandlerAndEnums(t1: Tool, t2: Tool)
    ensures InfoOf(t1) == InfoOf(t2) <==> Described(t1) == Described(t2)
  {
    var (d1, d2) := (Described(t1), Described(t2));
    if InfoOf(t1) == InfoOf(t2) {
      assert |d1.parameters| == |d2.parameters|;
      forall k | 0 <= k < |d1.parameters| ensures d1.parameters[k] == d2.parameters[k] {
        assert InfoOf(t1).parameters[k] == InfoOf(t2).parameters[k];
      }
    }
    if d1 == d2 {
      assert |InfoOf(t1).parameters| == |InfoOf(t2).parameters|;
      forall k | 0 <= k < |t1.parameters| ensures InfoOf(t1).parameters[k] == InfoOf(t2).parameters[k] {
        assert d1.parameters[k] == d2.parameters[k];
      }
    }
  }

  type Parameters = map<string, Value>
  type Context = map<string, Value>

  datatype ToolExecutionResult = ToolExecutionResult(success: bool, toolName: string, result: Option<Value>,
                                                     error: Option<string>, executionTimeMs: Option<int>)

  /** The elements of `s` satisfying `p`, in order: a list comprehension with a condition. */
  function Select<T(!new)>(s: seq<T>, p: T -> bool): (r: seq<T>)
    ensures |r| <= |s|
    ensures forall k :: 0 <= k < |r| ==> p(r[k])
    ensures forall x :: x in r <==> x in s && p(x)
  {
    if s == [] then [] else (if p(s[0]) then [s[0]] else []) + Select(s[1..], p)
  }

  /** The tools of a table in the order of their names. */
  function ToolsIn(order: seq<string>, tools: map<string, Tool>): (r: seq<Tool>)
    ensures |r| <= |order|
    ensures forall t :: t in r <==> exists k :: 0 <= k < |order| && order[k] in tools && tools[order[k]] == t
  {
    if order == [] then []
    else
      var rest := ToolsIn(order[1..], tools);
      assert forall k :: 1 <= k < |order| ==> order[1..][k - 1] == order[k];
      (if order[0] in tools then [tools[order[0]]] else []) + rest
  }

  predicate Distinct(s: seq<string>)
  {
    forall i, j :: 0 <= i < j < |s| ==> s[i] != s[j]
  }

  /** The first declared parameter that is required and not given. */
  function FirstMissing(params: seq<ToolParameter>, given: Parameters): (r: Option<ToolParameter>)
    ensures r.Some? ==> r.value in params && r.value.required && r.value.name !in given
    ensures r.None? <==> forall k :: 0 <= k < |params| && params[k].required ==> params[k].name in given
  {
    if params == [] then None
    else if params[0].required && params[0].name !in given then Some(params[0])
    else FirstMissing(params[1..], given)
  }

  /** The first declared parameter that is given a value outside its non-empty enum. */
  function FirstNotAllowed(params: seq<ToolParameter>, given: Parameters): (r: Option<ToolParameter>)
    ensures r.Some? ==> (r.value in params && r.value.name in given && r.value.allowed != []
      && !PyIn(given[r.value.name], r.value.allowed))
    ensures r.None? <==> forall k :: 0 <= k < |params| && params[k].name in given && params[k].allowed != [] ==>
      PyIn(given[params[k].name], params[k].allowed)
  {
    if params == [] then None
    else if params[0].name in given && params[0].allowed != [] && !PyIn(given[params[0].name], params[0].allowed)
    then Some(params[0])
    else FirstNotAllowed(params[1..], given)
  }

  /** Why a call's parameters are rejected. */
  datatype ParamError = ToolNotFound(tool: string) | MissingRequired(param: string) | NotAllowed(param: string, allowed: seq<Value>)

  function ParamErrorMessage(e: ParamError): string
  {
    match e
    case ToolNotFound(t) => "Tool '" + t + "' not found"
    case MissingRequired(p) => "Missing required parameter: '" + p + "'"
    case NotAllowed(p, allowed) => "Parameter '" + p + "' must be one of " + ListRepr(allowed)
  }

  /** Validation against one tool: every required parameter first, then every enum. */
  function ValidateAgainst(tool: Tool, given: Parameters): (r: Option<ParamError>)
    ensures r.None? <==>
      (forall k :: 0 <= k < |tool.parameters| && tool.parameters[k].required ==> tool.parameters[k].name in given)
      && (forall k :: (0 <= k < |tool.parameters| && tool.parameters[k].name in given
            && tool.parameters[k].allowed != []) ==> PyIn(given[tool.parameters[k].name], tool.parameters[k].allowed))
    ensures r.Some? && r.value.NotAllowed? ==> FirstMissing(tool.parameters, given).None?
    ensures r.Some? ==> !r.value.ToolNotFound?
  {
    match FirstMissing(tool.parameters, given)
    case Some(p) => Some(MissingRequired(p.name))
    case None =>
      match FirstNotAllowed(tool.parameters, given)
      case Some(p) => Some(NotAllowed(p.name, p.allowed))
      case None => None
  }

  /** What a tool execution gives, in the order the checks run; the handler is reached only past all of them. */
  function Execution(found: Option<Tool>, name: string, given: Parameters, context: Option<Context>,
                     call: (Handler, Parameters, Option<Context>) -> Result<Value>, elapsedMs: int): ToolExecutionResult
  {
    if found.None? then ToolExecutionResult(false, name, None, Some("Tool " + name + " not found"), None)
    else
      var tool := found.value;
      if !tool.enabled then ToolExecutionResult(false, name, None, Some("Tool '" + name + " is disabled"), None)
      else if ValidateAgainst(tool, given).Some? then
        ToolExecutionResult(false, name, None, Some(ParamErrorMessage(ValidateAgainst(tool, given).value)), None)
      else if tool.handler.None? then
        ToolExecutionResult(false, name, None, Some("Tool '" + name + "' has no handler function"), None)
      else
        match call(tool.handler.value, given, context)
        case Ok(v) => ToolExecutionResult(true, name, Some(v), None, Some(elapsedMs))
        case Err(m) => ToolExecutionResult(false, name, None, Some(m), Some(elapsedMs))
  }

  /** Central registry of the agents' tools. */
  class ToolRegistry {
    /** Tool names in the order they were first registered: the iteration order of the dictionary. */
    var order: seq<string>
    var tools: map<string, Tool>

    ghost predicate Valid()
      reads this
    {
      Distinct(order) && (forall n :: n in tools <==> n in order) && (forall n :: n in tools ==> tools[n].name == n)
    }

    constructor()
      ensures Valid() && order == [] && tools == map[]
    {
      order := [];
      tools := map[];
    }

    /** `register_tool`: a name registered again is overwritten in place and keeps its position. */
    method RegisterTool(tool: Tool)
      requires Valid()
      modifies this
      ensures Valid()
      ensures tools == old(tools)[tool.name := tool]
      ensures order == if tool.name in old(tools) then old(order) else old(order) + [tool.name]
    {
      if tool.name !in tools {
        order := order + [tool.name];
      }
      tools := tools[tool.name := tool];
    }

    /** `register_tools`: each tool in turn. */
    method RegisterTools(ts: seq<Tool>)
      requires Valid()
      modifies this
      ensures Valid()
      ensures tools == RegisteredAll(old(tools), ts)
      ensures order == OrderAfter(old(order), ts)
    {
      var i := 0;
      while i < |ts|
        invariant 0 <= i <= |ts|
        invariant Valid()
        invariant tools == RegisteredAll(old(tools), ts[..i])
        invariant order == OrderAfter(old(order), ts[..i])
      {
        assert ts[..i + 1][..i] == ts[..i];
        OrderTracksTools(old(order), old(tools), ts[..i]);
        RegisterTool(ts[i]);
        i := i + 1;
      }
      assert ts[..i] == ts;
    }

    /** `get_tool`. */
    function GetTool(name: string): (r: Option<Tool>)
      reads this
      requires Valid()
      ensures r.Some? <==> name in order
      ensures r.Some? ==> r.value == tools[name] && r.value.name == name
    {
      if name in tools then Some(tools[name]) else None
    }

    /** The registered tools in registration order. */
    function Registered(): seq<Tool>
      reads this
    {
      ToolsIn(order, tools)
    }

    /** `get_enabled_tools`. */
    function EnabledTools(): (r: seq<Tool>)
      reads this
      requires Valid()
      ensures forall t :: t in r <==> t.name in tools && tools[t.name] == t && t.enabled
    {
      RegisteredTools(order, tools);
      Select(Registered(), (t: Tool) => t.enabled)
    }

    /** `get_mvp_tools`. */
    function MvpTools(): (r: seq<Tool>)
      reads this
      requires Valid()
      ensures forall t :: t in r <==> t.name in tools && tools[t.name] == t && t.enabled && t.mvpReady
    {
      RegisteredTools(order, tools);
      Select(Registered(), (t: Tool) => t.mvpReady && t.enabled)
    }

    /** `get_tools_by_category`. */
    function ToolsByCategory(category: string): (r: seq<Tool>)
      reads this
      requires Valid()
      ensures forall t :: t in r <==> t.name in tools && tools[t.name] == t && t.enabled && t.category == category
    {
      RegisteredTools(order, tools);
      Select(Registered(), (t: Tool) => t.category == category && t.enabled)
    }

    /** `list_tools`: every name, or only those of enabled tools, in registration order. */
    function ListTools(enabledOnly: bool): (r: seq<string>)
      reads this
      requires Valid()
      ensures !enabledOnly ==> r == order
      ensures forall n :: n in r <==> n in tools && (enabledOnly ==> tools[n].enabled)
    {
      var table := tools;
      if enabledOnly then Select(order, (n: string) => n in table && table[n].enabled) else order
    }

    /** `get_tool_info`: a registered tool's description, listing its parameters without their enums. */
    function GetToolInfo(name: string): (r: Option<ToolInfo>)
      reads this
      requires Valid()
      ensures r.Some? <==> name in tools
      ensures r.Some? ==> r.value == InfoOf(tools[name])
      ensures r.Some? ==> (r.value.name == name && |r.value.parameters| == |tools[name].parameters|
        && forall k :: 0 <= k < |r.value.parameters| ==> (r.value.parameters[k].name == tools[name].parameters[k].name
          && r.value.parameters[k].required == tools[name].parameters[k].required))
    {
      match GetTool(name)
      case None => None
      case Some(tool) => Some(InfoOf(tool))
    }

    /** `validate_parameters`: whether the call is valid, and the message when it is not. */
    function ValidateParameters(name: string, given: Parameters): (r: (bool, Option<string>))
      reads this
      requires Valid()
      ensures r.0 <==> r.1.None?
      ensures name !in tools ==> r == (false, Some(ParamErrorMessage(ToolNotFound(name))))
      ensures name in tools ==> (r.0 <==> ValidateAgainst(tools[name], given).None?)
    {
      match GetTool(name)
      case None => (false, Some(ParamErrorMessage(ToolNotFound(name))))
      case Some(tool) =>
        match ValidateAgainst(tool, given)
        case Some(e) => (false, Some(ParamErrorMessage(e)))
        case None => (true, None)
    }

    /** `execute_tool`: the handler runs only for a registered, enabled tool with valid parameters and a
        handler; what it returns or raises is `call`'s answer. */
    function ExecuteTool(name: string, given: Parameters, context: Option<Context>,
                         call: (Handler, Parameters, Option<Context>) -> Result<Value>, elapsedMs: int): (r: ToolExecutionResult)
      reads this
      requires Valid()
      ensures r.toolName == name
      ensures r.success <==> (name in tools && tools[name].enabled && ValidateAgainst(tools[name], given).None?
        && tools[name].handler.Some? && call(tools[name].handler.value, given, context).Ok?)
      ensures r.success ==> r.error.None? && r.result == Some(call(tools[name].handler.value, given, context).value)
      ensures !r.success ==> r.error.Some? && r.result.None?
    {
      Execution(GetTool(name), name, given, context, call, elapsedMs)
    }
  }

  /** The table after registering each of `ts` in turn. */
  function RegisteredAll(tools: map<string, Tool>, ts: seq<Tool>): map<string, Tool>
  {
    if ts == [] then tools else RegisteredAll(tools, ts[..|ts| - 1])[ts[|ts| - 1].name := ts[|ts| - 1]]
  }

  /** The names in registration order after registering each of `ts` in turn. */
  function OrderAfter(order: seq<string>, ts: seq<Tool>): seq<string>
  {
    if ts == [] then order
    else
      var before := OrderAfter(order, ts[..|ts| - 1]);
      if ts[|ts| - 1].name in before then before else before + [ts[|ts| - 1].name]
  }

  /** The order and the table keep the same names as tools are registered. */
  lemma {:induction false} OrderTracksTools(order: seq<string>, tools: map<string, Tool>, ts: seq<Tool>)
    requires forall n :: n in tools <==> n in order
    ensures forall n :: n in RegisteredAll(tools, ts) <==> n in OrderAfter(order, ts)
  {
    if ts != [] {
      OrderTracksTools(order, tools, ts[..|ts| - 1]);
    }
  }

  /** In a valid table the registered tools are exactly the values of the table. */
  lemma RegisteredTools(order: seq<string>, tools: map<string, Tool>)
    requires (forall n :: n in tools <==> n in order) && (forall n :: n in tools ==> tools[n].name == n)
    ensures forall t :: t in ToolsIn(order, tools) <==> t.name in tools && tools[t.name] == t
  {
    forall t: Tool | t.name in tools && tools[t.name] == t
      ensures t in ToolsIn(order, tools)
    {
      var k :| 0 <= k < |order| && order[k] == t.name;
    }
  }

  /** Registering a name twice keeps the second tool, in the first one's place. */
  lemma SecondRegistrationWins(tools: map<string, Tool>, order: seq<string>, first: Tool, second: Tool)
    requires first.name == second.name
    ensures RegisteredAll(tools, [first, second]) == tools[second.name := second]
    ensures OrderAfter(order, [first, second]) == OrderAfter(order, [first])
  {
    assert [first, second][..1] == [first];
    assert [first][..0] == [];
    assert RegisteredAll(tools, [first]) == tools[first.name := first];
    var once := OrderAfter(order, [first]);
    assert first.name in once;
  }

  /** Every failing check before the handler gives the same result whatever the handler would do: the handler
      is not reached. */
  lemma FailedChecksSkipHandler(found: Option<Tool>, name: string, given: Parameters, context: Option<Context>,
                                call1: (Handler, Parameters, Option<Context>) -> Result<Value>,
                                call2: (Handler, Parameters, Option<Context>) -> Result<Value>, elapsedMs: int)
    requires found.None? || !found.value.enabled || ValidateAgainst(found.value, given).Some?
      || found.value.handler.None?
    ensures Execution(found, name, given, context, call1, elapsedMs)
         == Execution(found, name, given, context, call2, elapsedMs)
    ensures !Execution(found, name, given, context, call1, elapsedMs).success
    ensures Execution(found, name, given, context, call1, elapsedMs).executionTimeMs.None?
  {
  }

  /** The checks report in order: a missing tool before a disabled one, a disabled one before bad parameters,
      bad parameters before a missing handler. */
  lemma ExecutionCheckOrder(found: Option<Tool>, name: string, given: Parameters, context: Option<Context>,
                            call: (Handler, Parameters, Option<Context>) -> Result<Value>, elapsedMs: int)
    ensures var r := Execution(found, name, given, context, call, elapsedMs);
      (found.None? ==> r.error == Some("Tool " + name + " not found"))
      && (found.Some? && !found.value.enabled ==> r.error == Some("Tool '" + name + " is disabled"))
      && (found.Some? && found.value.enabled && ValidateAgainst(found.value, given).Some? ==>
            r.error == Some(ParamErrorMessage(ValidateAgainst(found.value, given).value)))
      && ((found.Some? && found.value.enabled && ValidateAgainst(found.value, given).None? && found.value.handler.None?)
            ==> r.error == Some("Tool '" + name + "' has no handler function"))
  {
  }

  /** A handler that raises gives a failure carrying its message and the elapsed time. */
  lemma HandlerErrorReported(tool: Tool, name: string, given: Parameters, context: Option<Context>,
                             call: (Handler, Parameters, Option<Context>) -> Result<Value>, elapsedMs: int)
    requires tool.enabled && ValidateAgainst(tool, given).None? && tool.handler.Some?
    requires call(tool.handler.value, given, context).Err?
    ensures Execution(Some(tool), name, given, context, call, elapsedMs)
         == ToolExecutionResult(false, name, None, Some(call(tool.handler.value, given, context).error), Some(elapsedMs))
  {
  }

  /** A missing required parameter is reported even when another parameter breaks its enum. */
  lemma MissingBeforeEnum(tool: Tool, given: Parameters)
    requires FirstMissing(tool.parameters, given).Some?
    ensures ValidateAgainst(tool, given) == Some(MissingRequired(FirstMissing(tool.parameters, given).value.name))
  {
  }

  /** Python's `True in [1]` holds, and `"1" in [1]` does not. */
  lemma PyInExamples()
    ensures PyIn(Flag(true), [Int(1)])
    ensures !PyIn(Str("1"), [Int(1)])
  {
    assert PyEquals(Flag(true), [Int(1)][0]);
  }
}
