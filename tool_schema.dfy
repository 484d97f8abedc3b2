/**
 * The tool schema builder: turns the parameter lists of local Python
 * functions into the JSON-Schema-like tool descriptors sent to the model
 * provider. Python's reflection (`inspect.signature`, `get_origin`,
 * `get_args`) is replaced by the `Param` and `Annotation` values it would
 * report.
 */
module ToolSchema {
  import opened Wrappers

  /** The keys of `type_map`: the builtin types a parameter may be annotated with. */
  datatype PrimType = Str | Int | Float | Bool | List | Dict

  /** A parameter annotation, as reflection reports it. */
  datatype Annotation =
    | Empty                     // no annotation at all (`inspect.Parameter.empty`)
    | Prim(prim: PrimType)      // one of the `type_map` keys, unparameterised
    | ListOf(item: Annotation)  // `list[T]`: origin `list` with a type argument
    | Other(shown: string)      // anything else (`dict[str, int]`, `Optional[int]`, a class, ...)

  /** One declared parameter: its name, its annotation and whether it has a default value. */
  datatype Param = Param(name: string, annotation: Annotation, hasDefault: bool)

  /** A local function offered as a tool: `__name__`, `__doc__` and its parameters in declaration order. */
  datatype Function = Function(name: string, doc: Option<string>, params: seq<Param>)

  /** The schema of one parameter: `type`, the optional `items.type`, and `description`. */
  datatype ParamSchema = ParamSchema(typ: string, items: Option<string>, description: string)

  /** The `parameters` object of a tool. */
  datatype Parameters = Parameters(typ: string, properties: map<string, ParamSchema>, required: seq<string>)

  /** The `function` object of a tool. */
  datatype FunctionSpec = FunctionSpec(name: string, description: string, parameters: Parameters)

  /** One entry of the list `build_tools` returns. */
  datatype Tool = Tool(typ: string, spec: FunctionSpec)

  /** The `ValueError` raised for an annotation outside the supported set. */
  datatype SchemaError = UnsupportedType(param: string, func: string, annotation: Annotation)

  /** The JSON Schema type names `type_map` maps to. */
  const JsonTypes: set<string> := {"string", "integer", "number", "boolean", "array", "object"}

  /** `type_map`: each supported builtin type names a different JSON Schema type. */
  function TypeName(p: PrimType): (r: string)
    ensures r in JsonTypes
    ensures r == "string" <==> p == Str
    ensures r == "array" <==> p == List
  {
    match p
    case Str => "string"
    case Int => "integer"
    case Float => "number"
    case Bool => "boolean"
    case List => "array"
    case Dict => "object"
  }

  /** `type_map.get(T, "string")` for the argument `T` of `list[T]`. */
  function ItemTypeName(a: Annotation): (r: string)
    ensures r in JsonTypes
    ensures a.Prim? ==> r == TypeName(a.prim)
    ensures r == "string" <==> a == Prim(Str) || !a.Prim?
  {
    if a.Prim? then TypeName(a.prim) else "string"
  }

  /** The description every parameter receives: a fixed prefix, then the parameter's name. */
  function Description(name: string): (r: string)
    ensures |r| == |name| + 11 && r[..11] == "Parameter: "
    ensures r[11..] == name
  {
    "Parameter: " + name
  }

  /** `type_map` is one-to-one: the JSON type name determines the builtin type. */
  lemma TypeNameInjective(p: PrimType, q: PrimType)
    ensures TypeName(p) == TypeName(q) <==> p == q
  {
  }

  /** Different parameters receive different descriptions. */
  lemma DescriptionInjective(a: string, b: string)
    ensures Description(a) == Description(b) <==> a == b
  {
    if Description(a) == Description(b) {
      assert a == Description(a)[11..];
    }
  }

  /** An annotation `build_tools` accepts: none at all, a `type_map` key, or `list[T]` for any `T`. */
  predicate Supported(a: Annotation) {
    !a.Other?
  }

  /**
   * The schema of one parameter of function `fname`, or the error raised
   * for it. A missing annotation counts as `str`.
   */
  function ParamSchemaOf(fname: string, p: Param): (r: Result<ParamSchema, SchemaError>)
    ensures r.Success? <==> Supported(p.annotation)
    ensures r.Success? ==> r.value.description == Description(p.name)
    ensures p.annotation.Empty? ==> r.value.typ == "string" && r.value.items.None?
    ensures p.annotation.Prim? ==> r.value.typ == TypeName(p.annotation.prim) && r.value.items.None?
    ensures p.annotation.ListOf? ==> r.value.typ == "array" && r.value.items == Some(ItemTypeName(p.annotation.item))
    ensures r.Failure? ==> r.error == UnsupportedType(p.name, fname, p.annotation)
  {
    var a := if p.annotation.Empty? then Prim(Str) else p.annotation;
    match a
    case ListOf(item) => Success(ParamSchema("array", Some(ItemTypeName(item)), Description(p.name)))
    case Prim(t) => Success(ParamSchema(TypeName(t), None, Description(p.name)))
    case _ => Failure(UnsupportedType(p.name, fname, a))
  }

  /** The names of the parameters without a default value, in declaration order. */
  function RequiredNames(params: seq<Param>): (r: seq<string>)
    ensures |r| <= |params|
  {
    if params == [] then []
    else
      var prev := RequiredNames(params[..|params| - 1]);
      var p := params[|params| - 1];
      if p.hasDefault then prev else prev + [p.name]
  }

  /**
   * The `properties` dict and `required` list after the first `|params|`
   * parameters of `f` have been processed, or the error the first
   * unsupported one raises.
   */
  function ParamsFold(f: Function, params: seq<Param>): Result<(map<string, ParamSchema>, seq<string>), SchemaError>
  {
    if params == [] then Success((map[], []))
    else
      var prev := ParamsFold(f, params[..|params| - 1]);
      var p := params[|params| - 1];
      if prev.Failure? then prev
      else match ParamSchemaOf(f.name, p)
        case Failure(e) => Failure(e)
        case Success(schema) =>
          var (props, required) := prev.value;
          Success((props[p.name := schema], if p.hasDefault then required else required + [p.name]))
  }

  /** The tool descriptor of one function, or the error one of its parameters raises. */
  function ToolOf(f: Function): Result<Tool, SchemaError> {
    match ParamsFold(f, f.params)
    case Failure(e) => Failure(e)
    case Success((props, required)) =>
      Success(Tool("function", FunctionSpec(f.name, f.doc.GetOr(""), Parameters("object", props, required))))
  }

  /** The specification of `build_tools`: the tools of `functions`, in order, or the first error. */
  function ToolsOf(functions: seq<Function>): Result<seq<Tool>, SchemaError> {
    if functions == [] then Success([])
    else
      var prev := ToolsOf(functions[..|functions| - 1]);
      if prev.Failure? then prev
      else match ToolOf(functions[|functions| - 1])
        case Failure(e) => Failure(e)
        case Success(t) => Success(prev.value + [t])
  }

  /**
   * `build_tools`: for each function, in order, build the properties and the
   * required list parameter by parameter, then append the tool; the first
   * unsupported annotation aborts with its error.
   */
  method BuildTools(functions: seq<Function>) returns (r: Result<seq<Tool>, SchemaError>)
    ensures r == ToolsOf(functions)
  {
    var tools: seq<Tool> := [];
    var i := 0;
    while i < |functions|
      invariant 0 <= i <= |functions|
      invariant ToolsOf(functions[..i]) == Success(tools)
    {
      var f := functions[i];
      var built := BuildProperties(f);
      assert functions[..i + 1][..i] == functions[..i];
      if built.Failure? {
        ToolsOfFailureSticks(functions, i + 1);
        return Failure(built.error);
      }
      var (props, required) := built.value;
      tools := tools + [Tool("function", FunctionSpec(f.name, f.doc.GetOr(""), Parameters("object", props, required)))];
      i := i + 1;
    }
    assert functions[..i] == functions;
    r := Success(tools);
  }

  /**
   * The inner loop of `build_tools`: the properties and the required list
   * of one function, parameter by parameter, or the error of its first
   * unsupported parameter.
   */
  method BuildProperties(f: Function) returns (r: Result<(map<string, ParamSchema>, seq<string>), SchemaError>)
    ensures r == ParamsFold(f, f.params)
  {
    var props: map<string, ParamSchema> := map[];
    var required: seq<string> := [];
    var j := 0;
    while j < |f.params|
      invariant 0 <= j <= |f.params|
      invariant ParamsFold(f, f.params[..j]) == Success((props, required))
    {
      var p := f.params[j];
      var schema: ParamSchema;
      var a := p.annotation;
      if a.Empty? {
        a := Prim(Str);
      }
      assert f.params[..j + 1][..j] == f.params[..j] && f.params[..j + 1][j] == p;
      if a.ListOf? {
        schema := ParamSchema("array", Some(ItemTypeName(a.item)), Description(p.name));
      } else if a.Prim? {
        schema := ParamSchema(TypeName(a.prim), None, Description(p.name));
      } else {
        ParamsFoldFailureSticks(f, f.params, j + 1);
        return Failure(UnsupportedType(p.name, f.name, a));
      }
      assert ParamSchemaOf(f.name, p) == Success(schema);
      props := props[p.name := schema];
      if !p.hasDefault {
        required := required + [p.name];
      }
      j := j + 1;
    }
    assert f.params[..j] == f.params;
    r := Success((props, required));
  }

  /** Once a prefix of the parameters fails, every longer prefix fails with the same error. */
  lemma {:induction false} ParamsFoldFailureSticks(f: Function, params: seq<Param>, n: nat)
    requires n <= |params|
    requires ParamsFold(f, params[..n]).Failure?
    ensures ParamsFold(f, params) == ParamsFold(f, params[..n])
    decreases |params| - n
  {
    if n < |params| {
      assert params[..n + 1][..n] == params[..n];
      ParamsFoldFailureSticks(f, params, n + 1);
    } else {
      assert params[..n] == params;
    }
  }

  /** Once a prefix of the functions fails, every longer prefix fails with the same error. */
  lemma {:induction false} ToolsOfFailureSticks(functions: seq<Function>, n: nat)
    requires n <= |functions|
    requires ToolsOf(functions[..n]).Failure?
    ensures ToolsOf(functions) == ToolsOf(functions[..n])
    decreases |functions| - n
  {
    if n < |functions| {
      assert functions[..n + 1][..n] == functions[..n];
      ToolsOfFailureSticks(functions, n + 1);
    } else {
      assert functions[..n] == functions;
    }
  }

  /** The error raised at parameter `j` of function `i`, after all before it succeeded, is the result. */
  lemma ToolsOfFailsAt(functions: seq<Function>, i: nat, j: nat)
    requires i < |functions| && j < |functions[i].params|
    requires ToolsOf(functions[..i]).Success?
    requires ParamsFold(functions[i], functions[i].params[..j]).Success?
    requires !Supported(functions[i].params[j].annotation)
    ensures ToolsOf(functions) == Failure(UnsupportedType(functions[i].params[j].name, functions[i].name,
                                                          functions[i].params[j].annotation))
  {
    var f := functions[i];
    assert f.params[..j + 1][..j] == f.params[..j];
    ParamsFoldFailureSticks(f, f.params, j + 1);
    assert functions[..i + 1][..i] == functions[..i];
    ToolsOfFailureSticks(functions, i + 1);
  }

  /** The set of parameter names. */
  function ParamNames(params: seq<Param>): set<string> {
    set j | 0 <= j < |params| :: params[j].name
  }

  /** No two parameters share a name (Python guarantees this of every signature). */
  predicate DistinctNames(params: seq<Param>) {
    forall j, k :: 0 <= j < k < |params| ==> params[j].name != params[k].name
  }

  /** All parameters have supported annotations. */
  predicate AllSupported(params: seq<Param>) {
    forall j :: 0 <= j < |params| ==> Supported(params[j].annotation)
  }

  /**
   * Processing the parameters fails exactly when one is unsupported; on
   * success `properties` has one key per parameter name and `required` lists
   * the parameters without a default, in declaration order.
   */
  lemma {:induction false} ParamsFoldShape(f: Function, params: seq<Param>)
    ensures ParamsFold(f, params).Success? <==> AllSupported(params)
    ensures ParamsFold(f, params).Success? ==>
              ParamsFold(f, params).value.0.Keys == ParamNames(params)
              && ParamsFold(f, params).value.1 == RequiredNames(params)
  {
    if params != [] {
      var init := params[..|params| - 1];
      var p := params[|params| - 1];
      ParamsFoldShape(f, init);
      assert forall j :: 0 <= j < |init| ==> init[j] == params[j];
      assert AllSupported(params) <==> AllSupported(init) && Supported(p.annotation);
      assert ParamNames(params) == ParamNames(init) + {p.name} by {
        forall x | x in ParamNames(params) ensures x in ParamNames(init) + {p.name} {
          var j :| 0 <= j < |params| && params[j].name == x;
          if j < |init| { assert init[j].name == x; }
        }
      }
    }
  }

  /** With distinct names, the schema recorded for a parameter is the one built from it. */
  lemma {:induction false} ParamsFoldProperty(f: Function, params: seq<Param>, j: nat)
    requires j < |params| && DistinctNames(params) && AllSupported(params)
    ensures ParamsFold(f, params).Success?
    ensures params[j].name in ParamsFold(f, params).value.0
    ensures ParamsFold(f, params).value.0[params[j].name] == ParamSchemaOf(f.name, params[j]).value
  {
    ParamsFoldShape(f, params);
    var init := params[..|params| - 1];
    ParamsFoldShape(f, init);
    assert forall i :: 0 <= i < |init| ==> init[i] == params[i];
    if j < |init| {
      ParamsFoldProperty(f, init, j);
      assert params[j].name != params[|params| - 1].name;
    }
  }

  /** `build_tools` succeeds exactly when every parameter of every function has a supported annotation. */
  lemma {:induction false} ToolsOfSucceedsIff(functions: seq<Function>)
    ensures ToolsOf(functions).Success? <==> forall k :: 0 <= k < |functions| ==> AllSupported(functions[k].params)
  {
    if functions != [] {
      var init := functions[..|functions| - 1];
      var f := functions[|functions| - 1];
      ToolsOfSucceedsIff(init);
      ParamsFoldShape(f, f.params);
      assert forall k :: 0 <= k < |init| ==> init[k] == functions[k];
    }
  }

  /**
   * On success there is one tool per function, in input order: outer type
   * "function", the function's name, its docstring or "", a parameters object
   * of type "object" whose properties have one key per parameter and whose
   * required list holds the parameters without a default, in order.
   */
  lemma {:induction false} ToolsMatchFunctions(functions: seq<Function>)
    requires ToolsOf(functions).Success?
    ensures |ToolsOf(functions).value| == |functions|
    ensures forall k :: 0 <= k < |functions| ==>
              var t := ToolsOf(functions).value[k];
              && t.typ == "function"
              && t.spec.name == functions[k].name
              && t.spec.description == functions[k].doc.GetOr("")
              && t.spec.parameters.typ == "object"
              && t.spec.parameters.properties.Keys == ParamNames(functions[k].params)
              && t.spec.parameters.required == RequiredNames(functions[k].params)
  {
    if functions != [] {
      var init := functions[..|functions| - 1];
      var f := functions[|functions| - 1];
      ToolsMatchFunctions(init);
      ParamsFoldShape(f, f.params);
      assert forall k :: 0 <= k < |init| ==> init[k] == functions[k];
    }
  }

  /** On success, the schema of parameter `j` of function `k` is built from that parameter alone. */
  lemma ToolPropertyOfParam(functions: seq<Function>, k: nat, j: nat)
    requires ToolsOf(functions).Success?
    requires k < |functions| && j < |functions[k].params| && DistinctNames(functions[k].params)
    ensures k < |ToolsOf(functions).value| && ParamSchemaOf(functions[k].name, functions[k].params[j]).Success?
    ensures var props := ToolsOf(functions).value[k].spec.parameters.properties;
            functions[k].params[j].name in props
            && props[functions[k].params[j].name] == ParamSchemaOf(functions[k].name, functions[k].params[j]).value
  {
    ToolsOfSucceedsIff(functions);
    ToolsMatchFunctions(functions);
    ToolOfAt(functions, k);
    ParamsFoldProperty(functions[k], functions[k].params, j);
  }

  /** On success, entry `k` of the result is the tool of function `k`. */
  lemma {:induction false} ToolOfAt(functions: seq<Function>, k: nat)
    requires ToolsOf(functions).Success? && k < |functions|
    ensures ToolOf(functions[k]).Success?
    ensures |ToolsOf(functions).value| == |functions| && ToolsOf(functions).value[k] == ToolOf(functions[k]).value
  {
    ToolsMatchFunctions(functions);
    var init := functions[..|functions| - 1];
    if k < |init| {
      ToolOfAt(init, k);
      ToolsMatchFunctions(init);
    }
  }
}
