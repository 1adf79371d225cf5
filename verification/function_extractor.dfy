/** `processFunction`: turns a function symbol into a `JSBFunction`, or
    refuses it. */
module FunctionExtractor {
  import opened Wrappers
  import opened Ast
  import opened Ir
  import opened TypeResolver
  import opened DocScanner

  /** A default value that starts with a backslash is wrapped in double quotes. */
  function QuoteInitializer(s: string): (r: string)
    ensures StartsWith(s, "\\") ==> |r| == |s| + 2 && r[0] == '"' && r[|r| - 1] == '"' && r[1..|r| - 1] == s
    ensures !StartsWith(s, "\\") ==> r == s
  {
    if StartsWith(s, "\\") then "\"" + s + "\"" else s
  }

  /** The initializer recorded for an argument; empty when it has none. */
  function InitializerOf(init: Option<string>): string
  {
    match init
    case None => ""
    case Some(s) => QuoteInitializer(s)
  }

  /** One iteration of the argument loop: a symbol that is not an
      `Argument`, or whose type cannot be bound, refuses the function. */
  function ProcessParam(a: ArgSymbol, b: Bindings): (r: Option<ParamType>)
    ensures r.Some? <==> a.ArgumentSym? && ProcessFunctionType(a.arg.ty, false, b).Some?
    ensures r.Some? ==> r.value.(name := "", initializer := "") == ProcessFunctionType(a.arg.ty, false, b).value
    ensures r.Some? ==> r.value.name == a.arg.name && r.value.initializer == InitializerOf(a.arg.initializer)
  {
    if !a.ArgumentSym? then None
    else match ProcessFunctionArgType(a.arg, b)
      case None => None
      case Some(p) => Some(p.(initializer := InitializerOf(a.arg.initializer)))
  }

  /** The argument loop: one parameter per argument, in declaration order,
      or nothing as soon as one argument fails. */
  function ProcessParams(args: seq<ArgSymbol>, b: Bindings): (r: Option<seq<ParamType>>)
    ensures r.Some? <==> forall i :: 0 <= i < |args| ==> ProcessParam(args[i], b).Some?
    ensures r.Some? ==> |r.value| == |args| && forall i :: 0 <= i < |args| ==> ProcessParam(args[i], b) == Some(r.value[i])
  {
    if |args| == 0 then Some([])
    else match ProcessParam(args[0], b)
      case None => None
      case Some(p) =>
        match ProcessParams(args[1..], b)
        case None => None
        case Some(ps) => Some([p] + ps)
  }

  /** The return type needs resolving when there is one and it is not `void`. */
  predicate HasNonVoidReturn(f: Function)
  {
    f.returnType.Some? && !f.returnType.value.ty.VoidType?
  }

  /** processFunction for a member `f` of the class named `className`.
      Refused: variadic functions, names starting with "operator ", a
      non-void return type that cannot be bound, and, when the front end
      reports arguments, any argument that cannot be bound. Without
      arguments (an empty or `(void)` list) there are no parameters. Constructors (the class's own name) and destructors
      (a leading `~`) are flagged, never refused. */
  function ProcessFunction(className: string, f: Function, b: Bindings, comments: seq<Comment>): (r: Option<BindFunction>)
    ensures r.None? <==>
      || f.isVariadic
      || StartsWith(f.name, "operator ")
      || (HasNonVoidReturn(f) && ProcessFunctionReturnType(f, b).None?)
      || (f.hasArguments && exists i :: 0 <= i < |f.args| && ProcessParam(f.args[i], b).None?)
    ensures r.Some? ==> r.value.owner == className && r.value.name == f.name
    ensures r.Some? && !f.hasArguments ==> r.value.params == []
    ensures r.Some? && f.hasArguments ==>
      && |r.value.params| == |f.args|
      && (forall i :: 0 <= i < |f.args| ==> ProcessParam(f.args[i], b) == Some(r.value.params[i]))
    ensures r.Some? ==>
      && (r.value.isConstructor <==> f.name == className)
      && (r.value.isDestructor <==> StartsWith(f.name, "~"))
    ensures r.Some? ==>
      && (r.value.returnType.Some? <==> HasNonVoidReturn(f))
      && (r.value.returnType.Some? ==> r.value.returnType == ProcessFunctionType(f.returnType.value, true, b))
    ensures r.Some? ==>
      && r.value.sourceLocation == f.sourceLocation && r.value.fileName == f.fileName
      && r.value.sourceLine == f.line && r.value.sourceColumn == f.column
      && r.value.docString == DocString(comments, f.line)
  {
    if f.isVariadic then None
    else if StartsWith(f.name, "operator ") then None
    else
      var ret := if HasNonVoidReturn(f) then ProcessFunctionReturnType(f, b) else None;
      if HasNonVoidReturn(f) && ret.None? then None
      else match (if f.hasArguments then ProcessParams(f.args, b) else Some([]))
        case None => None
        case Some(ps) =>
          Some(BindFunction(
            className, f.name, ps, ret,
            f.name == className, StartsWith(f.name, "~"),
            f.sourceLocation, f.fileName, f.line, f.column,
            DocString(comments, f.line)))
  }

  /** Every parameter of an extracted function is bindable in parameter
      position, and every return type in return position. */
  lemma ExtractedFunctionBindable(className: string, f: Function, b: Bindings, comments: seq<Comment>)
    requires ProcessFunction(className, f, b, comments).Some?
    ensures forall p :: p in ProcessFunction(className, f, b, comments).value.params ==>
      Bindable(p.(name := "", initializer := ""), false, b)
    ensures ProcessFunction(className, f, b, comments).value.returnType.Some? ==>
      Bindable(ProcessFunction(className, f, b, comments).value.returnType.value, true, b)
  {
    var jf := ProcessFunction(className, f, b, comments).value;
    forall p | p in jf.params
      ensures Bindable(p.(name := "", initializer := ""), false, b)
    {
      var i :| 0 <= i < |jf.params| && jf.params[i] == p;
      assert ProcessParam(f.args[i], b) == Some(p);
    }
  }
}
