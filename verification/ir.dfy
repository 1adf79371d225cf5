/** The intermediate representation the visitor produces, and the state it
    threads: the bindings registry (classes and enums created by an earlier
    pass), the module of the header being visited, and the warnings the
    visitor logs. */
module Ir {
  import opened Wrappers
  import opened Ast

  /** `JSBPrimitiveType` kinds: the parser's integer kinds, plus `Float`. */
  datatype PrimKind = IntegerKind(ik: IntKind) | FloatingKind

  /** `JSBType`: the binding-safe type vocabulary. */
  datatype BindType =
    | Primitive(kind: PrimKind, isUnsigned: bool)
    | StringT
    | StringHashT
    | HeapPtrT
    | ClassRef(className: string)
    | EnumRef(enumName: string)

  /** `JSBFunctionType`: a bindable type plus the flags the visitor records,
      the parameter name and the (possibly quoted) default value; the empty
      string stands for "none", as in the engine's String fields. */
  datatype ParamType = ParamType(
    ty: BindType,
    isPointer: bool,
    isSharedPtr: bool,
    isReference: bool,
    isTemplate: bool,
    isConst: bool,
    name: string,
    initializer: string)

  /** `JSBFunction`. */
  datatype BindFunction = BindFunction(
    owner: string,
    name: string,
    params: seq<ParamType>,
    returnType: Option<ParamType>,
    isConstructor: bool,
    isDestructor: bool,
    sourceLocation: nat,
    fileName: string,
    sourceLine: uint32,
    sourceColumn: uint32,
    docString: string)

  /** `JSBClass`: the registry entry the visitor augments. Base classes are
      recorded by their registry name. */
  datatype ClassEntry = ClassEntry(
    name: string,
    moduleName: Option<string>,
    bases: seq<string>,
    functions: seq<BindFunction>,
    isAbstract: bool)

  /** `JSBindings`: class lookup by name, and the set of enum names. */
  datatype Bindings = Bindings(classes: map<string, ClassEntry>, enums: set<string>)

  /** `JSBModule`: the classes and constants found in one header. */
  datatype Module = Module(name: string, classes: seq<string>, constants: seq<string>)

  /** The one condition the visitor reports: a base class that is not in
      the registry. */
  datatype Warning = MissingBase(className: string, baseName: string)

  datatype State = State(bindings: Bindings, mod: Module, warnings: seq<Warning>)

  /** The three names the type resolver maps before any registry lookup. */
  predicate IsBuiltinName(n: string)
  {
    n == "String" || n == "StringHash" || n == "JS_HEAP_PTR"
  }
}

/** How a visit may change the state: the registry keeps its class names
    and enums, each class entry is only augmented (bases and functions
    appended, the abstract flag only ever set), and the module's lists and
    the warnings only grow at the end. */
module StateOrder {
  import opened Ir

  predicate Augments(e: ClassEntry, e': ClassEntry)
  {
    && e'.name == e.name
    && e.bases <= e'.bases
    && e.functions <= e'.functions
    && (e.isAbstract ==> e'.isAbstract)
  }

  ghost predicate Extends(st: State, st': State)
  {
    && st'.bindings.classes.Keys == st.bindings.classes.Keys
    && st'.bindings.enums == st.bindings.enums
    && (forall n :: n in st.bindings.classes ==> Augments(st.bindings.classes[n], st'.bindings.classes[n]))
    && st'.mod.name == st.mod.name
    && st.mod.classes <= st'.mod.classes
    && st.mod.constants <= st'.mod.constants
    && st.warnings <= st'.warnings
  }

  /** Every class the module lists is a registry class. */
  ghost predicate ModuleRegistered(st: State)
  {
    forall n :: n in st.mod.classes ==> n in st.bindings.classes
  }

  lemma ExtendsTransitive(st1: State, st2: State, st3: State)
    requires Extends(st1, st2) && Extends(st2, st3)
    ensures Extends(st1, st3)
  {
    forall n | n in st1.bindings.classes
      ensures Augments(st1.bindings.classes[n], st3.bindings.classes[n])
    {
      assert n in st2.bindings.classes;
    }
  }

  /** Two steps that each warn only about bases unregistered at their
      start warn, together, only about bases unregistered at the start. */
  lemma NewWarningsChain(st1: State, st2: State, st3: State)
    requires Extends(st1, st2) && Extends(st2, st3)
    requires forall w :: w in st2.warnings[|st1.warnings|..] ==> w.baseName !in st1.bindings.classes
    requires forall w :: w in st3.warnings[|st2.warnings|..] ==> w.baseName !in st2.bindings.classes
    ensures forall w :: w in st3.warnings[|st1.warnings|..] ==> w.baseName !in st1.bindings.classes
  {
    assert st3.warnings[|st1.warnings|..] == st2.warnings[|st1.warnings|..] + st3.warnings[|st2.warnings|..];
  }
}
