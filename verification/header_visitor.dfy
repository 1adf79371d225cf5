/** The remaining `visit` overloads of the header visitor and the
    depth-first traversal that drives them from the global namespace. */
module HeaderVisitor {
  import opened Wrappers
  import opened Ast
  import opened Ir
  import opened StateOrder
  import opened ClassWalker

  /** visit(Namespace*): the name is rendered and dropped; always descend. */
  function VisitNamespace(nsName: string, st: State): (r: (State, bool))
    ensures r.0 == st && r.1
  {
    (st, true)
  }

  /** visit(Template*): template declarations are rejected, subtree and all. */
  function VisitTemplate(st: State): (r: (State, bool))
    ensures r.0 == st && !r.1
  {
    (st, false)
  }

  /** visit(Enum*): enums are handled by another pass; do not descend. */
  function VisitEnum(st: State): (r: (State, bool))
    ensures r.0 == st && !r.1
  {
    (st, false)
  }

  /** The test of visit(Declaration*), as written. */
  predicate IsConstantType(t: Type)
  {
    && !(t.PointerType? || t.ReferenceType?)
    && !t.EnumType?
    && (t.FloatType? || t.IntegerType?)
  }

  /** The pointer, reference and enum exclusions are implied by the scalar
      test: a declaration becomes a constant iff its type is an integer or
      float type. */
  lemma ConstantTypeIsScalar(t: Type)
    ensures IsConstantType(t) <==> t.IntegerType? || t.FloatType?
  {
  }

  /** visit(Declaration*): a global declaration of integer or float type is
      registered as a constant of the module; nothing else changes; always
      descend. */
  function VisitDeclaration(d: Declaration, st: State): (r: (State, bool))
    ensures r.1
    ensures (d.ty.ty.IntegerType? || d.ty.ty.FloatType?) ==>
      r.0 == st.(mod := st.mod.(constants := st.mod.constants + [d.name]))
    ensures !(d.ty.ty.IntegerType? || d.ty.ty.FloatType?) ==> r.0 == st
  {
    if IsConstantType(d.ty.ty) then
      (st.(mod := st.mod.(constants := st.mod.constants + [d.name])), true)
    else
      (st, true)
  }

  /** Dispatch to the visit overload of the symbol's kind. Symbols without
      an overload get the base visitor's default: keep going. */
  function Visit(s: Symbol, st: State, comments: seq<Comment>): (r: (State, bool))
    ensures Extends(st, r.0)
    ensures ModuleRegistered(st) ==> ModuleRegistered(r.0)
    ensures r.1 <==> s.NamespaceSym? || s.DeclarationSym? || s.OtherSym?
    ensures forall w :: w in r.0.warnings[|st.warnings|..] ==> w.baseName !in st.bindings.classes
  {
    match s
    case NamespaceSym(n, _) => VisitNamespace(n, st)
    case ClassSym(c) => VisitClass(c, st, comments)
    case TemplateSym(_) => VisitTemplate(st)
    case EnumSym(_) => VisitEnum(st)
    case DeclarationSym(d) => VisitDeclaration(d, st)
    case OtherSym(_) => (st, true)
  }

  /** Visit a symbol, then the members of its scope in order if the visit
      said so (a declaration has none). The
      whole run only ever augments the state: registry names and enums are
      kept, entries and lists only grow, every module class stays a
      registry class, and every warning names an unregistered base. */
  function Walk(s: Symbol, st: State, comments: seq<Comment>): (r: State)
    ensures Extends(st, r)
    ensures ModuleRegistered(st) ==> ModuleRegistered(r)
    ensures forall w :: w in r.warnings[|st.warnings|..] ==> w.baseName !in st.bindings.classes
    decreases s
  {
    var v := Visit(s, st, comments);
    if v.1 then
      var r := match s
        case NamespaceSym(_, ms) => WalkAll(ms, v.0, comments)
        case OtherSym(ms) => WalkAll(ms, v.0, comments)
        case _ => v.0;
      ExtendsTransitive(st, v.0, r);
      NewWarningsChain(st, v.0, r);
      r
    else
      v.0
  }

  /** Walk each symbol of a scope in order. */
  function WalkAll(ss: seq<Symbol>, st: State, comments: seq<Comment>): (r: State)
    ensures Extends(st, r)
    ensures ModuleRegistered(st) ==> ModuleRegistered(r)
    ensures forall w :: w in r.warnings[|st.warnings|..] ==> w.baseName !in st.bindings.classes
    decreases ss
  {
    if |ss| == 0 then
      st
    else
      var st1 := Walk(ss[0], st, comments);
      var r := WalkAll(ss[1..], st1, comments);
      ExtendsTransitive(st, st1, r);
      NewWarningsChain(st, st1, r);
      r
  }

  /** Symbols are walked in declaration order: walking `xs + ys` is walking
      `xs`, then `ys`. */
  lemma {:induction false} WalkAllConcat(xs: seq<Symbol>, ys: seq<Symbol>, st: State, comments: seq<Comment>)
    ensures WalkAll(xs + ys, st, comments) == WalkAll(ys, WalkAll(xs, st, comments), comments)
  {
    if |xs| > 0 {
      assert (xs + ys)[1..] == xs[1..] + ys;
      WalkAllConcat(xs[1..], ys, Walk(xs[0], st, comments), comments);
    } else {
      assert xs + ys == ys;
    }
  }

  /** Nothing under a template or an enum reaches the registry or the
      module: not a class, not a constant. */
  lemma WalkSkipsTemplatesAndEnums(s: Symbol, st: State, comments: seq<Comment>)
    requires s.TemplateSym? || s.EnumSym?
    ensures Walk(s, st, comments) == st
  {
  }
}
