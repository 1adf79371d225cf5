/** The type resolver (`processTypeConversion`) and the signature-type
    extractor (`processFunctionType` and its argument and return-type
    wrappers). Each returns `None` where the visitor returns NULL. */
module TypeResolver {
  import opened Wrappers
  import opened Ast
  import opened Ir

  /** The bindable types the resolver can produce for some input: class
      references to registered, non-builtin names; enum references to enum
      names that do not also name a class; unsigned primitives only of
      kind `Int`. */
  predicate Resolvable(t: BindType, b: Bindings)
  {
    match t
    case Primitive(k, u) => u ==> k == IntegerKind(Int)
    case StringT => true
    case StringHashT => true
    case HeapPtrT => true
    case ClassRef(n) => n in b.classes && !IsBuiltinName(n)
    case EnumRef(n) => n in b.enums && n !in b.classes && !IsBuiltinName(n)
  }

  predicate IsUnsignedPrimitive(t: BindType)
  {
    t.Primitive? && t.isUnsigned
  }

  /** A named type the resolver knows: a builtin name or a registered one. */
  predicate KnownName(n: string, b: Bindings)
  {
    IsBuiltinName(n) || n in b.classes || n in b.enums
  }

  /** processTypeConversion: integers keep their kind, every float kind is
      `Float`, named types go through the builtin names, then the class
      registry, then the enum names; everything else is unsupported. */
  function ConvertType(t: Type, b: Bindings): (r: Option<BindType>)
    ensures r.Some? <==> t.IntegerType? || t.FloatType? || (t.NamedType? && KnownName(RenderName(t.name), b))
    ensures r.Some? ==> Resolvable(r.value, b) && !IsUnsignedPrimitive(r.value)
    ensures t.IntegerType? ==> r == Some(Primitive(IntegerKind(t.kind), false))
    ensures t.FloatType? ==> r == Some(Primitive(FloatingKind, false))
    ensures r.Some? && (r.value.ClassRef? || r.value.EnumRef?) ==>
      t.NamedType? && RenderName(t.name) == (if r.value.ClassRef? then r.value.className else r.value.enumName)
  {
    if t.IntegerType? then
      Some(Primitive(IntegerKind(t.kind), false))
    else if t.FloatType? then
      Some(Primitive(FloatingKind, false))
    else if t.NamedType? then
      var n := RenderName(t.name);
      if n == "String" then Some(StringT)
      else if n == "StringHash" then Some(StringHashT)
      else if n == "JS_HEAP_PTR" then Some(HeapPtrT)
      else if n in b.classes then Some(ClassRef(n))
      else if n in b.enums then Some(EnumRef(n))
      else None
    else
      None
  }

  /** A type node that the resolver maps to `t`; the partner of ConvertType. */
  function CoreType(t: BindType): Type
  {
    match t
    case Primitive(k, u) =>
      if u then UndefinedType
      else if k.FloatingKind? then FloatType(Float)
      else IntegerType(k.ik)
    case StringT => NamedType(NameId("String"))
    case StringHashT => NamedType(NameId("StringHash"))
    case HeapPtrT => NamedType(NameId("JS_HEAP_PTR"))
    case ClassRef(n) => NamedType(NameId(n))
    case EnumRef(n) => NamedType(NameId(n))
  }

  /** Every resolvable signed type is reached by the resolver. */
  lemma ConvertTypeComplete(t: BindType, b: Bindings)
    requires Resolvable(t, b) && !IsUnsignedPrimitive(t)
    ensures ConvertType(CoreType(t), b) == Some(t)
  {
  }

  /** A named type is looked up by its rendered name alone, whether it is a
      plain name or a template-id such as `Vector<String>`. */
  lemma ConvertTypeByName(t: Type, b: Bindings)
    requires t.NamedType?
    ensures ConvertType(t, b) == ConvertType(NamedType(NameId(RenderName(t.name))), b)
  {
  }

  /** Hence a template-id whose rendered name is a registered, non-builtin
      class resolves to that class, like any plain name would. */
  lemma RegisteredTemplateIdIsClass(t: Type, b: Bindings)
    requires t.NamedType? && t.name.TemplateNameId?
    requires RenderName(t.name) in b.classes && !IsBuiltinName(RenderName(t.name))
    ensures ConvertType(t, b) == Some(ClassRef(RenderName(t.name)))
  {
    ConvertTypeByName(t, b);
    ConvertTypeComplete(ClassRef(RenderName(t.name)), b);
  }

  /** The pointer layer, if the outer type is a pointer. */
  function StripPointer(fst: FullType): FullType
  {
    if fst.ty.PointerType? then fst.ty.elem else fst
  }

  /** The reference layer, if the type left after the pointer layer is a reference. */
  function StripReference(fst: FullType): FullType
  {
    var p := StripPointer(fst);
    if p.ty.ReferenceType? then p.ty.elem else p
  }

  predicate IsSharedPtrName(t: Type)
  {
    t.NamedType? && t.name.TemplateNameId? && t.name.identifier == "SharedPtr"
  }

  /** The type handed to the resolver: the declared type without its
      outer pointer and then its reference, and in return position with
      no pointer, the first argument of a `SharedPtr<...>`. */
  function Unwrapped(fst: FullType, retType: bool): Type
  {
    var t := StripReference(fst).ty;
    if retType && !fst.ty.PointerType? && IsSharedPtrName(t) then t.name.firstArg.ty else t
  }

  /** What the unwrapped type stands for: an unsigned `Int` when the outer
      type is `unsigned` and the unwrapped one undefined, otherwise the
      resolver's answer. */
  function CoreBinding(fst: FullType, retType: bool, b: Bindings): Option<BindType>
  {
    var t := Unwrapped(fst, retType);
    if fst.isUnsigned && t.UndefinedType? then Some(Primitive(IntegerKind(Int), true)) else ConvertType(t, b)
  }

  /** The refusal applied after resolution: behind a pointer or a
      reference, no primitive, and in parameter position no String or
      StringHash unless a const reference was stripped. */
  predicate LayerRefuses(fst: FullType, retType: bool, t: BindType)
  {
    var constRef := StripPointer(fst).ty.ReferenceType? && StripReference(fst).isConst;
    && (fst.ty.PointerType? || StripPointer(fst).ty.ReferenceType?)
    && (t.Primitive? || (!retType && !constRef && (t.StringT? || t.StringHashT?)))
  }

  /** The bindable results of the extractor: the flags match the stripped
      layers, no pointer or reference to a primitive, and in parameter
      position a String or StringHash behind a pointer or reference must at
      least have come through a (const) reference. Names and initializers
      are filled in by the callers. */
  predicate Bindable(p: ParamType, retType: bool, b: Bindings)
  {
    && Resolvable(p.ty, b)
    && !p.isSharedPtr && !p.isConst && p.name == "" && p.initializer == ""
    && (p.isTemplate ==> retType && !p.isPointer)
    && ((p.isPointer || p.isReference) ==> !p.ty.Primitive?)
    && ((p.isPointer || p.isReference) && !retType && (p.ty.StringT? || p.ty.StringHashT?) ==> p.isReference)
  }

  /** processFunctionType. One pointer layer is removed, then one reference
      layer, whose element's const-ness is noted. In return position, when
      no pointer was removed, `SharedPtr<T>` is replaced by `T`. A bare
      `unsigned` (the OUTER type carries the flag, the unwrapped type is
      undefined) is an unsigned `Int`. After conversion, pointers and
      references to primitives are refused, and so are non-const ones to
      String/StringHash in parameter position. `isSharedPtr` and `isConst`
      are never set in the result. */
  function ProcessFunctionType(fst: FullType, retType: bool, b: Bindings): (r: Option<ParamType>)
    ensures r.None? <==> CoreBinding(fst, retType, b).None? || LayerRefuses(fst, retType, CoreBinding(fst, retType, b).value)
    ensures r.Some? ==> r.value.ty == CoreBinding(fst, retType, b).value
    ensures r.Some? ==> Bindable(r.value, retType, b)
    ensures r.Some? ==> r.value.isPointer == fst.ty.PointerType?
    ensures r.Some? ==> r.value.isReference == StripPointer(fst).ty.ReferenceType?
    ensures r.Some? ==> (r.value.isTemplate <==> retType && !fst.ty.PointerType? && IsSharedPtrName(StripReference(fst).ty))
    ensures r.Some? && (r.value.isPointer || r.value.isReference) && !retType && (r.value.ty.StringT? || r.value.ty.StringHashT?)
      ==> StripPointer(fst).ty.ReferenceType? && StripReference(fst).isConst
  {
    var isPointer := fst.ty.PointerType?;
    var t1 := StripPointer(fst).ty;
    var isReference := t1.ReferenceType?;
    var isConst := isReference && t1.elem.isConst;
    var t2 := StripReference(fst).ty;
    var isTemplate := !isPointer && retType && IsSharedPtrName(t2);
    var t3 := if isTemplate then t2.name.firstArg.ty else t2;
    var jtype :=
      if fst.isUnsigned && t3.UndefinedType? then Some(Primitive(IntegerKind(Int), true))
      else ConvertType(t3, b);
    if jtype.None? then
      None
    else if (isPointer || isReference)
      && (jtype.value.Primitive? || (!retType && !isConst && (jtype.value.StringT? || jtype.value.StringHashT?))) then
      None
    else
      Some(ParamType(jtype.value, isPointer, false, isReference, isTemplate, false, "", ""))
  }

  /** A declared type the extractor maps to `p`: the core type, wrapped in
      `SharedPtr<...>`, a const reference and a pointer as `p`'s flags say,
      with the unsigned flag on the outermost type. */
  function DeclaredType(p: ParamType): FullType
  {
    var u := IsUnsignedPrimitive(p.ty);
    var core := CoreType(p.ty);
    var t2 := if p.isTemplate then NamedType(TemplateNameId("SharedPtr", "SharedPtr", FullType(core, false, u), [])) else core;
    var t1 := if p.isReference then ReferenceType(FullType(t2, true, false)) else t2;
    var t0 := if p.isPointer then PointerType(FullType(t1, false, false)) else t1;
    FullType(t0, false, u)
  }

  /** The extractor's results are exactly the bindable descriptions: each
      one is produced from its declared type. */
  lemma ProcessFunctionTypeComplete(p: ParamType, retType: bool, b: Bindings)
    requires Bindable(p, retType, b)
    ensures ProcessFunctionType(DeclaredType(p), retType, b) == Some(p)
  {
    if !IsUnsignedPrimitive(p.ty) {
      ConvertTypeComplete(p.ty, b);
    }
  }

  /** Pointers and references to integer, float or undefined (bare
      `unsigned`) types are never bindable, in either position. */
  lemma PointerToPrimitiveRejected(fst: FullType, retType: bool, b: Bindings)
    requires fst.ty.PointerType? || StripPointer(fst).ty.ReferenceType?
    requires StripReference(fst).ty.IntegerType? || StripReference(fst).ty.FloatType? || StripReference(fst).ty.UndefinedType?
    ensures ProcessFunctionType(fst, retType, b) == None
  {
  }

  /** A `String*` or `StringHash*` parameter is always refused, even when
      the pointee is const: const-ness is read on the reference branch only. */
  lemma StringPointerParamRejected(elem: FullType, u: bool, b: Bindings)
    requires elem.ty.NamedType? && RenderName(elem.ty.name) in {"String", "StringHash"}
    ensures ProcessFunctionType(FullType(PointerType(elem), false, u), false, b) == None
  {
  }

  /** In parameter position a reference to String/StringHash is accepted
      exactly when the referenced type is const. */
  lemma StringReferenceParam(elem: FullType, u: bool, b: Bindings)
    requires elem.ty.NamedType? && RenderName(elem.ty.name) in {"String", "StringHash"}
    ensures ProcessFunctionType(FullType(ReferenceType(elem), false, u), false, b).Some? <==> elem.isConst
  {
  }

  /** In return position a non-const reference to String is accepted. */
  lemma StringReferenceReturn(elem: FullType, u: bool, b: Bindings)
    requires elem.ty == NamedType(NameId("String"))
    ensures ProcessFunctionType(FullType(ReferenceType(elem), false, u), true, b)
      == Some(ParamType(StringT, false, false, true, false, false, "", ""))
  {
  }

  /** `SharedPtr<T>` as a return type is resolved through `T`, marked as a template. */
  lemma SharedPtrReturnUnwrapped(arg: FullType, rest: seq<FullType>, text: string, u: bool, b: Bindings)
    requires !(u && arg.ty.UndefinedType?)
    ensures ProcessFunctionType(FullType(NamedType(TemplateNameId(text, "SharedPtr", arg, rest)), false, u), true, b)
      == (match ConvertType(arg.ty, b)
          case None => None
          case Some(t) => Some(ParamType(t, false, false, false, true, false, "", "")))
  {
  }

  /** In parameter position `SharedPtr<T>` is an ordinary named type,
      looked up by its whole rendered name. */
  lemma SharedPtrParamNotUnwrapped(arg: FullType, rest: seq<FullType>, text: string, u: bool, b: Bindings)
    ensures ProcessFunctionType(FullType(NamedType(TemplateNameId(text, "SharedPtr", arg, rest)), false, u), false, b)
      == (match ConvertType(NamedType(TemplateNameId(text, "SharedPtr", arg, rest)), b)
          case None => None
          case Some(t) => Some(ParamType(t, false, false, false, false, false, "", "")))
  {
  }

  /** `unsigned int` is an integer type, so the resolver's signed `Int`
      comes out: the unsigned flag only matters for an undefined type. */
  lemma UnsignedIntIsSigned(c: bool, retType: bool, b: Bindings)
    ensures ProcessFunctionType(FullType(IntegerType(Int), c, true), retType, b)
      == Some(ParamType(Primitive(IntegerKind(Int), false), false, false, false, false, false, "", ""))
  {
  }

  /** A non-const reference or a pointer to a registered class is bound in
      either position, whatever the pointee's qualifiers. */
  lemma ClassPointerOrReferenceAccepted(n: string, c: bool, u: bool, retType: bool, isPointer: bool, b: Bindings)
    requires n in b.classes && !IsBuiltinName(n)
    ensures var elem := FullType(NamedType(NameId(n)), c, u);
      var fst := FullType(if isPointer then PointerType(elem) else ReferenceType(elem), false, false);
      ProcessFunctionType(fst, retType, b)
        == Some(ParamType(ClassRef(n), isPointer, false, !isPointer, false, false, "", ""))
  {
  }

  /** A bare `unsigned` is an unsigned `Int`; the flag is read from the
      outer type only, so an unsigned pointee behind a pointer is not. */
  lemma BareUnsigned(retType: bool, c: bool, b: Bindings)
    ensures ProcessFunctionType(FullType(UndefinedType, c, true), retType, b)
      == Some(ParamType(Primitive(IntegerKind(Int), true), false, false, false, false, false, "", ""))
    ensures ProcessFunctionType(FullType(PointerType(FullType(UndefinedType, c, true)), c, false), retType, b) == None
  {
  }

  /** processFunctionArgType: the argument's type in parameter position,
      named after the argument. */
  function ProcessFunctionArgType(arg: Argument, b: Bindings): (r: Option<ParamType>)
    ensures r.Some? <==> ProcessFunctionType(arg.ty, false, b).Some?
    ensures r.Some? ==> r.value == ProcessFunctionType(arg.ty, false, b).value.(name := arg.name)
  {
    match ProcessFunctionType(arg.ty, false, b)
    case None => None
    case Some(p) => Some(p.(name := arg.name))
  }

  /** processFunctionReturnType: no result for a function without a
      return type, otherwise the return type in return position. */
  function ProcessFunctionReturnType(f: Function, b: Bindings): (r: Option<ParamType>)
    ensures r.Some? ==> f.returnType.Some? && Bindable(r.value, true, b)
    ensures f.returnType.Some? ==> r == ProcessFunctionType(f.returnType.value, true, b)
  {
    if f.returnType.None? then None else ProcessFunctionType(f.returnType.value, true, b)
  }
}
