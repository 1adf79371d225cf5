/** The shapes of the C++ front end's symbol table that the header visitor
    inspects: fully specified types, type nodes, names, arguments,
    functions, class members, comment tokens and the symbols met by the
    traversal. The polymorphic `Type`/`Symbol` class hierarchy of the
    parser becomes closed datatypes; the `isXxx()`/`asXxx()` queries become
    discriminator tests. */
module Ast {
  import opened Wrappers

  /** Line numbers are C `unsigned` values. */
  type uint32 = x: int | 0 <= x < 0x1_0000_0000

  /** The kinds of the parser's `IntegerType`. */
  datatype IntKind = Char | Char16 | Char32 | WideChar | Bool | Short | Int | Long | LongLong

  /** The kinds of the parser's `FloatType`. */
  datatype FloatKind = Float | Double | LongDouble

  /** A `FullySpecifiedType`: a type node plus the qualifiers the visitor reads. */
  datatype FullType = FullType(ty: Type, isConst: bool, isUnsigned: bool)

  /** Type nodes. `OtherType` covers every shape the visitor never
      distinguishes (arrays, class types, Objective-C types, ...). */
  datatype Type =
    | VoidType
    | IntegerType(kind: IntKind)
    | FloatType(fkind: FloatKind)
    | PointerType(elem: FullType)
    | ReferenceType(elem: FullType)
    | NamedType(name: Name)
    | EnumType(enumName: string)
    | FunctionType(fn: Function)
    | UndefinedType
    | OtherType

  /** The name of a named type. `text` is what the name visitor renders for
      the whole name. A template-id additionally exposes its identifier and
      its template arguments; its first argument is a field of its own, so a
      template-id here always has at least one argument. Every other name
      kind (plain, qualified, destructor, operator, ...) is a `NameId`. */
  datatype Name =
    | NameId(text: string)
    | TemplateNameId(text: string, identifier: string, firstArg: FullType, restArgs: seq<FullType>)

  /** The display string the name visitor produces for a name. */
  function RenderName(n: Name): string
  {
    n.text
  }

  /** A function argument: rendered name, declared type and the characters
      of its default-value literal, if any. */
  datatype Argument = Argument(name: string, ty: FullType, initializer: Option<string>)

  /** An entry of a function's argument scope (`argumentAt(i)`): normally an
      `Argument`, but the parser may place other symbols there. A `(void)`
      parameter list is one void-typed `Argument`. */
  datatype ArgSymbol = ArgumentSym(arg: Argument) | NonArgumentSym

  /** A function symbol (which is also the parser's function type). A
      missing `returnType` is `hasReturnType() == false`. `args` is the whole
      argument scope, and `hasArguments` is the front end's own answer to
      `hasArguments()`, which is false for an empty list and for a lone
      `void` argument. */
  datatype Function = Function(
    name: string,
    returnType: Option<FullType>,
    args: seq<ArgSymbol>,
    hasArguments: bool,
    isVariadic: bool,
    isPureVirtual: bool,
    sourceLocation: nat,
    fileName: string,
    line: uint32,
    column: uint32)

  datatype Visibility = Public | Protected | Private | Package

  /** The symbol kinds a class member can be, as far as the visitor cares:
      a function symbol, a declaration (whose type may be a function type),
      or anything else. */
  datatype MemberKind =
    | FunctionMember(fn: Function)
    | DeclarationMember(declName: string, declType: FullType)
    | OtherMember

  datatype Member = Member(visibility: Visibility, kind: MemberKind)

  /** A class declaration: rendered name, rendered base-class names in
      declaration order, and its immediate members in declaration order. */
  datatype Class = Class(name: string, bases: seq<string>, members: seq<Member>)

  /** A namespace-scope declaration: rendered name and type. */
  datatype Declaration = Declaration(name: string, ty: FullType)

  /** A comment token: the line `getPosition` computes for it, and the
      source buffer from the comment's first character to the end of the
      buffer (the visitor reads it as a C string from there). */
  datatype Comment = Comment(line: uint32, text: string)

  /** The symbols the traversal meets. `OtherSym` is any symbol whose visit
      the header visitor does not override (function definitions, blocks,
      arguments, using-declarations, ...); its members are its scope's
      members, if it has a scope. */
  datatype Symbol =
    | NamespaceSym(nsName: string, members: seq<Symbol>)
    | ClassSym(klass: Class)
    | TemplateSym(members: seq<Symbol>)
    | EnumSym(members: seq<Symbol>)
    | DeclarationSym(decl: Declaration)
    | OtherSym(members: seq<Symbol>)
}
