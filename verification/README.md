# Header visitor of the JavaScript binding generator — Dafny model

This project models `JSBHeaderVisitor`, the part of AtomicGameEngine's
JavaScript binding generator (JSBind) that walks the parsed declarations of
one C++ header and decides what the JavaScript runtime may see. For each
header it:

- resolves C++ types to binding types: integer and float primitives,
  `String`, `StringHash`, `JS_HEAP_PTR`, and registered classes and enums;
- extracts member-function signatures. It strips one pointer layer and one
  reference layer, unwraps `SharedPtr<T>` in return position, and refuses
  unsupported shapes;
- attaches the `///` comment on the line above a function as its doc string;
- augments the registry entry of every registered class declared in the
  header: module, bases, abstract flag and public functions;
- registers global integer and float declarations as module constants.

The parser's polymorphic type and symbol classes become closed datatypes
(`Ast`). The JSBind objects become immutable records (`Ir`): the bindings
registry is a map from class name to entry plus a set of enum names, and the
module is a list of class names plus a list of constant names. Each `visit`
is a pure function. It takes the state (registry, module, warnings) and
returns the new state together with the descend signal. `Walk` is the
depth-first traversal that drives the visits from the global namespace.

Modules, one per component: `Wrappers` (Option, `StartsWith`, an order-keeping filter), `Ast`, `Ir`
and `StateOrder` (how a visit may change the state), `TypeResolver`,
`DocScanner`, `FunctionExtractor`, `ClassWalker`, `HeaderVisitor`, and
`Scenarios` (small concrete headers).

Behaviour modelled as the code has it:

- `isConst` is read only when a reference layer is removed, and it is never
  stored in the result. So a `String*` or `StringHash*` parameter is always
  refused, even `const String*`, although a const pointee would pass the
  intended const test.
- `isSharedPtr` is always false.
- A bare `unsigned` becomes an unsigned `Int` only when the OUTER type
  carries the unsigned flag and the unwrapped type is undefined. An
  `unsigned int` is an integer type, so it becomes a signed `Int` primitive
  (given that a primitive type built from its kind alone is signed).
- `Walk` descends into every symbol without a visit overload, and a
  function defined at namespace scope is such a symbol. So an integer or
  float local declared in the body of such a function is registered as a
  module constant, just like a global one.
- The abstract flag is set by a pure virtual member function of ANY
  visibility, because the flag is set before the visibility test.
- Operators are recognised only by the rendered name prefix `"operator "`,
  with the space.
- The doc scan takes the first comment token on line `line - 1`, whatever
  kind of comment it is. Line numbers are C `unsigned`, so for a function on
  line 0 the scan looks at line 4294967295.
- The length test reads the comment as a C string running to the end of
  the source buffer, so it is a test on the buffer from the comment's first
  character onwards.

## Model

| member | source | states |
|---|---|---|
| TypeResolver.ConvertType | Source/AtomicJS/JSBind/JSBHeaderVisitor.h:51-104 | The result exists iff the type is an integer, a float, or a named type whose rendered name is `String`, `StringHash`, `JS_HEAP_PTR`, a registry class or a registry enum. Integers keep their kind, every float is `Float`, and neither is unsigned. Class and enum references carry the looked-up name. Class lookup comes before enum lookup and after the three builtin names. |
| TypeResolver.ConvertTypeByName | Source/AtomicJS/JSBind/JSBHeaderVisitor.h:64-94 | A named type resolves by its rendered name alone: a template-id gives exactly what a plain name with the same rendering gives, so the builtin, class and enum order holds for every named type. |
| TypeResolver.RegisteredTemplateIdIsClass | Source/AtomicJS/JSBind/JSBHeaderVisitor.h:64-89 | A template-id such as `Vector<int>` whose rendered name is a registered, non-builtin class resolves to a reference to that class. |
| TypeResolver.ConvertTypeComplete | Source/AtomicJS/JSBind/JSBHeaderVisitor.h:51-104 | Every signed binding type that the resolver can produce (`Resolvable`) is produced from some type node. With ConvertType's contract, the resolver's range is exactly these types. |
| TypeResolver.ProcessFunctionType | Source/AtomicJS/JSBind/JSBHeaderVisitor.h:106-190 | The binding type produced is the resolver's answer for the type left after removing one pointer layer, one reference layer and, in return position without a pointer, a `SharedPtr<...>` wrapper. The one exception is a bare `unsigned` (outer type unsigned, unwrapped type undefined), which becomes an unsigned `Int`. There is no result iff that type has no binding, or a pointer or reference layer was removed and the binding is a primitive, or (parameter position, not a const reference) a `String`/`StringHash`. `isPointer` is set iff the outer type is a pointer. `isReference` is set iff the type under it is a reference. `isTemplate` is set iff in return position, with no pointer, the unwrapped type is `SharedPtr<...>`. `isSharedPtr` and `isConst` stay false. No pointer or reference to a primitive is ever produced. A parameter-position String/StringHash behind a pointer or reference came through a const reference. |
| TypeResolver.UnsignedIntIsSigned | Source/AtomicJS/JSBind/JSBHeaderVisitor.h:150-161 | An `unsigned int`, const or not, in either position, gives a signed `Int` primitive with no pointer, reference or template flag. |
| TypeResolver.ClassPointerOrReferenceAccepted | Source/AtomicJS/JSBind/JSBHeaderVisitor.h:118-188 | A pointer or a reference to a registered class, const or not, is accepted in either position as a reference to that class, with `isPointer` or `isReference` set accordingly. |
| TypeResolver.ProcessFunctionTypeComplete | Source/AtomicJS/JSBind/JSBHeaderVisitor.h:106-190 | Every bindable description (flags, type, position) is the result for the declared type built from it. Together with the soundness ensures above, the extractor's results are exactly the bindable descriptions. |
| TypeResolver.PointerToPrimitiveRejected | Source/AtomicJS/JSBind/JSBHeaderVisitor.h:168-180 | A pointer or reference to an integer, float or bare-`unsigned` type gives no result, in either position. |
| TypeResolver.StringPointerParamRejected | Source/AtomicJS/JSBind/JSBHeaderVisitor.h:118-180 | A parameter that is a pointer to `String` or `StringHash` is refused, whatever the pointee's const-ness. |
| TypeResolver.StringReferenceParam | Source/AtomicJS/JSBind/JSBHeaderVisitor.h:124-180 | A parameter that is a reference to `String`/`StringHash` is accepted iff the referenced type is const. |
| TypeResolver.StringReferenceReturn | Source/AtomicJS/JSBind/JSBHeaderVisitor.h:166-180 | In return position a non-const `String&` is accepted, as a String reference. |
| TypeResolver.SharedPtrReturnUnwrapped | Source/AtomicJS/JSBind/JSBHeaderVisitor.h:131-148 | A return type `SharedPtr<T>` resolves exactly as `T` does, with `isTemplate` set. |
| TypeResolver.SharedPtrParamNotUnwrapped | Source/AtomicJS/JSBind/JSBHeaderVisitor.h:131-161 | In parameter position `SharedPtr<T>` is resolved by its whole rendered name, with no unwrapping. |
| TypeResolver.BareUnsigned | Source/AtomicJS/JSBind/JSBHeaderVisitor.h:150-172 | A bare `unsigned` is an unsigned `Int` in either position. A pointer whose pointee is a bare `unsigned` is refused: the outer flag is unset, and a pointer to a primitive is refused anyway. |
| TypeResolver.ProcessFunctionArgType | Source/AtomicJS/JSBind/JSBHeaderVisitor.h:192-204 | An argument resolves iff its type resolves in parameter position, and the result is that type named after the argument. |
| TypeResolver.ProcessFunctionReturnType | Source/AtomicJS/JSBind/JSBHeaderVisitor.h:207-221 | There is no result without a return type. Otherwise the result is the return type resolved in return position, and it is bindable there. |
| FunctionExtractor.QuoteInitializer | Source/AtomicJS/JSBind/JSBHeaderVisitor.h:264-269 | A default value starting with a backslash comes back wrapped in double quotes, with the original between them. Any other value comes back verbatim. |
| FunctionExtractor.ProcessParam | Source/AtomicJS/JSBind/JSBHeaderVisitor.h:255-276 | An argument slot gives a parameter iff it holds an `Argument` whose type resolves in parameter position. The parameter carries that type, the argument's name and its (quoted) initializer. |
| FunctionExtractor.ProcessParams | Source/AtomicJS/JSBind/JSBHeaderVisitor.h:251-279 | The parameters exist iff every argument slot gives one. There is then exactly one parameter per argument, in declaration order. |
| FunctionExtractor.ProcessFunction | Source/AtomicJS/JSBind/JSBHeaderVisitor.h:223-316 | The function is refused iff it is variadic, or its name starts with `"operator "`, or a non-void return type fails, or the front end reports arguments and some argument fails. Otherwise it keeps the owner, name and location. Its parameters are one per argument, in order, when the front end reports arguments, and none otherwise (an empty or `(void)` list). It has a return type iff it has a non-void one. It is a constructor iff named after the class and a destructor iff the name starts with `~`; neither flag refuses it. Its doc string comes from the scan. |
| FunctionExtractor.ExtractedFunctionBindable | Source/AtomicJS/JSBind/JSBHeaderVisitor.h:243-279 | Every parameter of an extracted function is bindable in parameter position, and its return type is bindable in return position. |
| DocScanner.PrecedingLine | Source/AtomicJS/JSBind/JSBHeaderVisitor.h:294 | The line scanned is the function's line minus one in 32-bit unsigned arithmetic: adding one back modulo 2^32 gives the function's line. |
| DocScanner.FirstCommentOn | Source/AtomicJS/JSBind/JSBHeaderVisitor.h:288-299 | The scan returns the index of the first comment token on the line, or reports that no token lies on it. |
| DocScanner.CStrLen | Source/AtomicJS/JSBind/JSBHeaderVisitor.h:301 | `strlen`: the length up to, not including, the first NUL (or the end of the buffer). |
| DocScanner.DocChars | Source/AtomicJS/JSBind/JSBHeaderVisitor.h:305-307 | The copy loop returns the slice of the text from the start offset up to the first NUL, `\n`, `\r` or end, and none of its characters is such a terminator. |
| DocScanner.DocTextUnique | Source/AtomicJS/JSBind/JSBHeaderVisitor.h:305-307 | The doc-text description used in DocString's contract determines the string uniquely. |
| DocScanner.DocString | Source/AtomicJS/JSBind/JSBHeaderVisitor.h:287-311 | The doc string is empty when no comment lies on the preceding line, and empty when the first one there is not a `///` comment longer than three characters. Otherwise it is that comment's text from offset 3 up to the first line end. |
| ClassWalker.BaseOutcomes | Source/AtomicJS/JSBind/JSBHeaderVisitor.h:378-393 | Each declared base has exactly one outcome. The registered-base list holds exactly the declared bases found in the registry. The warning list names exactly the others, for this class. Their lengths add up to the number of declared bases. |
| ClassWalker.LinkBases | Source/AtomicJS/JSBind/JSBHeaderVisitor.h:378-393 | Only the entry's base list changes. It is extended at the end by exactly the registered declared bases, in declaration order and with repetitions. The warnings are extended by one `MissingBase` per unregistered declared base, in declaration order. |
| ClassWalker.LinkBasesConcat | Source/AtomicJS/JSBind/JSBHeaderVisitor.h:378-393 | Bases are handled left to right: linking `xs + ys` is linking `xs`, then `ys`. |
| ClassWalker.WalkMember | Source/AtomicJS/JSBind/JSBHeaderVisitor.h:395-421 | One member sets the abstract flag iff it is a pure virtual function. It appends its binding when it is a public function that processFunction accepts. The entry is otherwise unchanged. |
| ClassWalker.WalkMembers | Source/AtomicJS/JSBind/JSBHeaderVisitor.h:395-422 | The member loop changes only the functions (extended at the end, by at most one per member) and the abstract flag, which it never clears. |
| ClassWalker.WalkMemberAppends | Source/AtomicJS/JSBind/JSBHeaderVisitor.h:413-420 | One member appends exactly its accepted binding, or nothing. |
| ClassWalker.WalkMembersInOrder | Source/AtomicJS/JSBind/JSBHeaderVisitor.h:395-422 | The member loop appends exactly the accepted bindings of the public function members, in member order and with nothing else. |
| ClassWalker.WalkMembersAbstract | Source/AtomicJS/JSBind/JSBHeaderVisitor.h:408-411 | After the loop the class is abstract iff it was already, or some member function of any visibility is pure virtual. |
| ClassWalker.WalkMembersSound | Source/AtomicJS/JSBind/JSBHeaderVisitor.h:413-420 | Every appended function is the accepted binding of some public function member. |
| ClassWalker.WalkMembersComplete | Source/AtomicJS/JSBind/JSBHeaderVisitor.h:413-420 | The accepted binding of every public function member is appended. |
| ClassWalker.WalkMembersConcat | Source/AtomicJS/JSBind/JSBHeaderVisitor.h:395-422 | Members are handled in order: walking `xs + ys` is walking `xs`, then `ys`. |
| ClassWalker.VisitClass | Source/AtomicJS/JSBind/JSBHeaderVisitor.h:361-425 | It never descends. An unregistered class leaves the state unchanged. A registered class is appended to the module, its entry records the module, and no other entry changes. The state is only augmented, and every module class stays a registry class. Every new warning names an unregistered base. |
| ClassWalker.VisitClassPopulates | Source/AtomicJS/JSBind/JSBHeaderVisitor.h:378-422 | A registered class's base list is extended by exactly its registered bases, in declaration order. The warnings are extended by exactly one per other base, in declaration order. Its functions are extended by exactly the accepted bindings of its public function members, in member order. It is abstract iff it was or some member function is pure virtual. |
| HeaderVisitor.VisitNamespace | Source/AtomicJS/JSBind/JSBHeaderVisitor.h:318-326 | A namespace changes nothing and is descended into. |
| HeaderVisitor.VisitTemplate | Source/AtomicJS/JSBind/JSBHeaderVisitor.h:328-332 | A template changes nothing and is not descended into. |
| HeaderVisitor.VisitEnum | Source/AtomicJS/JSBind/JSBHeaderVisitor.h:334-338 | An enum changes nothing and is not descended into. |
| HeaderVisitor.ConstantTypeIsScalar | Source/AtomicJS/JSBind/JSBHeaderVisitor.h:346-353 | The declaration test (not a pointer, not a reference, not an enum, and a float or integer) holds iff the type is an integer or float type. |
| HeaderVisitor.VisitDeclaration | Source/AtomicJS/JSBind/JSBHeaderVisitor.h:340-359 | A global declaration of integer or float type appends its name to the module's constants. Any other declaration changes nothing. The traversal always descends. |
| HeaderVisitor.Visit | Source/AtomicJS/JSBind/JSBHeaderVisitor.h:318-425 | The overload dispatch descends iff the symbol is a namespace, a declaration or a symbol without an overload. Every visit only augments the state and keeps module classes registered, and every new warning names an unregistered base. |
| HeaderVisitor.Walk | Source/AtomicJS/JSBind/JSBHeaderVisitor.h:41 | The traversal from one symbol keeps registry names and enums. It only extends entries, module lists and warnings. It keeps every module class registered, and every new warning names an unregistered base. |
| HeaderVisitor.WalkAll | Source/AtomicJS/JSBind/JSBHeaderVisitor.h:41 | The same invariants hold for a scope's member list walked in order. |
| HeaderVisitor.WalkAllConcat | Source/AtomicJS/JSBind/JSBHeaderVisitor.h:41 | Symbols are walked in declaration order: walking `xs + ys` is walking `xs`, then `ys`. |
| HeaderVisitor.WalkSkipsTemplatesAndEnums | Source/AtomicJS/JSBind/JSBHeaderVisitor.h:328-338 | Walking a template or enum declaration leaves the whole state unchanged, so no class or constant under it is recorded. |
| Scenarios.MissingBaseWarnsOnce | Source/AtomicJS/JSBind/JSBHeaderVisitor.h:378-393 | A registered class with one unregistered base gets an empty base list and exactly one warning, and is still added to the module. |
| Scenarios.StringReferenceParameters | Source/AtomicJS/JSBind/JSBHeaderVisitor.h:166-180 | A `const String&` parameter is accepted. A `String&` parameter drops the whole function. |
| Scenarios.SharedPtrPositions | Source/AtomicJS/JSBind/JSBHeaderVisitor.h:131-148 | Returning `SharedPtr<Widget>` gives a `Widget` class reference marked as a template. The same type as a parameter is refused. |
| Scenarios.DocCommentAbove | Source/AtomicJS/JSBind/JSBHeaderVisitor.h:287-311 | `/// Draw` on the line above gives the doc string `" Draw"`. |
| Scenarios.DocCommentTwoLinesAbove | Source/AtomicJS/JSBind/JSBHeaderVisitor.h:294 | The same comment two lines above gives no doc string. |
| Scenarios.FirstCommentWins | Source/AtomicJS/JSBind/JSBHeaderVisitor.h:294-298 | A non-doc comment first on the line hides a later `///` comment on the same line. |
| Scenarios.VariadicAndOperatorsDropped | Source/AtomicJS/JSBind/JSBHeaderVisitor.h:227-235 | A variadic function and an `operator ==` are refused. |
| Scenarios.ConstructorAndDestructorFlags | Source/AtomicJS/JSBind/JSBHeaderVisitor.h:237-241 | A function named after its class is kept as a constructor, and a `~` name is kept as a destructor. |
| Scenarios.InitializerQuoting | Source/AtomicJS/JSBind/JSBHeaderVisitor.h:264-269 | `\n` as a default value is recorded as `"\n"`, and `0` is recorded as `0`. |
| Scenarios.GlobalConstants | Source/AtomicJS/JSBind/JSBHeaderVisitor.h:340-359 | `const int kMaxWidgets` is registered as a constant. `Widget* gWidget` changes nothing. |
| Scenarios.LocalDeclarationRegistered | Source/AtomicJS/JSBind/JSBHeaderVisitor.h:340-359 | An `int` declared inside the body of a function defined at namespace scope is registered as a module constant. |
| Scenarios.VoidParameterListKept | Source/AtomicJS/JSBind/JSBHeaderVisitor.h:251-279 | `void Update(void)` is kept with no parameters: its lone `void` argument is never resolved. |
| Scenarios.PrivatePureVirtual | Source/AtomicJS/JSBind/JSBHeaderVisitor.h:408-416 | A private pure virtual function makes the class abstract but is not bound. |
| Scenarios.TemplateClassSkipped | Source/AtomicJS/JSBind/JSBHeaderVisitor.h:328-332 | A class declared inside a template never reaches the module or the registry. |

## Left out

- Source/AtomicJS/Javascript/JSUI.cpp: runtime glue for the Duktape stack, event subscriptions, GC keep-alive and a float update timer. It has no pure logic to state.
- Source/ToolCore/Build/BuildSystem.h and Source/Atomic/UI/UITextField.h: declarations only.
- Name rendering (`JSBNameVisitor`) is not part of this model. Every name arrives already rendered as a string. A named type's name keeps only the structure the visitor inspects: template-id or not, its identifier and its template arguments.
- A template-id with an empty argument list cannot be represented. The first template argument is a field of its own, because `templateArgumentAt(0)` on an empty list is undefined in the source.
- The traversal base class (`SymbolVisitor::accept` in the C++ front end) is not part of this model. `Walk` assumes its documented shape: visit a symbol, then descend into its scope's members in order iff the visit returned true. Non-overridden visits return true.
- The front end's queries (`getPosition`, `hasReturnType`, `hasArguments`, `argumentCount`, `argumentAt`, `isPureVirtual`, `isVariadic`, visibility) are inputs. The argument scope is the sequence of `argumentAt(i)` for `i < argumentCount()`, and `hasArguments()` is a separate flag (the C++ front end's own definition, false for an empty or `(void)` list, is not part of this model). Comment tokens arrive with their line and the source buffer from their first character on, modelled one `char` per byte (every character the scan tests is ASCII).
- The bodies of `JSBModule::AddClass`, `JSBModule::RegisterConstant`, `JSBClass::AddBaseClass`, `JSBClass::AddFunction`, `JSBFunction::AddParameter` and `JSBClass::setAbstract` are not part of this model. They are modelled as plain appends and a flag write, with no deduplication.
- `JSBPrimitiveType`'s constructor is not part of this model. A primitive built from its kind alone is assumed to be signed, which is what makes `unsigned int` a signed `Int`.
- `JSBFunctionType`'s constructor is not part of this model. Its `isConst` field is assumed to start false, since the visitor never writes it.
- `SetHeader` is not recorded; only `SetModule` is kept, as the entry's module name.
- The `LOGINFOF` warning is an appended `MissingBase` value, not output.
- Heap allocation, and the objects leaked on early returns, are not modelled.
- The commented-out `ErrorExit` on undefined types is inactive code, so undefined types simply give no result.
- Determinism is not stated as a lemma: every operation is a pure function, so running the extractor twice on the same input gives the same result by construction.
