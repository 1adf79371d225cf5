/** Small concrete headers and the bindings the visitor derives from them. */
module Scenarios {
  import opened Wrappers
  import opened Ast
  import opened Ir
  import opened TypeResolver
  import opened DocScanner
  import opened FunctionExtractor
  import opened ClassWalker
  import opened HeaderVisitor

  const WidgetEntry := ClassEntry("Widget", None, [], [], false)
  const Registry := Bindings(map["Widget" := WidgetEntry], {"Align"})
  const Start := State(Registry, Module("UI", [], []), [])

  function Named(n: string, isConst: bool): FullType
  {
    FullType(NamedType(NameId(n)), isConst, false)
  }

  /** The C++ front end's `hasArguments()`: false for no arguments and for
      a lone `void` argument. */
  predicate FrontEndHasArguments(args: seq<ArgSymbol>)
  {
    !(|args| == 0 || (|args| == 1 && args[0].ArgumentSym? && args[0].arg.ty.ty.VoidType?))
  }

  function Method(name: string, ret: Option<FullType>, args: seq<ArgSymbol>, line: uint32): Function
  {
    Function(name, ret, args, FrontEndHasArguments(args), false, false, 0, "UIWidget.h", line, 5)
  }

  const VoidRet := Some(FullType(VoidType, false, false))

  /** An unregistered base leaves the base list empty and yields exactly one warning. */
  lemma MissingBaseWarnsOnce()
    ensures var r := VisitClass(Class("Widget", ["Bar"], []), Start, []).0;
      r.bindings.classes["Widget"].bases == [] && r.warnings == [MissingBase("Widget", "Bar")]
      && r.mod.classes == ["Widget"]
  {
  }

  /** `const String&` is a bindable parameter; `String&` drops the whole function. */
  lemma StringReferenceParameters()
    ensures ProcessFunction("Widget", Method("SetText", VoidRet,
      [ArgumentSym(Argument("text", FullType(ReferenceType(Named("String", true)), false, false), None))], 10), Registry, []).Some?
    ensures ProcessFunction("Widget", Method("SetText", VoidRet,
      [ArgumentSym(Argument("text", FullType(ReferenceType(Named("String", false)), false, false), None))], 10), Registry, []).None?
  {
  }

  /** `SharedPtr<Widget>` returns a Widget reference marked as a template;
      as a parameter it is looked up as a whole and fails. */
  lemma SharedPtrPositions()
    ensures var sp := FullType(NamedType(TemplateNameId("SharedPtr<Widget>", "SharedPtr", Named("Widget", false), [])), false, false);
      && ProcessFunctionType(sp, true, Registry) == Some(ParamType(ClassRef("Widget"), false, false, false, true, false, "", ""))
      && ProcessFunctionType(sp, false, Registry) == None
  {
  }

  /** A `///` comment on the line above gives the doc string without its
      marker and line end. */
  lemma DocCommentAbove()
    ensures DocString([Comment(9, DrawDoc)], 10) == " Draw"
  {
    DrawDocFound();
    DrawDocIsDocComment();
    DrawDocText();
  }

  const DrawDoc := "/// Draw\nf();"

  lemma DrawDocFound()
    ensures FirstCommentOn([Comment(9, DrawDoc)], 9) == Some(0)
  {
  }

  lemma DrawDocIsDocComment()
    ensures IsDocComment(DrawDoc)
  {
  }

  lemma DrawDocText()
    ensures DocChars(DrawDoc, 3) == " Draw"
  {
  }

  /** The same comment two lines above gives no doc string. */
  lemma DocCommentTwoLinesAbove()
    ensures DocString([Comment(8, "/// Draw\n\nf();")], 10) == ""
  {
    assert FirstCommentOn([Comment(8, "/// Draw\n\nf();")], 9) == None;
  }

  /** The scan stops at the first comment on the line, even when it is not a doc comment. */
  lemma FirstCommentWins()
    ensures DocString([Comment(9, "/* a */"), Comment(9, "/// b")], 10) == ""
  {
    assert "/* a */"[..3] != "///" by {
      assert "/* a */"[1] == '*';
    }
  }

  /** Variadic functions and operators are dropped whatever their signature. */
  lemma VariadicAndOperatorsDropped()
    ensures ProcessFunction("Widget", Method("Log", VoidRet, [], 3).(isVariadic := true), Registry, []).None?
    ensures ProcessFunction("Widget", Method("operator ==", VoidRet, [], 3), Registry, []).None?
  {
  }

  /** Constructors and destructors are kept and flagged. */
  lemma ConstructorAndDestructorFlags()
    ensures var r := ProcessFunction("Widget", Method("Widget", None, [], 3), Registry, []);
      r.Some? && r.value.isConstructor && !r.value.isDestructor
    ensures var r := ProcessFunction("Widget", Method("~Widget", None, [], 4), Registry, []);
      r.Some? && !r.value.isConstructor && r.value.isDestructor
  {
    assert !StartsWith("Widget", "~") by {
      assert "Widget"[..1] == "W";
    }
  }

  /** A backslash-led default value is quoted; others are kept verbatim. */
  lemma InitializerQuoting()
    ensures InitializerOf(Some("\\n")) == "\"\\n\""
    ensures InitializerOf(Some("0")) == "0"
  {
    assert !StartsWith("0", "\\") by {
      assert "0"[..1] == "0";
    }
  }

  /** `const int kMaxWidgets = 10;` is a constant; `Widget* gWidget;` is not. */
  lemma GlobalConstants()
    ensures VisitDeclaration(Declaration("kMaxWidgets", FullType(IntegerType(Int), true, false)), Start).0.mod.constants == ["kMaxWidgets"]
    ensures VisitDeclaration(Declaration("gWidget", FullType(PointerType(Named("Widget", false)), false, false)), Start).0 == Start
  {
  }

  /** `void Update(void);` is kept, with no parameters: the `(void)`
      argument is never resolved. */
  lemma VoidParameterListKept()
    ensures var r := ProcessFunction("Widget", Method("Update", VoidRet, [ArgumentSym(Argument("", FullType(VoidType, false, false), None))], 3), Registry, []);
      r.Some? && r.value.params == []
  {
  }

  /** A private pure virtual function makes the class abstract but is not bound. */
  lemma PrivatePureVirtual()
    ensures var f := Method("Paint", VoidRet, [], 7).(isPureVirtual := true);
      var e := VisitClass(Class("Widget", [], [Member(Private, FunctionMember(f))]), Start, []).0.bindings.classes["Widget"];
      e.isAbstract && e.functions == []
  {
  }

  /** A class inside a template declaration never reaches the module. */
  lemma TemplateClassSkipped()
    ensures Walk(NamespaceSym("Atomic", [TemplateSym([ClassSym(Class("Widget", [], []))])]), Start, []) == Start
  {
  }

  /** `void Setup() { int count; }` at namespace scope: the walk enters the
      function body, so the local `count` becomes a module constant. */
  lemma LocalDeclarationRegistered()
    ensures Walk(NamespaceSym("Atomic", [OtherSym([OtherSym([DeclarationSym(Declaration("count", FullType(IntegerType(Int), false, false)))])])]), Start, []).mod.constants == ["count"]
  {
  }
}
