/** `visit(Class*)`: fills in the registry entry of a class declared in the
    header: module, bases, abstract flag and public functions. */
module ClassWalker {
  import opened Wrappers
  import opened Ast
  import opened Ir
  import opened StateOrder
  import opened FunctionExtractor

  /** The function a member describes: a function symbol, or a declaration
      whose type is a function type. */
  function MemberFunction(m: Member): Option<Function>
  {
    match m.kind
    case FunctionMember(f) => Some(f)
    case DeclarationMember(_, t) => if t.ty.FunctionType? then Some(t.ty.fn) else None
    case OtherMember => None
  }

  predicate IsPureVirtualMember(m: Member)
  {
    MemberFunction(m).Some? && MemberFunction(m).value.isPureVirtual
  }

  /** The binding a member contributes: only public functions that
      processFunction accepts. */
  function Extracted(className: string, m: Member, b: Bindings, comments: seq<Comment>): Option<BindFunction>
  {
    if m.visibility == Public && MemberFunction(m).Some? then
      ProcessFunction(className, MemberFunction(m).value, b, comments)
    else
      None
  }

  /** The declared bases found in the registry, in declaration order and
      with their repetitions. */
  function RegisteredBases(bases: seq<string>, b: Bindings): seq<string>
  {
    if |bases| == 0 then []
    else (if bases[0] in b.classes then [bases[0]] else []) + RegisteredBases(bases[1..], b)
  }

  /** One warning per declared base missing from the registry, in declaration order. */
  function MissingBaseWarnings(className: string, bases: seq<string>, b: Bindings): seq<Warning>
  {
    if |bases| == 0 then []
    else (if bases[0] !in b.classes then [MissingBase(className, bases[0])] else []) + MissingBaseWarnings(className, bases[1..], b)
  }

  /** The registered bases are exactly the declared bases in the registry,
      and the warnings name exactly the others: one outcome per declared base. */
  lemma {:induction false} BaseOutcomes(className: string, bases: seq<string>, b: Bindings)
    ensures forall x :: x in RegisteredBases(bases, b) <==> x in bases && x in b.classes
    ensures forall w :: w in MissingBaseWarnings(className, bases, b) <==>
      w.className == className && w.baseName in bases && w.baseName !in b.classes
    ensures |RegisteredBases(bases, b)| + |MissingBaseWarnings(className, bases, b)| == |bases|
  {
    if |bases| > 0 {
      BaseOutcomes(className, bases[1..], b);
      assert bases == [bases[0]] + bases[1..];
    }
  }

  /** The base-class loop: registered bases are appended, each other base
      only adds a warning. */
  function LinkBases(className: string, bases: seq<string>, entry: ClassEntry, b: Bindings, warnings: seq<Warning>): (r: (ClassEntry, seq<Warning>))
    ensures r.0 == entry.(bases := r.0.bases)
    ensures r.0.bases == entry.bases + RegisteredBases(bases, b)
    ensures r.1 == warnings + MissingBaseWarnings(className, bases, b)
  {
    if |bases| == 0 then
      (entry, warnings)
    else if bases[0] in b.classes then
      var e := entry.(bases := entry.bases + [bases[0]]);
      var rest := LinkBases(className, bases[1..], e, b, warnings);
      assert e.bases + RegisteredBases(bases[1..], b) == entry.bases + RegisteredBases(bases, b);
      rest
    else
      var w := warnings + [MissingBase(className, bases[0])];
      var rest := LinkBases(className, bases[1..], entry, b, w);
      assert w + MissingBaseWarnings(className, bases[1..], b) == warnings + MissingBaseWarnings(className, bases, b);
      rest
  }

  /** The bases are processed left to right: linking `xs + ys` is linking
      `xs`, then `ys`. */
  lemma {:induction false} LinkBasesConcat(className: string, xs: seq<string>, ys: seq<string>, entry: ClassEntry, b: Bindings, warnings: seq<Warning>)
    ensures LinkBases(className, xs + ys, entry, b, warnings)
      == var m := LinkBases(className, xs, entry, b, warnings); LinkBases(className, ys, m.0, b, m.1)
  {
    if |xs| > 0 {
      assert (xs + ys)[1..] == xs[1..] + ys;
      if xs[0] in b.classes {
        LinkBasesConcat(className, xs[1..], ys, entry.(bases := entry.bases + [xs[0]]), b, warnings);
      } else {
        LinkBasesConcat(className, xs[1..], ys, entry, b, warnings + [MissingBase(className, xs[0])]);
      }
    } else {
      assert xs + ys == ys;
    }
  }

  /** The accepted bindings of the members, in member order. */
  function AcceptedBindings(className: string, members: seq<Member>, b: Bindings, comments: seq<Comment>): seq<BindFunction>
  {
    FilterMap((m: Member) => Extracted(className, m, b, comments), members)
  }

  /** One iteration of the member loop. */
  function WalkMember(m: Member, entry: ClassEntry, b: Bindings, comments: seq<Comment>): (r: ClassEntry)
    ensures r == entry.(functions := r.functions, isAbstract := r.isAbstract)
    ensures r.isAbstract <==> entry.isAbstract || IsPureVirtualMember(m)
    ensures Extracted(entry.name, m, b, comments).None? ==> r.functions == entry.functions
    ensures Extracted(entry.name, m, b, comments).Some? ==>
      r.functions == entry.functions + [Extracted(entry.name, m, b, comments).value]
  {
    var e := if IsPureVirtualMember(m) then entry.(isAbstract := true) else entry;
    match Extracted(entry.name, m, b, comments)
    case None => e
    case Some(jf) => e.(functions := e.functions + [jf])
  }

  /** The member loop: any pure virtual function (of any visibility) makes
      the class abstract; the accepted public functions are appended. */
  function WalkMembers(members: seq<Member>, entry: ClassEntry, b: Bindings, comments: seq<Comment>): (r: ClassEntry)
    ensures r == entry.(functions := r.functions, isAbstract := r.isAbstract)
    ensures entry.functions <= r.functions && |r.functions| <= |entry.functions| + |members|
    ensures entry.isAbstract ==> r.isAbstract
  {
    if |members| == 0 then
      entry
    else
      WalkMembers(members[1..], WalkMember(members[0], entry, b, comments), b, comments)
  }

  /** The class ends up abstract iff it was, or some member function is
      pure virtual, whatever its visibility. */
  lemma {:induction false} WalkMembersAbstract(members: seq<Member>, entry: ClassEntry, b: Bindings, comments: seq<Comment>)
    ensures WalkMembers(members, entry, b, comments).isAbstract
      <==> entry.isAbstract || exists i :: 0 <= i < |members| && IsPureVirtualMember(members[i])
  {
    if |members| > 0 {
      var e := WalkMember(members[0], entry, b, comments);
      WalkMembersAbstract(members[1..], e, b, comments);
      assert forall i :: 1 <= i < |members| ==> members[i] == members[1..][i - 1];
      if exists i :: 1 <= i < |members| && IsPureVirtualMember(members[i]) {
        var i :| 1 <= i < |members| && IsPureVirtualMember(members[i]);
        assert IsPureVirtualMember(members[1..][i - 1]);
      }
    }
  }

  /** Every appended function is the binding of some member. */
  lemma WalkMembersSound(members: seq<Member>, entry: ClassEntry, b: Bindings, comments: seq<Comment>, k: nat)
    requires |entry.functions| <= k < |WalkMembers(members, entry, b, comments).functions|
    ensures exists i :: (0 <= i < |members| &&
      Extracted(entry.name, members[i], b, comments) == Some(WalkMembers(members, entry, b, comments).functions[k]))
  {
    WalkMembersInOrder(members, entry, b, comments);
    FilterMapSound((m: Member) => Extracted(entry.name, m, b, comments), members, k - |entry.functions|);
  }

  /** Every member's binding is appended. */
  lemma WalkMembersComplete(members: seq<Member>, entry: ClassEntry, b: Bindings, comments: seq<Comment>, i: nat)
    requires i < |members| && Extracted(entry.name, members[i], b, comments).Some?
    ensures Extracted(entry.name, members[i], b, comments).value
      in WalkMembers(members, entry, b, comments).functions[|entry.functions|..]
  {
    WalkMembersInOrder(members, entry, b, comments);
    assert WalkMembers(members, entry, b, comments).functions[|entry.functions|..] == AcceptedBindings(entry.name, members, b, comments);
    FilterMapComplete((m: Member) => Extracted(entry.name, m, b, comments), members, i);
  }

  /** One member step appends that member's accepted binding. */
  lemma WalkMemberAppends(m: Member, entry: ClassEntry, b: Bindings, comments: seq<Comment>)
    ensures WalkMember(m, entry, b, comments).functions == entry.functions + OptionToSeq(Extracted(entry.name, m, b, comments))
  {
    if Extracted(entry.name, m, b, comments).None? {
      assert entry.functions + [] == entry.functions;
    }
  }

  /** The member loop appends exactly the accepted bindings, in member order. */
  lemma {:induction false} WalkMembersInOrder(members: seq<Member>, entry: ClassEntry, b: Bindings, comments: seq<Comment>)
    ensures WalkMembers(members, entry, b, comments).functions == entry.functions + AcceptedBindings(entry.name, members, b, comments)
  {
    if |members| == 0 {
      assert entry.functions + [] == entry.functions;
    } else {
      var e := WalkMember(members[0], entry, b, comments);
      var head := OptionToSeq(Extracted(entry.name, members[0], b, comments));
      var rest := AcceptedBindings(entry.name, members[1..], b, comments);
      WalkMembersInOrder(members[1..], e, b, comments);
      WalkMemberAppends(members[0], entry, b, comments);
      AppendAssoc(entry.functions, head, rest);
    }
  }

  /** Members are processed in order: walking `xs + ys` is walking `xs`, then `ys`. */
  lemma {:induction false} WalkMembersConcat(xs: seq<Member>, ys: seq<Member>, entry: ClassEntry, b: Bindings, comments: seq<Comment>)
    ensures WalkMembers(xs + ys, entry, b, comments) == WalkMembers(ys, WalkMembers(xs, entry, b, comments), b, comments)
  {
    if |xs| > 0 {
      assert (xs + ys)[1..] == xs[1..] + ys;
      WalkMembersConcat(xs[1..], ys, WalkMember(xs[0], entry, b, comments), b, comments);
    } else {
      assert xs + ys == ys;
    }
  }

  /** visit(Class*). An unregistered class changes nothing. A registered
      one is appended to the module and its entry records the module; no
      other registry entry changes. Never descends. */
  function VisitClass(c: Class, st: State, comments: seq<Comment>): (r: (State, bool))
    ensures !r.1
    ensures Extends(st, r.0)
    ensures c.name !in st.bindings.classes ==> r.0 == st
    ensures c.name in st.bindings.classes ==>
      && r.0.mod == st.mod.(classes := st.mod.classes + [c.name])
      && (forall n :: n in st.bindings.classes && n != c.name ==> r.0.bindings.classes[n] == st.bindings.classes[n])
      && r.0.bindings.classes[c.name].moduleName == Some(st.mod.name)
    ensures ModuleRegistered(st) ==> ModuleRegistered(r.0)
    ensures forall w :: w in r.0.warnings[|st.warnings|..] ==> w.baseName !in st.bindings.classes
  {
    if c.name !in st.bindings.classes then
      (st, false)
    else
      var entry := st.bindings.classes[c.name].(moduleName := Some(st.mod.name));
      var mod' := st.mod.(classes := st.mod.classes + [c.name]);
      var linked := LinkBases(c.name, c.bases, entry, st.bindings, st.warnings);
      BaseOutcomes(c.name, c.bases, st.bindings);
      assert linked.1[|st.warnings|..] == MissingBaseWarnings(c.name, c.bases, st.bindings);
      var walked := WalkMembers(c.members, linked.0, st.bindings, comments);
      var bindings' := st.bindings.(classes := st.bindings.classes[c.name := walked]);
      (State(bindings', mod', linked.1), false)
  }

  /** What a registered class's entry gains: exactly its registered bases
      in declaration order (each other base adds one warning and nothing
      else warns), the abstract flag iff some member function is pure
      virtual, and exactly the bindings of its public functions that
      processFunction accepts, in member order. */
  lemma VisitClassPopulates(c: Class, st: State, comments: seq<Comment>)
    requires c.name in st.bindings.classes
    ensures var r := VisitClass(c, st, comments).0;
      var e := st.bindings.classes[c.name];
      var e' := r.bindings.classes[c.name];
      && e'.bases == e.bases + RegisteredBases(c.bases, st.bindings)
      && r.warnings == st.warnings + MissingBaseWarnings(c.name, c.bases, st.bindings)
      && e'.functions == e.functions + AcceptedBindings(e.name, c.members, st.bindings, comments)
      && (forall x :: x in e'.bases[|e.bases|..] <==> x in c.bases && x in st.bindings.classes)
      && (forall w :: w in r.warnings[|st.warnings|..] <==> w == MissingBase(c.name, w.baseName) && w.baseName in c.bases && w.baseName !in st.bindings.classes)
      && |e'.bases| - |e.bases| + |r.warnings| - |st.warnings| == |c.bases|
      && (e'.isAbstract <==> e.isAbstract || exists i :: 0 <= i < |c.members| && IsPureVirtualMember(c.members[i]))
      && (forall i :: 0 <= i < |c.members| && Extracted(e.name, c.members[i], st.bindings, comments).Some? ==>
            Extracted(e.name, c.members[i], st.bindings, comments).value in e'.functions[|e.functions|..])
      && (forall jf :: jf in e'.functions[|e.functions|..] ==>
            exists i :: 0 <= i < |c.members| && Extracted(e.name, c.members[i], st.bindings, comments) == Some(jf))
  {
    var entry := st.bindings.classes[c.name].(moduleName := Some(st.mod.name));
    var linked := LinkBases(c.name, c.bases, entry, st.bindings, st.warnings);
    var walked := WalkMembers(c.members, linked.0, st.bindings, comments);
    assert VisitClass(c, st, comments).0.bindings.classes[c.name] == walked;
    WalkMembersAbstract(c.members, linked.0, st.bindings, comments);
    WalkMembersInOrder(c.members, linked.0, st.bindings, comments);
    BaseOutcomes(c.name, c.bases, st.bindings);
    assert walked.bases[|entry.bases|..] == RegisteredBases(c.bases, st.bindings);
    assert linked.1[|st.warnings|..] == MissingBaseWarnings(c.name, c.bases, st.bindings);
    forall k | |linked.0.functions| <= k < |walked.functions|
      ensures exists i :: 0 <= i < |c.members| && Extracted(linked.0.name, c.members[i], st.bindings, comments) == Some(walked.functions[k])
    {
      WalkMembersSound(c.members, linked.0, st.bindings, comments, k);
    }
    forall i | 0 <= i < |c.members| && Extracted(linked.0.name, c.members[i], st.bindings, comments).Some? {
      WalkMembersComplete(c.members, linked.0, st.bindings, comments, i);
    }
  }
}
