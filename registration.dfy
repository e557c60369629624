/** Registration of the declared methods and the build of all of them, as in
    Generator.registerMethod and Generator.createMethods. */
module Registration {
  import opened Types
  import opened Builder
  import opened Dispatcher
  import DispatcherFacts

  /** The type of a declared interface method: a signature with its
      parameter and result types, or something else. */
  datatype DeclType = SignatureType(params: seq<TypeId>, results: seq<TypeId>) | OtherType

  /** A method of the converter interface: full name, name and type. */
  datatype Declared = Declared(fullName: string, name: string, typ: DeclType)

  /** What the method's comment asks for; an empty delegate means none. */
  datatype Directives = Directives(mapping: map<string, string>, ignored: set<string>, delegate: string)

  /** What a name resolves to in the package scope. */
  datatype ScopeObject = FuncObject(ref: FuncRef) | OtherObject

  datatype RegisterError =
    | NotASignature
    | WrongParamCount
    | WrongResultCount
    | DelegateMissing(delegate: string)
    | DelegateNotFunction(delegate: string)

  predicate DelegateResolves(dirs: Directives, scope: map<string, ScopeObject>)
  {
    dirs.delegate != "" ==> dirs.delegate in scope && scope[dirs.delegate].FuncObject?
  }

  /** The validation part of registerMethod: the Method it would store. */
  function Requested(decl: Declared, dirs: Directives, scope: map<string, ScopeObject>): (r: Result<Method, RegisterError>)
    ensures r.Ok? <==>
      decl.typ.SignatureType? && |decl.typ.params| == 1 && |decl.typ.results| == 1
      && DelegateResolves(dirs, scope)
    ensures r.Ok? ==>
      var m := r.value;
      m.id == decl.fullName && m.name == decl.name
      && m.source == decl.typ.params[0] && m.target == decl.typ.results[0]
      && m.mapping == dirs.mapping && m.ignored == dirs.ignored
      && (dirs.delegate == "" ==> m.delegate.None?)
      && (dirs.delegate != "" ==> m.delegate == Some(scope[dirs.delegate].ref))
    ensures decl.typ.SignatureType? && |decl.typ.params| == 1 && |decl.typ.results| == 1 && dirs.delegate != "" ==>
      (dirs.delegate !in scope ==> r == Err(DelegateMissing(dirs.delegate)))
      && (dirs.delegate in scope && scope[dirs.delegate].OtherObject? ==> r == Err(DelegateNotFunction(dirs.delegate)))
  {
    match decl.typ
    case OtherType => Err(NotASignature)
    case SignatureType(params, results) =>
      if |params| != 1 then Err(WrongParamCount)
      else if |results| != 1 then Err(WrongResultCount)
      else
        var m := Method(decl.fullName, decl.name, params[0], results[0], dirs.mapping, dirs.ignored, None);
        if dirs.delegate == "" then Ok(m)
        else if dirs.delegate !in scope then Err(DelegateMissing(dirs.delegate))
        else match scope[dirs.delegate]
          case FuncObject(ref) => Ok(m.(delegate := Some(ref)))
          case OtherObject => Err(DelegateNotFunction(dirs.delegate))
  }

  /** The frame createMethods lifts a method's failure with. */
  function RootFrame(u: Universe, m: Method): Frame
    requires MethodOk(u, m)
  {
    Frame("source", "target", u[m.source].ident, u[m.target].ident)
  }

  /** The failure createMethods reports: the position of the method in the
      build order, its ID, and the lifted error. */
  datatype MethodError = MethodError(index: nat, methodId: string, err: Error)

  datatype CreateOut = CreateOut(reg: Reg, failure: Option<MethodError>)

  ghost predicate MethodsOk(u: Universe, order: seq<Method>)
  {
    forall i :: 0 <= i < |order| ==> MethodOk(u, order[i])
  }

  /** The build loop of createMethods from position from on: add each
      method in turn, and stop at the first that fails. */
  function CreateFrom(env: Env, reg: Reg, order: seq<Method>, from: nat): (o: CreateOut)
    requires WellFormed(env.u) && RegOk(env.u, reg) && MethodsOk(env.u, order) && from <= |order|
    ensures Step(env.u, reg, o.reg)
    ensures o.failure.Some? ==>
      var f := o.failure.value;
      from <= f.index < |order| && f.methodId == order[f.index].id
      && f.err.path != [] && f.err.path[0] == RootFrame(env.u, order[f.index])
    ensures from < |order| && AddMethod(env, reg, order[from]).err.Some? ==>
      var added := AddMethod(env, reg, order[from]);
      o == CreateOut(added.reg, Some(MethodError(from, order[from].id,
                                                Lift(added.err.value, RootFrame(env.u, order[from])))))
    decreases |order| - from
  {
    if from == |order| then
      StepRefl(env.u, reg);
      CreateOut(reg, None)
    else
      var m := order[from];
      var added := AddMethod(env, reg, m);
      if added.err.Some? then
        CreateOut(added.reg, Some(MethodError(from, m.id, Lift(added.err.value, RootFrame(env.u, m)))))
      else
        var rest := CreateFrom(env, added.reg, order, from + 1);
        StepTrans(env.u, reg, added.reg, rest.reg);
        rest
  }

  /** One step of createMethods on an order and on a prefix of it that
      still holds the method at position from. */
  lemma CreateStep(env: Env, reg: Reg, order: seq<Method>, from: nat, k: nat)
    requires WellFormed(env.u) && RegOk(env.u, reg) && MethodsOk(env.u, order) && from < k <= |order|
    ensures MethodsOk(env.u, order[..k])
    ensures
      var added := AddMethod(env, reg, order[from]);
      added.err.None? ==>
        RegOk(env.u, added.reg)
        && CreateFrom(env, reg, order, from) == CreateFrom(env, added.reg, order, from + 1)
        && CreateFrom(env, reg, order[..k], from) == CreateFrom(env, added.reg, order[..k], from + 1)
  {
    assert order[..k][from] == order[from];
  }

  /** The run from position from fails at some k: every method from from
      up to k is added successfully, and the run ends with the failing
      addMethod's state and its error lifted with the root frame. */
  ghost predicate StopsAtFirstFailure(env: Env, reg: Reg, order: seq<Method>, from: nat)
    requires WellFormed(env.u) && RegOk(env.u, reg) && MethodsOk(env.u, order) && from <= |order|
    requires CreateFrom(env, reg, order, from).failure.Some?
  {
    var o := CreateFrom(env, reg, order, from);
    var k := o.failure.value.index;
    from <= k < |order|
    && var before := CreateFrom(env, reg, order[..k], from);
       before.failure.None?
       && var failed := AddMethod(env, before.reg, order[k]);
          failed.err.Some?
          && o == CreateOut(failed.reg, Some(MethodError(k, order[k].id,
                                                        Lift(failed.err.value, RootFrame(env.u, order[k])))))
  }

  lemma FailsFirst(env: Env, reg: Reg, order: seq<Method>, from: nat)
    requires WellFormed(env.u) && RegOk(env.u, reg) && MethodsOk(env.u, order) && from < |order|
    requires AddMethod(env, reg, order[from]).err.Some?
    ensures CreateFrom(env, reg, order, from).failure.Some?
    ensures StopsAtFirstFailure(env, reg, order, from)
  {
    assert CreateFrom(env, reg, order[..from], from) == CreateOut(reg, None);
  }

  lemma FailsLater(env: Env, reg: Reg, order: seq<Method>, from: nat)
    requires WellFormed(env.u) && RegOk(env.u, reg) && MethodsOk(env.u, order) && from < |order|
    requires AddMethod(env, reg, order[from]).err.None?
    requires CreateFrom(env, reg, order, from).failure.Some?
    requires var added := AddMethod(env, reg, order[from]);
      RegOk(env.u, added.reg) && CreateFrom(env, added.reg, order, from + 1).failure.Some?
      && StopsAtFirstFailure(env, added.reg, order, from + 1)
    ensures StopsAtFirstFailure(env, reg, order, from)
  {
    var added := AddMethod(env, reg, order[from]);
    var o := CreateFrom(env, reg, order, from);
    assert o == CreateFrom(env, added.reg, order, from + 1);
    CreateStep(env, reg, order, from, o.failure.value.index);
  }

  /** The functions in file are named after the methods of ms, in that
      order, possibly with other functions between them. */
  ghost predicate AddedInOrder(file: seq<FuncDecl>, ms: seq<Method>)
    decreases |ms|
  {
    ms == []
    || exists j :: 0 <= j < |file| && file[j].name == ms[0].name && AddedInOrder(file[j + 1..], ms[1..])
  }

  /** A successful addMethod appends at least one function, the method's own last. */
  lemma AddedGrows(env: Env, reg: Reg, m: Method)
    requires WellFormed(env.u) && RegOk(env.u, reg) && MethodOk(env.u, m)
    requires AddMethod(env, reg, m).err.None?
    ensures var o := AddMethod(env, reg, m);
      reg.file < o.reg.file && o.reg.file[|o.reg.file| - 1].name == m.name
  {
    if m.delegate.None? {
      DispatcherFacts.AddMethodCases(env, reg, m);
    }
  }

  /** A successful build adds every method of the order, from position from
      on, in that order: the functions they emit follow the file as it was
      before the run. */
  lemma {:induction false} CreateAddsAll(env: Env, reg: Reg, order: seq<Method>, from: nat)
    requires WellFormed(env.u) && RegOk(env.u, reg) && MethodsOk(env.u, order) && from <= |order|
    ensures var o := CreateFrom(env, reg, order, from);
      o.failure.None? ==> |reg.file| <= |o.reg.file| && AddedInOrder(o.reg.file[|reg.file|..], order[from..])
    decreases |order| - from
  {
    var o := CreateFrom(env, reg, order, from);
    if from == |order| {
      assert order[from..] == [];
    } else {
      var added := AddMethod(env, reg, order[from]);
      if added.err.None? && o.failure.None? {
        assert o == CreateFrom(env, added.reg, order, from + 1);
        AddedGrows(env, reg, order[from]);
        CreateAddsAll(env, added.reg, order, from + 1);
        var f := o.reg.file;
        var j := |added.reg.file| - 1 - |reg.file|;
        assert f[|reg.file|..][j] == added.reg.file[|added.reg.file| - 1];
        assert f[|reg.file|..][j + 1..] == f[|added.reg.file|..];
        assert order[from..][1..] == order[from + 1..];
        assert AddedInOrder(f[|reg.file|..][j + 1..], order[from..][1..]);
      }
    }
  }

  /** A failing build stops at the first method whose addMethod fails: every
      method before it was added successfully, none after it is built, and
      the failure is that method's own error lifted with the root frame. */
  lemma {:induction false} CreateStopsAtFirstFailure(env: Env, reg: Reg, order: seq<Method>, from: nat)
    requires WellFormed(env.u) && RegOk(env.u, reg) && MethodsOk(env.u, order) && from <= |order|
    requires CreateFrom(env, reg, order, from).failure.Some?
    ensures StopsAtFirstFailure(env, reg, order, from)
    decreases |order| - from
  {
    var added := AddMethod(env, reg, order[from]);
    if added.err.Some? {
      FailsFirst(env, reg, order, from);
    } else {
      assert CreateFrom(env, reg, order, from) == CreateFrom(env, added.reg, order, from + 1);
      CreateStopsAtFirstFailure(env, added.reg, order, from + 1);
      FailsLater(env, reg, order, from);
    }
  }
}
