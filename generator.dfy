/** The Generator of generator/generator.go as a class whose fields the
    operations update in place. Each operation is proved to produce exactly
    the state and result of its counterpart in Dispatcher and Registration,
    where the dispatcher's properties are proved. */
module Generator {
  import opened Types
  import opened Builder
  import opened Namer
  import opened Dispatcher
  import opened Registration
  import ListBuilder
  import NameOrder

  /** builder.MethodContext: the per-method namer scope and the method's
      mapping and ignored fields. */
  class MethodContext {
    var taken: seq<string>
    const mappingBaseId: string
    const mapping: map<string, string>
    const ignored: set<string>

    constructor (mappingBaseId: string, mapping: map<string, string>, ignored: set<string>)
      ensures taken == []
      ensures this.mappingBaseId == mappingBaseId && this.mapping == mapping && this.ignored == ignored
    {
      taken := [];
      this.mappingBaseId := mappingBaseId;
      this.mapping := mapping;
      this.ignored := ignored;
    }

    /** ctx.Name: a local name not used before in this method. */
    method Name(base: string) returns (name: string)
      modifies this
      ensures name == FreshName(base, old(taken)) && name !in old(taken)
      ensures taken == old(taken) + [name]
    {
      name := FreshName(base, taken);
      taken := taken + [name];
    }

    /** ctx.Index: a fresh loop index name. */
    method Index() returns (name: string)
      modifies this
      ensures name == FreshName("i", old(taken)) && name !in old(taken)
      ensures taken == old(taken) + [name]
    {
      name := Name("i");
    }
  }

  function MethodName(m: Method): string
  {
    m.name
  }

  class Generator {
    const env: Env
    var lookup: map<Signature, Method>
    var names: seq<string>
    var file: seq<FuncDecl>

    function State(): Reg
      reads this
    {
      Reg(lookup, names, file)
    }

    ghost predicate Valid()
      reads this
    {
      WellFormed(env.u) && RegOk(env.u, State())
    }

    constructor (env: Env)
      requires WellFormed(env.u)
      ensures Valid() && this.env == env && State() == Reg(map[], [], [])
    {
      this.env := env;
      lookup := map[];
      names := [];
      file := [];
    }

    /** Generator.registerMethod: validate the declaration and store its
      method under its signature, replacing any earlier one. */
    method RegisterMethod(decl: Declared, dirs: Directives, scope: map<string, ScopeObject>)
      returns (err: Option<RegisterError>)
      requires Valid()
      requires decl.typ.SignatureType? ==>
        (forall i :: 0 <= i < |decl.typ.params| ==> decl.typ.params[i] in env.u)
        && (forall i :: 0 <= i < |decl.typ.results| ==> decl.typ.results[i] in env.u)
      modifies this
      ensures Valid()
      ensures err.Some? <==> Requested(decl, dirs, scope).Err?
      ensures err.Some? ==> err.value == Requested(decl, dirs, scope).error && State() == old(State())
      ensures err.None? ==>
        var m := Requested(decl, dirs, scope).value;
        lookup == old(lookup)[SigOf(env.u, m.source, m.target) := m]
        && names == old(names) + [m.name] && file == old(file)
    {
      var r := Requested(decl, dirs, scope);
      if r.Err? {
        return Some(r.error);
      }
      var m := r.value;
      lookup := lookup[SigOf(env.u, m.source, m.target) := m];
      names := names + [m.name];
      return None;
    }

    /** The first loop of createMethods: every registered method, once. */
    method Snapshot() returns (methods: seq<Method>)
      ensures |methods| == |lookup|
      ensures forall m :: m in methods <==> m in lookup.Values
    {
      methods := [];
      var rest := lookup.Keys;
      ghost var done: set<Signature> := {};
      while rest != {}
        invariant rest + done == lookup.Keys && rest !! done
        invariant |methods| == |done|
        invariant forall i :: 0 <= i < |methods| ==> methods[i] in lookup.Values
        invariant forall k :: k in done ==> lookup[k] in methods
        decreases |rest|
      {
        var k :| k in rest;
        methods := methods + [lookup[k]];
        rest := rest - {k};
        done := done + {k};
      }
      assert done == lookup.Keys;
    }

    /** The registered methods in the order createMethods builds them. */
    method BuildOrder() returns (order: seq<Method>)
      requires Valid()
      ensures NameOrder.SortedBy(order, MethodName)
      ensures |order| == |lookup| && forall m :: m in order <==> m in lookup.Values
      ensures MethodsOk(env.u, order)
    {
      var methods := Snapshot();
      order := NameOrder.SortBy(methods, MethodName);
      assert multiset(order) == multiset(methods);
      forall m ensures m in order <==> m in lookup.Values {
        assert m in order <==> m in multiset(order);
        assert m in methods <==> m in multiset(methods);
      }
      assert |order| == |multiset(order)| == |multiset(methods)| == |methods|;
      forall i | 0 <= i < |order| ensures MethodOk(env.u, order[i]) {
        var m := order[i];
        assert m in lookup.Values;
        var k :| k in lookup && lookup[k] == m;
      }
    }

    /** Generator.createMethods: snapshot the registered methods, sort them by
      name, and add each in turn until one fails. */
    method CreateMethods() returns (failure: Option<MethodError>, ghost order: seq<Method>)
      requires Valid()
      modifies this
      ensures Valid()
      ensures NameOrder.SortedBy(order, MethodName)
      ensures |order| == |old(lookup)| && forall m :: m in order <==> m in old(lookup).Values
      ensures MethodsOk(env.u, order)
      ensures CreateOut(State(), failure) == CreateFrom(env, old(State()), order, 0)
    {
      var sorted := BuildOrder();
      order := sorted;
      var i := 0;
      while i < |sorted|
        invariant 0 <= i <= |sorted|
        invariant Valid()
        invariant CreateFrom(env, old(State()), sorted, 0) == CreateFrom(env, State(), sorted, i)
      {
        var m := sorted[i];
        var err := AddMethod(m);
        if err.Some? {
          failure := Some(MethodError(i, m.id, Lift(err.value, RootFrame(env.u, m))));
          return;
        }
        i := i + 1;
      }
      failure := None;
    }

    /** Generator.addMethod. */
    method AddMethod(m: Method) returns (err: Option<Error>)
      requires Valid() && MethodOk(env.u, m)
      modifies this
      ensures Valid()
      ensures AddOut(State(), err) == Dispatcher.AddMethod(env, old(State()), m)
      decreases Unresolved(env.u, lookup.Keys), Body(env.u, m.source) + Body(env.u, m.target), 3
    {
      if m.delegate.Some? {
        file := file + [MethodFunc(env, m, DelegateBody(m.delegate.value))];
        return None;
      }
      err := AddBuilt(m);
    }

    /** The branch of addMethod without a delegate: build the body from a
      fresh method context and emit the function. */
    method AddBuilt(m: Method) returns (err: Option<Error>)
      requires Valid() && MethodOk(env.u, m) && m.delegate.None?
      modifies this
      ensures Valid()
      ensures AddOut(State(), err) == Dispatcher.AddMethod(env, old(State()), m)
      decreases Unresolved(env.u, lookup.Keys), Body(env.u, m.source) + Body(env.u, m.target), 2
    {
      var ctx := new MethodContext(env.u[m.target].ident, m.mapping, m.ignored);
      var r := BuildNoLookup(ctx, VariableID(Id("source")), m.source, m.target);
      ghost var o := Dispatcher.BuildNoLookup(env, old(State()), [], VariableID(Id("source")), m.source, m.target);
      assert Out(State(), ctx.taken, r) == o;
      if r.Failed? {
        return Some(r.err);
      }
      ghost var built := State();
      file := file + [MethodFunc(env, m, r.stmts + [Return(r.id.code)])];
      assert State() == o.reg.(file := o.reg.file + [MethodFunc(env, m, r.stmts + [Return(r.id.code)])]);
      assert RegOk(env.u, State()) by { assert State().lookup == built.lookup; }
      err := None;
    }

    /** Generator.BuildNoLookup: the first rule of BuildSteps that matches
      builds the code. */
    method BuildNoLookup(ctx: MethodContext, src: JenID, s: TypeId, t: TypeId) returns (r: BuildResult)
      requires Valid() && s in env.u && t in env.u
      modifies this, ctx
      ensures Valid()
      ensures Out(State(), ctx.taken, r) == Dispatcher.BuildNoLookup(env, old(State()), old(ctx.taken), src, s, t)
      decreases Unresolved(env.u, lookup.Keys), Body(env.u, s) + Body(env.u, t), 1
    {
      var i := 0;
      while i < |env.rules| && !RuleMatches(env.rules[i], env.u[s], env.u[t])
        invariant 0 <= i <= |env.rules|
        invariant Scan(env.rules, env.u[s], env.u[t], 0) == Scan(env.rules, env.u[s], env.u[t], i)
      {
        i := i + 1;
      }
      if i == |env.rules| {
        return Failed(Mismatch(env.u[s], env.u[t]));
      }
      assert Scan(env.rules, env.u[s], env.u[t], 0) == Some(i);
      match env.rules[i]
      case ListRule =>
        r := BuildList(ctx, src, s, t);
      case OtherRule(name, _) =>
        r := Built([], OtherID(RuleCode(name, src.code)));
    }

    /** Generator.Build: a cached method is called; a named non-basic pair
      is extracted; anything else goes through the rule scan. */
    method Build(ctx: MethodContext, src: JenID, s: TypeId, t: TypeId) returns (r: BuildResult)
      requires Valid() && s in env.u && t in env.u
      modifies this, ctx
      ensures Valid()
      ensures Out(State(), ctx.taken, r) == Dispatcher.Build(env, old(State()), old(ctx.taken), src, s, t)
      decreases Unresolved(env.u, lookup.Keys), Size(env.u, s) + Size(env.u, t), 4
    {
      var sig := SigOf(env.u, s, t);
      if sig in lookup {
        return CallTo(lookup[sig], src);
      }
      if Extractable(env.u[s]) || Extractable(env.u[t]) {
        r := Extract(ctx, src, s, t);
      } else {
        r := BuildNoLookup(ctx, src, s, t);
      }
    }

    /** Name the method extracted for (s, t) with a fresh name and insert it
      into the registry, before its body is built. */
    method Reserve(s: TypeId, t: TypeId) returns (m: Method)
      requires Valid() && s in env.u && t in env.u
      requires SigOf(env.u, s, t) !in lookup && (Extractable(env.u[s]) || Extractable(env.u[t]))
      modifies this
      ensures Valid()
      ensures m == Extracted(FreshName(MethodBase(env.u[s], env.u[t]), old(names)), s, t)
      ensures State() == Dispatcher.Reserve(env.u, old(State()), s, t, m.name)
      ensures Unresolved(env.u, lookup.Keys) < Unresolved(env.u, old(lookup).Keys)
    {
      var name := FreshName(MethodBase(env.u[s], env.u[t]), names);
      m := Extracted(name, s, t);
      var next := Dispatcher.Reserve(env.u, State(), s, t, name);
      ghost var before := State();
      lookup, names := next.lookup, next.names;
      assert State() == next;
      ReserveStep(env.u, before, s, t, name);
    }

    /** The extraction branch of Generator.Build: the new method is inserted
      into the registry before its body is built, then Build is tried again. */
    method Extract(ctx: MethodContext, src: JenID, s: TypeId, t: TypeId) returns (r: BuildResult)
      requires Valid() && s in env.u && t in env.u
      requires SigOf(env.u, s, t) !in lookup && (Extractable(env.u[s]) || Extractable(env.u[t]))
      modifies this, ctx
      ensures Valid()
      ensures Out(State(), ctx.taken, r) == Dispatcher.Extract(env, old(State()), old(ctx.taken), src, s, t)
      decreases Unresolved(env.u, lookup.Keys), Size(env.u, s) + Size(env.u, t), 3
    {
      ghost var taken := ctx.taken;
      var m := Reserve(s, t);
      ghost var reserved := State();
      var err := AddMethod(m);
      ghost var added := Dispatcher.AddMethod(env, reserved, m);
      assert State() == added.reg && err == added.err && ctx.taken == taken;
      if err.Some? {
        r := Failed(err.value);
        ExtractUnfold(env, old(State()), taken, src, s, t);
        return;
      }
      UnresolvedMono(env.u, reserved.lookup.Keys, lookup.Keys);
      r := Build(ctx, src, s, t);
      assert Out(State(), ctx.taken, r) == Dispatcher.Build(env, added.reg, taken, src, s, t);
      ExtractUnfold(env, old(State()), taken, src, s, t);
    }

    /** List.Build: convert source[index] into the target element through
      Build, then emit the slice initialiser and the loop around it. */
    method BuildList(ctx: MethodContext, src: JenID, s: TypeId, t: TypeId) returns (r: BuildResult)
      requires Valid() && s in env.u && t in env.u
      requires ListBuilder.Matches(env.u[s], env.u[t])
      modifies this, ctx
      ensures Valid()
      ensures Out(State(), ctx.taken, r) == Dispatcher.BuildList(env, old(State()), old(ctx.taken), src, s, t)
      decreases Unresolved(env.u, lookup.Keys), Body(env.u, s) + Body(env.u, t), 0
    {
      var sd, td := env.u[s], env.u[t];
      var targetSlice := ctx.Name(td.ident);
      var index := ctx.Index();
      assert ctx.taken == old(ctx.taken) + [targetSlice, index];
      assert State() == old(State());
      var indexed := VariableID(Index(src.code, Id(index)));
      var elem := Build(ctx, indexed, sd.inner, td.inner);
      r := ListBuilder.Assemble(sd.listFixed, src.code, td.ident, targetSlice, index,
                                env.u[sd.inner].ident, env.u[td.inner].ident, elem);
    }
  }
}
