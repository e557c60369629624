/** The dispatcher of generator/generator.go as functions over an explicit
    registry value. This is the reference semantics the Generator class is
    proved against, and the properties of the dispatcher are proved here. */
module Dispatcher {
  import opened Types
  import opened Builder
  import opened Namer
  import ListBuilder

  /** Registry key: the identities of the source and target types. */
  datatype Signature = Signature(source: string, target: string)

  /** A function of the user's package, referred to by package path and name. */
  datatype FuncRef = FuncRef(pkg: string, name: string)

  /** A conversion method, declared by the user or extracted for a named type. */
  datatype Method = Method(
    id: string,
    name: string,
    source: TypeId,
    target: TypeId,
    mapping: map<string, string>,
    ignored: set<string>,
    delegate: Option<FuncRef>)

  /** An entry of BuildSteps: the list rule, or a rule whose predicate and
      emitted code are kept abstract (basic, pointer, map, struct, ...). */
  datatype Rule = ListRule | OtherRule(name: string, accepts: (TypeDesc, TypeDesc) -> bool)

  predicate RuleMatches(rule: Rule, s: TypeDesc, t: TypeDesc)
  {
    match rule
    case ListRule => ListBuilder.Matches(s, t)
    case OtherRule(_, accepts) => accepts(s, t)
  }

  /** The rule scan: the first rule at or after position from that matches. */
  function Scan(rules: seq<Rule>, s: TypeDesc, t: TypeDesc, from: nat): (r: Option<nat>)
    requires from <= |rules|
    ensures r.Some? ==>
      from <= r.value < |rules| && RuleMatches(rules[r.value], s, t)
      && forall j :: from <= j < r.value ==> !RuleMatches(rules[j], s, t)
    ensures r.None? ==> forall j :: from <= j < |rules| ==> !RuleMatches(rules[j], s, t)
    decreases |rules| - from
  {
    if from == |rules| then None
    else if RuleMatches(rules[from], s, t) then Some(from)
    else Scan(rules, s, t, from + 1)
  }

  /** What a run works with and never changes: the types, BuildSteps, and
      the name of the generated converter type. */
  datatype Env = Env(u: Universe, rules: seq<Rule>, recv: string)

  /** The mutable part of a Generator: the registry, the names its namer
      has handed out, and the functions emitted into the file so far. */
  datatype Reg = Reg(lookup: map<Signature, Method>, names: seq<string>, file: seq<FuncDecl>)

  /** The outcome of a build: the new registry, the method-local names
      taken so far, and the built code or error. */
  datatype Out = Out(reg: Reg, locals: seq<string>, res: BuildResult)

  datatype AddOut = AddOut(reg: Reg, err: Option<Error>)

  function SigOf(u: Universe, s: TypeId, t: TypeId): Signature
    requires s in u && t in u
  {
    Signature(u[s].ident, u[t].ident)
  }

  ghost predicate MethodOk(u: Universe, m: Method)
  {
    m.source in u && m.target in u
  }

  /** Every method's types exist and it is stored under its own signature. */
  ghost predicate RegOk(u: Universe, reg: Reg)
  {
    forall k :: k in reg.lookup ==>
      MethodOk(u, reg.lookup[k]) && k == SigOf(u, reg.lookup[k].source, reg.lookup[k].target)
  }

  /** The signatures that can ever be extracted: a named non-basic side. */
  ghost function Candidates(u: Universe): set<Signature>
  {
    set s, t | s in u && t in u && (Extractable(u[s]) || Extractable(u[t])) :: SigOf(u, s, t)
  }

  /** The candidate signatures still without a method. */
  ghost function Unresolved(u: Universe, keys: set<Signature>): nat
  {
    |Candidates(u) - keys|
  }

  lemma CandidateOf(u: Universe, s: TypeId, t: TypeId)
    requires s in u && t in u && (Extractable(u[s]) || Extractable(u[t]))
    ensures SigOf(u, s, t) in Candidates(u)
  {
  }

  lemma UnresolvedDrops(u: Universe, keys: set<Signature>, sig: Signature)
    requires sig in Candidates(u) && sig !in keys
    ensures Unresolved(u, keys + {sig}) < Unresolved(u, keys)
  {
    assert Candidates(u) - (keys + {sig}) == (Candidates(u) - keys) - {sig};
  }

  lemma SubsetCard<T>(a: set<T>, b: set<T>)
    requires a <= b
    ensures |a| <= |b|
  {
    assert b == a + (b - a);
  }

  lemma UnresolvedMono(u: Universe, k1: set<Signature>, k2: set<Signature>)
    requires k1 <= k2
    ensures Unresolved(u, k2) <= Unresolved(u, k1)
  {
    SubsetCard(Candidates(u) - k2, Candidates(u) - k1);
  }

  /** b continues a: no method is removed or replaced, and the namer and
      the file only grow. */
  ghost predicate Extends(a: Reg, b: Reg)
  {
    (forall k :: k in a.lookup ==> k in b.lookup && b.lookup[k] == a.lookup[k])
    && a.names <= b.names && a.file <= b.file
  }

  /** A method the dispatcher extracted: no mapping, nothing ignored, no delegate. */
  predicate Implicit(m: Method)
  {
    m.id == m.name && m.mapping == map[] && m.ignored == {} && m.delegate.None?
  }

  /** Every method b has and a lacks was extracted for a candidate signature
      under a name a's namer had not handed out. */
  ghost predicate OnlyExtracted(u: Universe, a: Reg, b: Reg)
  {
    forall k :: k in b.lookup && k !in a.lookup ==>
      Implicit(b.lookup[k]) && k in Candidates(u) && b.lookup[k].name !in a.names
  }

  /** What every dispatcher operation does to the registry. */
  ghost predicate Step(u: Universe, a: Reg, b: Reg)
  {
    RegOk(u, b) && Extends(a, b) && OnlyExtracted(u, a, b)
  }

  lemma StepTrans(u: Universe, a: Reg, b: Reg, c: Reg)
    requires Step(u, a, b) && Step(u, b, c)
    ensures Step(u, a, c)
  {
  }

  lemma StepRefl(u: Universe, a: Reg)
    requires RegOk(u, a)
    ensures Step(u, a, a)
  {
  }

  /** The suggested name of an extracted method (strings.Title is not modelled). */
  function MethodBase(s: TypeDesc, t: TypeDesc): string
  {
    s.ident + "To" + t.ident
  }

  /** c.<name>(src): a call to a registered method, classified as other. */
  function CallTo(m: Method, src: JenID): BuildResult
  {
    Built([], OtherID(MethodCall("c", m.name, src.code)))
  }

  function Mismatch(s: TypeDesc, t: TypeDesc): Error
  {
    Error(TypeMismatch(s.ident, t.ident), [])
  }

  /** func (c *<recv>) <name>(source S) T { body } */
  function MethodFunc(env: Env, m: Method, body: seq<Stmt>): FuncDecl
    requires MethodOk(env.u, m)
  {
    FuncDecl(env.recv, m.name, env.u[m.source].ident, env.u[m.target].ident, body)
  }

  /** return <pkg>.<delegate>(c, source) */
  function DelegateBody(ref: FuncRef): seq<Stmt>
  {
    [Return(QualCall(ref.pkg, ref.name, [Id("c"), Id("source")]))]
  }

  /** Generator.Build. */
  function Build(env: Env, reg: Reg, locals: seq<string>, src: JenID, s: TypeId, t: TypeId): (o: Out)
    requires WellFormed(env.u) && RegOk(env.u, reg) && s in env.u && t in env.u
    ensures Step(env.u, reg, o.reg)
    ensures SigOf(env.u, s, t) in reg.lookup ==>
      o == Out(reg, locals, CallTo(reg.lookup[SigOf(env.u, s, t)], src))
    ensures SigOf(env.u, s, t) !in reg.lookup && (Extractable(env.u[s]) || Extractable(env.u[t])) ==>
      o == Extract(env, reg, locals, src, s, t)
    decreases Unresolved(env.u, reg.lookup.Keys), Size(env.u, s) + Size(env.u, t), 4
  {
    var sig := SigOf(env.u, s, t);
    if sig in reg.lookup then
      StepRefl(env.u, reg);
      Out(reg, locals, CallTo(reg.lookup[sig], src))
    else if Extractable(env.u[s]) || Extractable(env.u[t]) then
      Extract(env, reg, locals, src, s, t)
    else
      BuildNoLookup(env, reg, locals, src, s, t)
  }

  /** The method Build extracts for a signature: named after the pair, no
      mapping, nothing ignored, no delegate. */
  function Extracted(name: string, s: TypeId, t: TypeId): (m: Method)
    ensures Implicit(m)
  {
    Method(name, name, s, t, map[], {}, None)
  }

  /** The registry once the extracted method is inserted and its name registered. */
  function Reserve(u: Universe, reg: Reg, s: TypeId, t: TypeId, name: string): Reg
    requires s in u && t in u
  {
    Reg(reg.lookup[SigOf(u, s, t) := Extracted(name, s, t)], reg.names + [name], reg.file)
  }

  /** Inserting one extracted method under a new candidate signature is a
      dispatcher step. */
  lemma InsertStep(u: Universe, reg: Reg, sig: Signature, m: Method, name: string)
    requires RegOk(u, reg) && MethodOk(u, m) && sig == SigOf(u, m.source, m.target)
    requires sig !in reg.lookup && sig in Candidates(u) && Implicit(m) && m.name !in reg.names
    ensures Step(u, reg, Reg(reg.lookup[sig := m], reg.names + [name], reg.file))
  {
    var r := Reg(reg.lookup[sig := m], reg.names + [name], reg.file);
    forall k | k in r.lookup
      ensures MethodOk(u, r.lookup[k]) && k == SigOf(u, r.lookup[k].source, r.lookup[k].target)
    {
      if k != sig { assert r.lookup[k] == reg.lookup[k]; }
    }
    forall k | k in r.lookup && k !in reg.lookup
      ensures Implicit(r.lookup[k]) && k in Candidates(u) && r.lookup[k].name !in reg.names
    {
      assert k == sig;
    }
  }

  lemma ReserveStep(u: Universe, reg: Reg, s: TypeId, t: TypeId, name: string)
    requires RegOk(u, reg) && s in u && t in u
    requires SigOf(u, s, t) !in reg.lookup && (Extractable(u[s]) || Extractable(u[t]))
    requires name !in reg.names
    ensures Step(u, reg, Reserve(u, reg, s, t, name))
    ensures Unresolved(u, Reserve(u, reg, s, t, name).lookup.Keys) < Unresolved(u, reg.lookup.Keys)
  {
    var sig := SigOf(u, s, t);
    CandidateOf(u, s, t);
    InsertStep(u, reg, sig, Extracted(name, s, t), name);
    assert Reserve(u, reg, s, t, name).lookup.Keys == reg.lookup.Keys + {sig};
    UnresolvedDrops(u, reg.lookup.Keys, sig);
  }

  /** The extraction branch of Build: a fresh method is registered under the
      signature before its body is built, then Build is tried again. */
  function Extract(env: Env, reg: Reg, locals: seq<string>, src: JenID, s: TypeId, t: TypeId): (o: Out)
    requires WellFormed(env.u) && RegOk(env.u, reg) && s in env.u && t in env.u
    requires SigOf(env.u, s, t) !in reg.lookup && (Extractable(env.u[s]) || Extractable(env.u[t]))
    ensures Step(env.u, reg, o.reg)
    ensures SigOf(env.u, s, t) in o.reg.lookup && Implicit(o.reg.lookup[SigOf(env.u, s, t)])
    ensures o.locals == locals
    ensures o.res.Built? ==> o.res == CallTo(o.reg.lookup[SigOf(env.u, s, t)], src)
    decreases Unresolved(env.u, reg.lookup.Keys), Size(env.u, s) + Size(env.u, t), 3
  {
    var name := FreshName(MethodBase(env.u[s], env.u[t]), reg.names);
    var reg1 := Reserve(env.u, reg, s, t, name);
    ReserveStep(env.u, reg, s, t, name);
    var added := AddMethod(env, reg1, Extracted(name, s, t));
    StepTrans(env.u, reg, reg1, added.reg);
    if added.err.Some? then
      Out(added.reg, locals, Failed(added.err.value))
    else
      UnresolvedMono(env.u, reg1.lookup.Keys, added.reg.lookup.Keys);
      Build(env, added.reg, locals, src, s, t)
  }

  /** Extract in terms of its steps, for the Generator class. */
  lemma ExtractUnfold(env: Env, reg: Reg, locals: seq<string>, src: JenID, s: TypeId, t: TypeId)
    requires WellFormed(env.u) && RegOk(env.u, reg) && s in env.u && t in env.u
    requires SigOf(env.u, s, t) !in reg.lookup && (Extractable(env.u[s]) || Extractable(env.u[t]))
    ensures
      var name := FreshName(MethodBase(env.u[s], env.u[t]), reg.names);
      var reg1 := Reserve(env.u, reg, s, t, name);
      RegOk(env.u, reg1)
      && var added := AddMethod(env, reg1, Extracted(name, s, t));
         RegOk(env.u, added.reg)
         && Extract(env, reg, locals, src, s, t) ==
            if added.err.Some? then Out(added.reg, locals, Failed(added.err.value))
            else Build(env, added.reg, locals, src, s, t)
  {
    ReserveStep(env.u, reg, s, t, FreshName(MethodBase(env.u[s], env.u[t]), reg.names));
  }

  /** Generator.addMethod: a delegate is forwarded to; otherwise the body is
      built by the rule scan from a fresh method context. */
  function AddMethod(env: Env, reg: Reg, m: Method): (o: AddOut)
    requires WellFormed(env.u) && RegOk(env.u, reg) && MethodOk(env.u, m)
    ensures Step(env.u, reg, o.reg)
    ensures m.delegate.Some? ==>
      o == AddOut(reg.(file := reg.file + [MethodFunc(env, m, DelegateBody(m.delegate.value))]), None)
    ensures o.err.None? ==>
      |o.reg.file| > 0 && o.reg.file[|o.reg.file| - 1].name == m.name
      && var body := o.reg.file[|o.reg.file| - 1].body;
         |body| > 0 && body[|body| - 1].Return?
    decreases Unresolved(env.u, reg.lookup.Keys), Body(env.u, m.source) + Body(env.u, m.target), 2
  {
    match m.delegate
    case Some(ref) =>
      AddOut(reg.(file := reg.file + [MethodFunc(env, m, DelegateBody(ref))]), None)
    case None =>
      var o := BuildNoLookup(env, reg, [], VariableID(Id("source")), m.source, m.target);
      match o.res
      case Failed(e) => AddOut(o.reg, Some(e))
      case Built(stmts, id) =>
        AddOut(o.reg.(file := o.reg.file + [MethodFunc(env, m, stmts + [Return(id.code)])]), None)
  }

  /** Generator.BuildNoLookup: the first matching rule builds the code. */
  function BuildNoLookup(env: Env, reg: Reg, locals: seq<string>, src: JenID, s: TypeId, t: TypeId): (o: Out)
    requires WellFormed(env.u) && RegOk(env.u, reg) && s in env.u && t in env.u
    ensures Step(env.u, reg, o.reg)
    ensures Scan(env.rules, env.u[s], env.u[t], 0).None? ==>
      o == Out(reg, locals, Failed(Mismatch(env.u[s], env.u[t])))
    decreases Unresolved(env.u, reg.lookup.Keys), Body(env.u, s) + Body(env.u, t), 1
  {
    match Scan(env.rules, env.u[s], env.u[t], 0)
    case None =>
      StepRefl(env.u, reg);
      Out(reg, locals, Failed(Mismatch(env.u[s], env.u[t])))
    case Some(k) =>
      match env.rules[k]
      case ListRule => BuildList(env, reg, locals, src, s, t)
      case OtherRule(name, _) =>
        StepRefl(env.u, reg);
        Out(reg, locals, Built([], OtherID(RuleCode(name, src.code))))
  }

  /** List.Build: convert source[index] into the target element through the
      dispatcher, then wrap it into the slice initialiser and loop. */
  function BuildList(env: Env, reg: Reg, locals: seq<string>, src: JenID, s: TypeId, t: TypeId): (o: Out)
    requires WellFormed(env.u) && RegOk(env.u, reg) && s in env.u && t in env.u
    requires ListBuilder.Matches(env.u[s], env.u[t])
    ensures Step(env.u, reg, o.reg)
    ensures o.res.Failed? ==>
      o.res.err.path != []
      && o.res.err.path[0] == ListBuilder.ElemFrame(env.u[env.u[s].inner].ident, env.u[env.u[t].inner].ident)
    ensures o.res.Built? ==>
      o.res.id.VariableID? && o.res.id.code.Id? && o.res.id.code.name !in locals
      && |o.res.stmts| > 0 && ListBuilder.Loop(o.res.stmts).CountedFor?
      && ListBuilder.EmitsList(o.res.stmts, env.u[s].listFixed, src.code, env.u[t].ident,
                               o.res.id.code.name, ListBuilder.Loop(o.res.stmts).index)
    decreases Unresolved(env.u, reg.lookup.Keys), Body(env.u, s) + Body(env.u, t), 0
  {
    var sd, td := env.u[s], env.u[t];
    var targetSlice := FreshName(td.ident, locals);
    var index := FreshName("i", locals + [targetSlice]);
    var elemSrc := VariableID(Index(src.code, Id(index)));
    var elem := Build(env, reg, locals + [targetSlice, index], elemSrc, sd.inner, td.inner);
    Out(elem.reg, elem.locals,
        ListBuilder.Assemble(sd.listFixed, src.code, td.ident, targetSlice, index,
                             env.u[sd.inner].ident, env.u[td.inner].ident, elem.res))
  }
}

/** Properties of the dispatcher that relate its operations to the registry. */
module DispatcherFacts {
  import opened Types
  import opened Builder
  import opened Dispatcher
  import Namer

  /** However deep a build recurses, it extracts at most one method per
      candidate signature that had none: the number of new methods is
      bounded by the unresolved candidates. */
  lemma ExtractionBounded(u: Universe, a: Reg, b: Reg)
    requires Step(u, a, b)
    ensures b.lookup.Keys - a.lookup.Keys <= Candidates(u) - a.lookup.Keys
    ensures |b.lookup.Keys - a.lookup.Keys| <= Unresolved(u, a.lookup.Keys)
  {
    SubsetCard(b.lookup.Keys - a.lookup.Keys, Candidates(u) - a.lookup.Keys);
  }

  /** The method reserved for the signature is still the one registered
      once its body is built. */
  lemma ReservedKept(env: Env, reg: Reg, s: TypeId, t: TypeId)
    requires WellFormed(env.u) && RegOk(env.u, reg) && s in env.u && t in env.u
    requires SigOf(env.u, s, t) !in reg.lookup && (Extractable(env.u[s]) || Extractable(env.u[t]))
    ensures
      var name := Namer.FreshName(MethodBase(env.u[s], env.u[t]), reg.names);
      var reg1 := Reserve(env.u, reg, s, t, name);
      RegOk(env.u, reg1)
      && var added := AddMethod(env, reg1, Extracted(name, s, t));
         SigOf(env.u, s, t) in added.reg.lookup && added.reg.lookup[SigOf(env.u, s, t)] == Extracted(name, s, t)
  {
    ReserveStep(env.u, reg, s, t, Namer.FreshName(MethodBase(env.u[s], env.u[t]), reg.names));
  }

  /** Building a method's body never replaces an earlier registration, so
      the retry after extraction finds the reserved method: an extracted
      pair resolves to a call of the method registered for it when its
      body builds, and to the body's error, with no frame added, when not. */
  lemma ExtractThenCall(env: Env, reg: Reg, locals: seq<string>, src: JenID, s: TypeId, t: TypeId)
    requires WellFormed(env.u) && RegOk(env.u, reg) && s in env.u && t in env.u
    requires SigOf(env.u, s, t) !in reg.lookup && (Extractable(env.u[s]) || Extractable(env.u[t]))
    ensures var o := Build(env, reg, locals, src, s, t);
      var m := o.reg.lookup[SigOf(env.u, s, t)];
      SigOf(env.u, s, t) in o.reg.lookup && Implicit(m) && m.name !in reg.names
      && m.source == s && m.target == t
      && (o.res.Built? ==> o.res == CallTo(m, src))
      && |o.reg.lookup.Keys - reg.lookup.Keys| <= Unresolved(env.u, reg.lookup.Keys)
    ensures
      var name := Namer.FreshName(MethodBase(env.u[s], env.u[t]), reg.names);
      var reg1 := Reserve(env.u, reg, s, t, name);
      RegOk(env.u, reg1)
      && var added := AddMethod(env, reg1, Extracted(name, s, t));
         var o := Build(env, reg, locals, src, s, t);
         (added.err.Some? ==> o.res == Failed(added.err.value))
         && (added.err.None? ==> o.res == CallTo(Extracted(name, s, t), src))
  {
    var name := Namer.FreshName(MethodBase(env.u[s], env.u[t]), reg.names);
    var added := AddMethod(env, Reserve(env.u, reg, s, t, name), Extracted(name, s, t));
    ExtractUnfold(env, reg, locals, src, s, t);
    ReservedKept(env, reg, s, t);
    var o := Build(env, reg, locals, src, s, t);
    assert o.reg == added.reg;
    ExtractionBounded(env.u, reg, o.reg);
  }

  /** BuildNoLookup fails with TypeMismatch exactly when no rule matches;
      otherwise the first matching rule builds: the list rule through
      BuildList, any other rule as its leaf code. */
  lemma NoLookupCases(env: Env, reg: Reg, locals: seq<string>, src: JenID, s: TypeId, t: TypeId)
    requires WellFormed(env.u) && RegOk(env.u, reg) && s in env.u && t in env.u
    ensures var o := BuildNoLookup(env, reg, locals, src, s, t);
      o.res == Failed(Mismatch(env.u[s], env.u[t])) <==> Scan(env.rules, env.u[s], env.u[t], 0).None?
    ensures var k := Scan(env.rules, env.u[s], env.u[t], 0);
      k.Some? && env.rules[k.value].ListRule? ==>
        BuildNoLookup(env, reg, locals, src, s, t) == BuildList(env, reg, locals, src, s, t)
    ensures var k := Scan(env.rules, env.u[s], env.u[t], 0);
      k.Some? && env.rules[k.value].OtherRule? ==>
        BuildNoLookup(env, reg, locals, src, s, t)
        == Out(reg, locals, Built([], OtherID(RuleCode(env.rules[k.value].name, src.code))))
  {
  }

  /** addMethod without a delegate: the body is what the rule scan builds
      from a fresh method context, followed by `return <result>`; if the
      scan fails, its error is returned and no function is emitted. */
  lemma AddMethodCases(env: Env, reg: Reg, m: Method)
    requires WellFormed(env.u) && RegOk(env.u, reg) && MethodOk(env.u, m) && m.delegate.None?
    ensures var o := AddMethod(env, reg, m);
      var b := BuildNoLookup(env, reg, [], VariableID(Id("source")), m.source, m.target);
      (o.err.Some? <==> b.res.Failed?)
      && (b.res.Failed? ==> o == AddOut(b.reg, Some(b.res.err)))
      && (b.res.Built? ==>
            o == AddOut(b.reg.(file := b.reg.file + [MethodFunc(env, m, b.res.stmts + [Return(b.res.id.code)])]), None))
  {
  }

  /** List.Build keeps the element build's registry and locals, lifts its
      error whole with one "[]" frame (cause and inner frames survive), and
      on success assembles the element's own statements into the loop. */
  lemma ListLiftsElement(env: Env, reg: Reg, locals: seq<string>, src: JenID, s: TypeId, t: TypeId)
    requires WellFormed(env.u) && RegOk(env.u, reg) && s in env.u && t in env.u
    requires ListBuilder.Matches(env.u[s], env.u[t])
    ensures
      var u := env.u;
      var ts := Namer.FreshName(u[t].ident, locals);
      var index := Namer.FreshName("i", locals + [ts]);
      var elem := Build(env, reg, locals + [ts, index], VariableID(Index(src.code, Id(index))), u[s].inner, u[t].inner);
      var o := BuildList(env, reg, locals, src, s, t);
      o.reg == elem.reg && o.locals == elem.locals
      && (o.res.Failed? <==> elem.res.Failed?)
      && (elem.res.Failed? ==>
            o.res.err == Lift(elem.res.err, ListBuilder.ElemFrame(u[u[s].inner].ident, u[u[t].inner].ident)))
      && o.res == ListBuilder.Assemble(u[s].listFixed, src.code, u[t].ident, ts, index,
                                       u[u[s].inner].ident, u[u[t].inner].ident, elem.res)
  {
  }
}
