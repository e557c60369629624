/** Worked instances of the dispatcher: a mismatch two lists deep, and two
    named list types that refer to each other. */
module Scenarios {
  import opened Types
  import opened Builder
  import opened Dispatcher
  import ListBuilder

  /** int, string, []int, []string, [][]int, [][]string */
  function NestedDesc(id: TypeId): TypeDesc
  {
    if id == 0 then TypeDesc("int", false, true, false, false, 0)
    else if id == 1 then TypeDesc("string", false, true, false, false, 0)
    else if id == 2 then TypeDesc("[]int", false, false, true, false, 0)
    else if id == 3 then TypeDesc("[]string", false, false, true, false, 1)
    else if id == 4 then TypeDesc("[][]int", false, false, true, false, 2)
    else TypeDesc("[][]string", false, false, true, false, 3)
  }

  function NestedUniverse(): Universe
  {
    map id: TypeId | id < 6 :: NestedDesc(id)
  }

  lemma NestedWellFormed()
    ensures WellFormed(NestedUniverse())
  {
    var u := NestedUniverse();
    assert forall id :: id in u && u[id].list ==> u[id].inner in u;
    assert forall id :: id in u && u[id].list && !Extractable(u[id]) ==> u[id].inner < id;
  }

  function Empty(): Reg
  {
    Reg(map[], [], [])
  }

  function NestedEnv(): Env
  {
    Env(NestedUniverse(), [ListRule], "Converter")
  }

  /** A pair that is neither registered nor extractable goes to the rule scan. */
  lemma PlainBuild(env: Env, reg: Reg, locals: seq<string>, src: JenID, s: TypeId, t: TypeId)
    requires WellFormed(env.u) && RegOk(env.u, reg) && s in env.u && t in env.u
    requires SigOf(env.u, s, t) !in reg.lookup && !Extractable(env.u[s]) && !Extractable(env.u[t])
    ensures Build(env, reg, locals, src, s, t) == BuildNoLookup(env, reg, locals, src, s, t)
  {
  }

  /** With the list rule as the only rule, a list pair that matches is
      built by one element build and the list rule's assembly. */
  lemma ListOnly(env: Env, reg: Reg, locals: seq<string>, src: JenID, s: TypeId, t: TypeId)
    requires WellFormed(env.u) && RegOk(env.u, reg) && s in env.u && t in env.u
    requires env.rules == [ListRule] && ListBuilder.Matches(env.u[s], env.u[t])
    ensures
      var u := env.u;
      var ts := Namer.FreshName(u[t].ident, locals);
      var index := Namer.FreshName("i", locals + [ts]);
      var elem := Build(env, reg, locals + [ts, index], VariableID(Index(src.code, Id(index))), u[s].inner, u[t].inner);
      BuildNoLookup(env, reg, locals, src, s, t)
      == Out(elem.reg, elem.locals,
             ListBuilder.Assemble(u[s].listFixed, src.code, u[t].ident, ts, index,
                                  u[u[s].inner].ident, u[u[t].inner].ident, elem.res))
  {
    assert Scan(env.rules, env.u[s], env.u[t], 0) == Some(0);
  }

  lemma ElemMismatch(locals: seq<string>, src: JenID)
    ensures WellFormed(NestedUniverse())
    ensures Build(NestedEnv(), Empty(), locals, src, 0, 1)
         == Out(Empty(), locals, Failed(Error(TypeMismatch("int", "string"), [])))
  {
    NestedWellFormed();
    var env := NestedEnv();
    assert Scan(env.rules, env.u[0], env.u[1], 0) == None;
  }

  lemma ListMismatch(locals: seq<string>, src: JenID)
    ensures WellFormed(NestedUniverse())
    ensures var o := Build(NestedEnv(), Empty(), locals, src, 2, 3);
      o.reg == Empty()
      && o.res == Failed(Error(TypeMismatch("int", "string"), [ListBuilder.ElemFrame("int", "string")]))
  {
    NestedWellFormed();
    var env := NestedEnv();
    var u := env.u;
    var ts := Namer.FreshName(u[3].ident, locals);
    var index := Namer.FreshName("i", locals + [ts]);
    ElemMismatch(locals + [ts, index], VariableID(Index(src.code, Id(index))));
    ListOnly(env, Empty(), locals, src, 2, 3);
  }

  /** [][]int to [][]string with only the list rule: the int to string
      mismatch comes out under two "[]" frames, the outer one first. */
  lemma NestedListMismatch(locals: seq<string>, src: JenID)
    ensures WellFormed(NestedUniverse())
    ensures var o := Build(NestedEnv(), Empty(), locals, src, 4, 5);
      o.reg == Empty()
      && o.res == Failed(Error(TypeMismatch("int", "string"),
                               [ListBuilder.ElemFrame("[]int", "[]string"), ListBuilder.ElemFrame("int", "string")]))
  {
    NestedWellFormed();
    var env := NestedEnv();
    var u := env.u;
    assert u[4] == NestedDesc(4) && u[5] == NestedDesc(5);
    PlainBuild(env, Empty(), locals, src, 4, 5);
    var ts := Namer.FreshName(u[5].ident, locals);
    var index := Namer.FreshName("i", locals + [ts]);
    var elemSrc := VariableID(Index(src.code, Id(index)));
    ListMismatch(locals + [ts, index], elemSrc);
    var elem := Build(env, Empty(), locals + [ts, index], elemSrc, 2, 3);
    assert u[2] == NestedDesc(2) && u[3] == NestedDesc(3);
    var lifted := ListBuilder.Assemble(false, src.code, "[][]string", ts, index, "[]int", "[]string", elem.res);
    assert lifted == Failed(Lift(elem.res.err, ListBuilder.ElemFrame("[]int", "[]string")));
    assert lifted == Failed(Error(TypeMismatch("int", "string"),
                                  [ListBuilder.ElemFrame("[]int", "[]string"), ListBuilder.ElemFrame("int", "string")]));
    ListOnly(env, Empty(), locals, src, 4, 5);
    assert BuildNoLookup(env, Empty(), locals, src, 4, 5) == Out(elem.reg, elem.locals, lifted);
  }

  /** type A []B and type B []A: two named slice types that refer to each other. */
  function CycleDesc(id: TypeId): TypeDesc
  {
    if id == 0 then TypeDesc("A", true, false, true, false, 1)
    else TypeDesc("B", true, false, true, false, 0)
  }

  function CycleUniverse(): Universe
  {
    map id: TypeId | id < 2 :: CycleDesc(id)
  }

  lemma CycleWellFormed()
    ensures WellFormed(CycleUniverse())
  {
    var u := CycleUniverse();
    assert forall id :: id in u && u[id].list ==> u[id].inner in u;
    assert forall id :: id in u && u[id].list && !Extractable(u[id]) ==> u[id].inner < id;
  }

  function CycleEnv(): Env
  {
    Env(CycleUniverse(), [ListRule], "Converter")
  }

  function AToB(): Method { Extracted("AToB", 0, 1) }
  function BToA(): Method { Extracted("BToA", 1, 0) }

  /** The registry once A to B is reserved. */
  function Reg1(): Reg
  {
    Reg(map[Signature("A", "B") := AToB()], ["AToB"], [])
  }

  /** The registry once B to A is reserved too. */
  function Reg2(): Reg
  {
    Reg(map[Signature("A", "B") := AToB(), Signature("B", "A") := BToA()], ["AToB", "BToA"], [])
  }

  lemma Reg2Ok()
    ensures WellFormed(CycleUniverse()) && RegOk(CycleUniverse(), Reg2())
  {
    CycleWellFormed();
  }

  /** Building B to A's body reaches A to B, which is already reserved. */
  lemma AddSecond()
    ensures WellFormed(CycleUniverse()) && RegOk(CycleUniverse(), Reg2())
    ensures var o := AddMethod(CycleEnv(), Reg2(), BToA());
      o.err.None? && o.reg.lookup == Reg2().lookup && o.reg.names == Reg2().names && |o.reg.file| == 1
  {
    Reg2Ok();
    var env := CycleEnv();
    var u := env.u;
    var src := VariableID(Id("source"));
    ListOnly(env, Reg2(), [], src, 1, 0);
    var ts := Namer.FreshName(u[0].ident, []);
    var index := Namer.FreshName("i", [ts]);
    assert SigOf(u, 0, 1) in Reg2().lookup;
    var e := Build(env, Reg2(), [ts, index], VariableID(Index(src.code, Id(index))), 0, 1);
    assert e.reg == Reg2() && e.res.Built?;
  }

  lemma ExtractSecond(locals: seq<string>, src: JenID)
    ensures WellFormed(CycleUniverse()) && RegOk(CycleUniverse(), Reg1())
    ensures var o := Extract(CycleEnv(), Reg1(), locals, src, 1, 0);
      o.res == CallTo(BToA(), src) && o.reg.lookup == Reg2().lookup && |o.reg.file| == 1
  {
    Reg2Ok();
    var env := CycleEnv();
    var u := env.u;
    assert MethodBase(u[1], u[0]) == "BToA";
    assert "BToA" !in ["AToB"];
    assert Namer.FreshName("BToA", ["AToB"]) == "BToA";
    assert Reserve(u, Reg1(), 1, 0, "BToA") == Reg2();
    AddSecond();
    var added := AddMethod(env, Reg2(), BToA());
    assert SigOf(u, 1, 0) in added.reg.lookup;
    var again := Build(env, added.reg, locals, src, 1, 0);
    assert again == Out(added.reg, locals, CallTo(BToA(), src));
    assert Extract(env, Reg1(), locals, src, 1, 0) == again;
  }

  lemma AddFirst()
    ensures WellFormed(CycleUniverse()) && RegOk(CycleUniverse(), Reg1())
    ensures var o := AddMethod(CycleEnv(), Reg1(), AToB());
      o.err.None? && o.reg.lookup == Reg2().lookup && |o.reg.file| == 2
  {
    Reg2Ok();
    var env := CycleEnv();
    var u := env.u;
    assert u[0] == CycleDesc(0) && u[1] == CycleDesc(1);
    var src := VariableID(Id("source"));
    var ts := Namer.FreshName(u[1].ident, []);
    var index := Namer.FreshName("i", [ts]);
    var elemSrc := VariableID(Index(src.code, Id(index)));
    ExtractSecond([ts, index], elemSrc);
    var e := Build(env, Reg1(), [ts, index], elemSrc, 1, 0);
    assert e == Extract(env, Reg1(), [ts, index], elemSrc, 1, 0);
    var list := ListBuilder.Assemble(false, src.code, "B", ts, index, "B", "A", e.res);
    assert list.Built?;
    ListOnly(env, Reg1(), [], src, 0, 1);
    var o := BuildNoLookup(env, Reg1(), [], src, 0, 1);
    assert o == Out(e.reg, e.locals, list);
    assert AddMethod(env, Reg1(), AToB())
        == AddOut(e.reg.(file := e.reg.file + [MethodFunc(env, AToB(), list.stmts + [Return(list.id.code)])]), None);
  }

  /** A to B over the mutually recursive A and B: exactly two methods are
      extracted, A to B and B to A, and the result is a call to A to B. */
  lemma CycleTwoMethods(locals: seq<string>, src: JenID)
    ensures WellFormed(CycleUniverse())
    ensures var o := Build(CycleEnv(), Empty(), locals, src, 0, 1);
      o.res == CallTo(AToB(), src)
      && o.reg.lookup == map[Signature("A", "B") := AToB(), Signature("B", "A") := BToA()]
      && |o.reg.file| == 2
  {
    CycleWellFormed();
    var env := CycleEnv();
    var u := env.u;
    assert MethodBase(u[0], u[1]) == "AToB";
    assert Namer.FreshName("AToB", []) == "AToB";
    assert Reserve(u, Empty(), 0, 1, "AToB") == Reg1();
    AddFirst();
    var added := AddMethod(env, Reg1(), AToB());
    assert SigOf(u, 0, 1) in added.reg.lookup;
    var again := Build(env, added.reg, locals, src, 0, 1);
    assert again == Out(added.reg, locals, CallTo(AToB(), src));
    assert Extract(env, Empty(), locals, src, 0, 1) == again;
    assert Build(env, Empty(), locals, src, 0, 1) == again;
  }
}
