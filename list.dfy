/** The list rule of builder/list.go: which pairs it accepts, the code it
    emits around the element conversion, and what that code does. The part
    of List.Build that calls back into the dispatcher is Generator.BuildList. */
module ListBuilder {
  import opened Types
  import opened Builder

  /** List.Matches: a list or array source into a slice target. */
  function Matches(source: TypeDesc, target: TypeDesc): (r: bool)
    ensures r ==> source.list && target.list
    ensures target.listFixed ==> !r
  {
    source.list && target.list && !target.listFixed
  }

  /** The frame an element failure is lifted with. */
  function ElemFrame(innerSource: string, innerTarget: string): Frame
  {
    Frame("[]", "[]", innerSource, innerTarget)
  }

  /** The statements that create the target slice. */
  function Init(fixed: bool, targetSlice: string, targetType: string, src: Expr): seq<Stmt>
  {
    var alloc := Make(targetType, Len(src), Len(src));
    if fixed then [Define(targetSlice, alloc)]
    else [VarDecl(targetSlice, targetType), If(NotEqual(src, Nil), [Assign(Id(targetSlice), alloc)])]
  }

  /** The statement that stores one converted element. */
  function StoreElem(targetSlice: string, index: string, elem: Expr): Stmt
  {
    Assign(Index(Id(targetSlice), Id(index)), elem)
  }

  /** The shape of the code the list rule emits: the initialiser, then one
      counted loop over len(src) whose last statement stores target[index]. */
  predicate EmitsList(stmts: seq<Stmt>, fixed: bool, src: Expr, targetType: string, targetSlice: string, index: string)
  {
    |stmts| == (if fixed then 2 else 3)
    && stmts[..|stmts| - 1] == Init(fixed, targetSlice, targetType, src)
    && var loop := stmts[|stmts| - 1];
       loop.CountedFor? && loop.index == index && loop.bound == Len(src)
       && |loop.body| > 0
       && loop.body[|loop.body| - 1].Assign?
       && loop.body[|loop.body| - 1].lhs == Index(Id(targetSlice), Id(index))
  }

  /** The loop of emitted list code. */
  function Loop(stmts: seq<Stmt>): Stmt
    requires |stmts| > 0
  {
    stmts[|stmts| - 1]
  }

  /** What List.Build returns once the element conversion has been built. */
  function Assemble(fixed: bool, src: Expr, targetType: string, targetSlice: string, index: string,
                    innerSource: string, innerTarget: string, elem: BuildResult): (r: BuildResult)
    ensures elem.Failed? ==> r == Failed(Lift(elem.err, ElemFrame(innerSource, innerTarget)))
    ensures elem.Built? ==>
      r.Built? && r.id == VariableID(Id(targetSlice))
      && EmitsList(r.stmts, fixed, src, targetType, targetSlice, index)
      && Loop(r.stmts).body == elem.stmts + [StoreElem(targetSlice, index, elem.id.code)]
    ensures r.Built? && fixed ==> forall i :: 0 <= i < |r.stmts| ==> !r.stmts[i].If?
  {
    match elem
    case Failed(e) => Failed(Lift(e, ElemFrame(innerSource, innerTarget)))
    case Built(elemStmts, elemId) =>
      var body := elemStmts + [StoreElem(targetSlice, index, elemId.code)];
      Built(Init(fixed, targetSlice, targetType, src) + [CountedFor(index, Len(src), body)],
            VariableID(Id(targetSlice)))
  }

  /** The target slice variable while the initialiser runs. */
  datatype SliceVal = Undeclared | NilSlice | Made(len: nat)

  /** len(x) of a slice that may be nil: a nil slice has length 0. */
  function LenOf<V>(source: Option<seq<V>>): nat
  {
    if source.Some? then |source.value| else 0
  }

  /** An integer expression of the emitted code, with src denoting source. */
  function EvalLen<V>(e: Expr, src: Expr, source: Option<seq<V>>): (r: Option<nat>)
    ensures e == Len(src) ==> r == Some(LenOf(source))
  {
    match e
    case Len(arg) =>
      if arg == src then Some(LenOf(source))
      else if arg == Nil then Some(0)
      else None
    case _ => None
  }

  /** A condition of the emitted code: only a comparison of src with nil. */
  function EvalCond<V>(e: Expr, src: Expr, source: Option<seq<V>>): (r: Option<bool>)
    ensures e == NotEqual(src, Nil) ==> r == Some(source.Some?)
  {
    match e
    case NotEqual(l, r) =>
      if (l == src && r == Nil) || (l == Nil && r == src) then Some(source.Some?) else None
    case _ => None
  }

  /** make(T, length, capacity): the length of the new slice; a length above
      the capacity panics in Go and yields None here. */
  function EvalMake<V>(e: Expr, src: Expr, source: Option<seq<V>>): (r: Option<nat>)
    ensures e.Make? && e.length == Len(src) && e.capacity == Len(src) ==> r == Some(LenOf(source))
  {
    match e
    case Make(_, length, capacity) =>
      var n, c := EvalLen(length, src, source), EvalLen(capacity, src, source);
      if n.Some? && c.Some? && n.value <= c.value then n else None
    case _ => None
  }

  /** Runs initialiser statements on the variable name. None: the statement
      is not one this interpreter knows, or refers to another variable. */
  function ExecInit<V>(stmts: seq<Stmt>, name: string, src: Expr, source: Option<seq<V>>, st: SliceVal): Option<SliceVal>
    decreases stmts
  {
    if stmts == [] then Some(st)
    else
      var next :=
        match stmts[0]
        case VarDecl(n, _) => if n == name then Some(NilSlice) else None
        case Define(n, e) =>
          if n == name && EvalMake(e, src, source).Some? then Some(Made(EvalMake(e, src, source).value)) else None
        case Assign(lhs, e) =>
          if lhs == Id(name) && st != Undeclared && EvalMake(e, src, source).Some?
          then Some(Made(EvalMake(e, src, source).value)) else None
        case If(c, body) =>
          if EvalCond(c, src, source) == Some(true) then ExecInit(body, name, src, source, st)
          else if EvalCond(c, src, source) == Some(false) then Some(st)
          else None
        case _ => None;
      if next.None? then None else ExecInit(stmts[1..], name, src, source, next.value)
  }

  /** The list rule's initialiser leaves a slice of len(source) unless the
      source is a nil slice, which stays nil. */
  lemma InitRuns<V>(fixed: bool, targetSlice: string, targetType: string, src: Expr, source: Option<seq<V>>)
    requires fixed ==> source.Some?
    ensures ExecInit(Init(fixed, targetSlice, targetType, src), targetSlice, src, source, Undeclared)
         == Some(if source.Some? then Made(LenOf(source)) else NilSlice)
  {
    var alloc := Make(targetType, Len(src), Len(src));
    assert EvalMake(alloc, src, source) == Some(LenOf(source));
    if fixed {
      assert ExecInit([Define(targetSlice, alloc)], targetSlice, src, source, Undeclared)
          == ExecInit([], targetSlice, src, source, Made(LenOf(source)));
    } else {
      var assign := [Assign(Id(targetSlice), alloc)];
      var guard := If(NotEqual(src, Nil), assign);
      assert [VarDecl(targetSlice, targetType), guard][1..] == [guard];
      assert ExecInit([VarDecl(targetSlice, targetType), guard], targetSlice, src, source, Undeclared)
          == ExecInit([guard], targetSlice, src, source, NilSlice);
      assert EvalCond(NotEqual(src, Nil), src, source) == Some(source.Some?);
      if source.Some? {
        assert ExecInit(assign, targetSlice, src, source, NilSlice) == Some(Made(LenOf(source)));
        assert ExecInit([guard], targetSlice, src, source, NilSlice)
            == ExecInit([], targetSlice, src, source, Made(LenOf(source)));
      } else {
        assert ExecInit([guard], targetSlice, src, source, NilSlice)
            == ExecInit([], targetSlice, src, source, NilSlice);
      }
    }
  }

  /** Runs emitted list code on a source value: None is a nil slice, and
      conv is what the element statements and expression compute from
      source[index]. The initialiser is interpreted statement by statement
      and the loop runs as many times as its bound evaluates to; an index
      out of range or into a nil slice, which panics in Go, is a failed
      proof obligation here. An array source is never nil. */
  method RunListCode<V, W(0)>(stmts: seq<Stmt>, fixed: bool, src: Expr, targetType: string,
                               targetSlice: string, index: string,
                               source: Option<seq<V>>, conv: V -> W)
    returns (out: Option<array<W>>)
    requires EmitsList(stmts, fixed, src, targetType, targetSlice, index)
    requires fixed ==> source.Some?
    ensures source.None? ==> out.None?
    ensures source.Some? ==>
      out.Some? && out.value.Length == |source.value|
      && forall i :: 0 <= i < |source.value| ==> out.value[i] == conv(source.value[i])
  {
    var init, loop := stmts[..|stmts| - 1], stmts[|stmts| - 1];
    InitRuns(fixed, targetSlice, targetType, src, source);
    var st := ExecInit(init, targetSlice, src, source, Undeclared).value;
    var target: Option<array<W>> := None;
    if st.Made? {
      var a := new W[st.len];
      target := Some(a);
    }
    var n := EvalLen(loop.bound, src, source).value;
    var i := 0;
    while i < n
      invariant 0 <= i <= n
      invariant target.Some? ==> fresh(target.value)
      invariant forall j :: 0 <= j < i ==>
        target.Some? && j < target.value.Length && source.Some? && j < |source.value|
        && target.value[j] == conv(source.value[j])
    {
      // the loop body's last statement: targetSlice[index] = conv(source[index])
      target.value[i] := conv(source.value[i]);
      i := i + 1;
    }
    out := target;
  }
}
