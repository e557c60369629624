/** The builder package's shared vocabulary: the abstract syntax of emitted
    code, expression handles classified as variable or other, build errors
    carrying a path of frames, and the result of a build. */
module Builder {

  datatype Option<+T> = None | Some(value: T)

  datatype Result<+T, +E> = Ok(value: T) | Err(error: E)

  /** Expressions of the emitted Go code. */
  datatype Expr =
    | Id(name: string)
    | Index(base: Expr, index: Expr)                   // base[index]
    | Len(arg: Expr)                                   // len(arg)
    | Nil
    | NotEqual(left: Expr, right: Expr)                // left != right
    | Make(typ: string, length: Expr, capacity: Expr)  // make(typ, length, capacity)
    | MethodCall(recv: string, callee: string, arg: Expr)      // recv.callee(arg)
    | QualCall(pkg: string, fn: string, args: seq<Expr>)       // pkg.fn(args...)
    | RuleCode(rule: string, arg: Expr)                // emitted by a rule this model keeps abstract

  /** A built expression: a variable may be evaluated again without effect,
      any other expression (a call, say) may not. */
  datatype JenID = VariableID(code: Expr) | OtherID(code: Expr)

  /** Statements of the emitted Go code. */
  datatype Stmt =
    | Define(name: string, value: Expr)                // name := value
    | VarDecl(name: string, typ: string)               // var name typ
    | Assign(lhs: Expr, rhs: Expr)                     // lhs = rhs
    | If(cond: Expr, body: seq<Stmt>)
    | CountedFor(index: string, bound: Expr, body: seq<Stmt>)  // for index := 0; index < bound; index++
    | Return(value: Expr)

  /** func (c *recvType) name(source sourceType) targetType { body } */
  datatype FuncDecl = FuncDecl(recvType: string, name: string, sourceType: string, targetType: string, body: seq<Stmt>)

  /** One breadcrumb of an error path (builder.Path). */
  datatype Frame = Frame(sourceId: string, targetId: string, sourceType: string, targetType: string)

  datatype Cause = TypeMismatch(sourceType: string, targetType: string)

  /** A build error: its original cause and the frames attached on the way
      out, the outermost first. */
  datatype Error = Error(cause: Cause, path: seq<Frame>)

  /** Attach the frame of an enclosing level to an error that passes through it. */
  function Lift(e: Error, f: Frame): Error
  {
    Error(e.cause, [f] + e.path)
  }

  /** The statements and the result expression of a build, or its error. */
  datatype BuildResult = Built(stmts: seq<Stmt>, id: JenID) | Failed(err: Error)
}
