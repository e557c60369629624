/** Structural view of a Go type, as the rule builders see it (xtype.Type).
    Types live in an id-indexed universe so that named types may refer to
    each other, or to themselves, through their element type. */
module Types {

  type TypeId = nat

  /** The shape flags a rule looks at, the element type of a list or array,
      and the canonical identity string (types.Type.String()) that keys the
      method registry. */
  datatype TypeDesc = TypeDesc(
    ident: string,
    named: bool,
    basic: bool,
    list: bool,
    listFixed: bool,
    inner: TypeId)

  type Universe = map<TypeId, TypeDesc>

  /** A side worth a standalone conversion method: named and not basic. */
  predicate Extractable(d: TypeDesc)
  {
    d.named && !d.basic
  }

  /** Every element type is declared; only an extractable type may refer to
      a type declared at or after itself (Go admits a cycle only through a
      named type). */
  ghost predicate WellFormed(u: Universe)
  {
    (forall id :: id in u && u[id].list ==> u[id].inner in u)
    && (forall id :: id in u && u[id].list && !Extractable(u[id]) ==> u[id].inner < id)
  }

  /** Structural size of a type expression, with extractable types as leaves. */
  ghost function Size(u: Universe, id: TypeId): nat
    requires WellFormed(u) && id in u
    decreases id
  {
    if Extractable(u[id]) then 1
    else if u[id].list then 1 + Size(u, u[id].inner)
    else 1
  }

  /** Size of a type unfolded one level, even when it is extractable: what a
      rule builder working on the type's own structure recurses into. */
  ghost function Body(u: Universe, id: TypeId): nat
    requires WellFormed(u) && id in u
  {
    if u[id].list then 1 + Size(u, u[id].inner) else 1
  }
}
