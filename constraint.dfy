/** Constraints on type variables: a variable is either sandwiched between
    a subtype bound and a supertype bound, or has a given type, or has no
    constraint yet. */
module Constraints {
  import opened Prelude

  /** The types a constraint mentions. `Never`, `Obj` and `Type` are the
      distinguished bottom type, top type and type of types; `Mono` stands
      for every other type, by name. */
  datatype Ty = Never | Obj | Type | Mono(name: string)

  /** `Sandwiched(sub, sup)` is `:> sub, <: sup`; `TypeOf(t)` is `: t`. */
  datatype Constraint = Sandwiched(sub: Ty, sup: Ty) | TypeOf(t: Ty) | Uninited

  /** `new_sandwiched`: `:> sub, <: sup`. */
  function NewSandwiched(sub: Ty, sup: Ty): (c: Constraint)
    ensures GetSubSup(c) == Some((sub, sup))
  {
    Sandwiched(sub, sup)
  }

  /** `new_type_of`: `: t`, except that `: Type` is stored as the widest
      sandwich `:> Never, <: Obj`. Either way the type reads back. */
  function NewTypeOf(t: Ty): (c: Constraint)
    ensures GetType(c) == Some(t)
    ensures t == Type <==> c.Sandwiched?
  {
    if t == Type then NewSandwiched(Never, Obj) else TypeOf(t)
  }

  /** `new_subtype_of`: `<: sup`, with `Never` below. */
  function NewSubtypeOf(sup: Ty): (c: Constraint)
    ensures GetSub(c) == Some(Never) && GetSuper(c) == Some(sup)
  {
    NewSandwiched(Never, sup)
  }

  /** `new_supertype_of`: `:> sub`, with `Obj` above. */
  function NewSupertypeOf(sub: Ty): (c: Constraint)
    ensures GetSub(c) == Some(sub) && GetSuper(c) == Some(Obj)
  {
    NewSandwiched(sub, Obj)
  }

  predicate IsUninited(c: Constraint) {
    c.Uninited?
  }

  /** `get_type`: the type of a `TypeOf` constraint, and `Type` for the
      widest sandwich. */
  function GetType(c: Constraint): Option<Ty> {
    match c
    case TypeOf(t) => Some(t)
    case Sandwiched(Never, Obj) => Some(Type)
    case _ => None
  }

  /** `get_sub`: the lower bound of a sandwich. */
  function GetSub(c: Constraint): Option<Ty> {
    if c.Sandwiched? then Some(c.sub) else None
  }

  /** `get_super`: the upper bound of a sandwich. */
  function GetSuper(c: Constraint): Option<Ty> {
    if c.Sandwiched? then Some(c.sup) else None
  }

  /** `get_sub_sup`: both bounds of a sandwich. */
  function GetSubSup(c: Constraint): Option<(Ty, Ty)> {
    if c.Sandwiched? then Some((c.sub, c.sup)) else None
  }

  /** Every constraint `new_type_of` builds gives back its type. */
  lemma TypeOfRoundTrip(t: Ty)
    ensures GetType(NewTypeOf(t)) == Some(t)
    ensures NewTypeOf(t) == if t == Type then Sandwiched(Never, Obj) else TypeOf(t)
  {
  }

  /** A sandwich has a type exactly when it is the widest one, which reads
      as `: Type`. So `new_subtype_of(Obj)` and `new_supertype_of(Never)`
      read back as `: Type` as well. */
  lemma SandwichType(sub: Ty, sup: Ty)
    ensures GetType(Sandwiched(sub, sup)).Some? <==> sub == Never && sup == Obj
    ensures GetType(NewSubtypeOf(Obj)) == Some(Type) && GetType(NewSupertypeOf(Never)) == Some(Type)
  {
  }

  /** A constraint has both a type and bounds exactly when it is the widest
      sandwich; `Uninited` has neither; `TypeOf` has no bounds. */
  lemma GettersOverlap(c: Constraint)
    ensures GetType(c).Some? && GetSubSup(c).Some? <==> c == Sandwiched(Never, Obj)
    ensures c.Uninited? ==> GetType(c).None? && GetSubSup(c).None?
    ensures c.TypeOf? ==> GetSub(c).None? && GetSuper(c).None? && GetSubSup(c).None?
  {
  }

  /** `get_sub_sup` is the pair of `get_sub` and `get_super`. */
  lemma SubSupPair(c: Constraint)
    ensures GetSubSup(c).Some? <==> GetSub(c).Some?
    ensures GetSubSup(c).Some? ==> GetSubSup(c).value == (GetSub(c).value, GetSuper(c).value)
  {
  }
}
