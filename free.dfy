/** Free type variables. A variable is a shared mutable cell holding a
    `FreeKind`: linked to a type (for good, or undoably, remembering what
    it held before), or unbound with a level and a constraint, named or
    numbered. Every holder of the cell sees each update, which a Dafny
    object models directly. */
module FreeVars {
  import opened Prelude
  import opened Constraints

  /** `usize::MAX` on a 64-bit target. */
  const USIZE_MAX: int := 0xFFFF_FFFF_FFFF_FFFF

  type Usize = x: int | 0 <= x <= USIZE_MAX

  /** The level of a generalized variable. */
  const GENERIC_LEVEL: Usize := USIZE_MAX

  datatype FreeKind =
    | Linked(t: Ty)
    | UndoableLinked(t: Ty, previous: FreeKind)
    | Unbound(id: Usize, lev: Usize, constraint: Constraint)
    | NamedUnbound(name: string, lev: Usize, constraint: Constraint)

  /** What a link target answers when asked for its level, its unbound
      name or its constraint: the types here hold no type variable, so
      nothing. */
  function TyLevel(t: Ty): Option<Usize> {
    None
  }

  function TyUnboundName(t: Ty): Option<string> {
    None
  }

  function TyConstraint(t: Ty): Option<Constraint> {
    None
  }

  /** `PartialEq for FreeKind`: two links are equal when their targets are,
      whether or not they can be undone and whatever they replaced; two
      unbound variables are equal when all their fields are. */
  predicate KindEq(a: FreeKind, b: FreeKind) {
    match (a, b)
    case (Linked(t1), Linked(t2)) => t1 == t2
    case (Linked(t1), UndoableLinked(t2, _)) => t1 == t2
    case (UndoableLinked(t1, _), Linked(t2)) => t1 == t2
    case (UndoableLinked(t1, _), UndoableLinked(t2, _)) => t1 == t2
    case (Unbound(i1, l1, c1), Unbound(i2, l2, c2)) => i1 == i2 && l1 == l2 && c1 == c2
    case (NamedUnbound(n1, l1, c1), NamedUnbound(n2, l2, c2)) => n1 == n2 && l1 == l2 && c1 == c2
    case _ => false
  }

  /** A link target, whichever kind of link. */
  function Target(k: FreeKind): Ty
    requires k.Linked? || k.UndoableLinked?
  {
    k.t
  }

  /** `KindEq` is an equivalence: it compares link targets, and otherwise
      is plain equality. */
  lemma KindEqMeaning(a: FreeKind, b: FreeKind)
    ensures KindEq(a, a)
    ensures KindEq(a, b) <==> KindEq(b, a)
    ensures (a.Linked? || a.UndoableLinked?) && (b.Linked? || b.UndoableLinked?)
            ==> (KindEq(a, b) <==> Target(a) == Target(b))
    ensures (a.Unbound? || a.NamedUnbound?) ==> (KindEq(a, b) <==> a == b)
  {
  }

  lemma KindEqTransitive(a: FreeKind, b: FreeKind, c: FreeKind)
    requires KindEq(a, b) && KindEq(b, c)
    ensures KindEq(a, c)
  {
  }

  /** The decimal digits of `n`, most significant first. */
  function Decimal(n: nat): (s: string)
    ensures |s| >= 1 && forall k :: 0 <= k < |s| ==> '0' <= s[k] <= '9'
  {
    if n < 10 then [Digit(n)] else Decimal(n / 10) + [Digit(n % 10)]
  }

  function Digit(d: nat): (c: char)
    requires d < 10
    ensures '0' <= c <= '9' && (c as int) - ('0' as int) == d
  {
    (d + '0' as int) as char
  }

  /** The number a string of decimal digits denotes. */
  function DecimalValue(s: string): nat
    requires forall k :: 0 <= k < |s| ==> '0' <= s[k] <= '9'
  {
    if s == [] then 0
    else DecimalValue(s[..|s| - 1]) * 10 + ((s[|s| - 1] as int) - ('0' as int))
  }

  /** Reading the decimal digits of `n` gives back `n`. */
  lemma {:induction false} DecimalRoundTrip(n: nat)
    ensures DecimalValue(Decimal(n)) == n
  {
    if n >= 10 {
      var s := Decimal(n);
      assert s[..|s| - 1] == Decimal(n / 10);
      DecimalRoundTrip(n / 10);
    }
  }

  /** The name `%id` of a numbered variable. */
  function UnboundIdName(id: Usize): (s: string)
    ensures |s| >= 2 && s[0] == '%'
    ensures forall k :: 1 <= k < |s| ==> '0' <= s[k] <= '9'
  {
    "%" + Decimal(id)
  }

  /** Distinct ids give distinct names. */
  lemma UnboundIdNameInjective(i: Usize, j: Usize)
    requires UnboundIdName(i) == UnboundIdName(j)
    ensures i == j
  {
    assert Decimal(i) == UnboundIdName(i)[1..];
    assert Decimal(j) == UnboundIdName(j)[1..];
    DecimalRoundTrip(i);
    DecimalRoundTrip(j);
  }

  /** `usize::saturating_add(lev, 1)`. */
  function SaturatingSucc(lev: Usize): Usize
  {
    if lev < USIZE_MAX then lev + 1 else USIZE_MAX
  }

  /** `Option<Level>`'s order: `None` is below every `Some`. */
  predicate LevelBelow(a: Option<Usize>, b: Option<Usize>) {
    match (a, b)
    case (None, Some(_)) => true
    case (Some(x), Some(y)) => x < y
    case _ => false
  }

  /** The counter behind fresh variable ids (`UNBOUND_ID`), with the ids
      handed out so far. */
  class IdGen {
    var last: Usize
    ghost var issued: set<Usize>

    ghost predicate Valid()
      reads this
    {
      forall i :: i in issued ==> i <= last
    }

    constructor ()
      ensures Valid() && last == 0 && issued == {}
    {
      last := 0;
      issued := {};
    }

    /** Bumps the counter and returns the new id, which is larger than every
        id handed out before. The counter overflowing panics. */
    method Next() returns (id: Usize)
      requires Valid() && last < USIZE_MAX
      modifies this
      ensures Valid()
      ensures id == old(last) + 1 && last == id
      ensures forall i :: i in old(issued) ==> i < id
      ensures issued == old(issued) + {id}
    {
      last := last + 1;
      id := last;
      issued := issued + {id};
    }

    /** `FreeKind::new_unbound`. */
    method NewUnboundKind(lev: Usize, c: Constraint) returns (k: FreeKind)
      requires Valid() && last < USIZE_MAX
      modifies this
      ensures Valid()
      ensures k == Unbound(last, lev, c) && last == old(last) + 1
      ensures forall i :: i in old(issued) ==> i < k.id
      ensures issued == old(issued) + {k.id}
    {
      var id := Next();
      k := Unbound(id, lev, c);
    }

    /** `Free::new_unbound`: a fresh cell holding a numbered variable. */
    method NewUnbound(lev: Usize, c: Constraint) returns (f: Free)
      requires Valid() && last < USIZE_MAX
      modifies this
      ensures Valid() && fresh(f)
      ensures f.kind == Unbound(last, lev, c) && last == old(last) + 1
      ensures forall i :: i in old(issued) ==> i < f.kind.id
      ensures issued == old(issued) + {f.kind.id}
      ensures f.IsUnbound() && f.Level() == Some(lev) && f.GetConstraint() == Some(c)
      ensures f.UnboundName() == Some(UnboundIdName(last))
    {
      var id := Next();
      f := new Free(Unbound(id, lev, c));
    }
  }

  /** A type variable: one shared cell. */
  class Free {
    var kind: FreeKind

    /** `Free::new`. */
    constructor (k: FreeKind)
      ensures kind == k
    {
      kind := k;
    }

    /** `Free::new_named_unbound`. */
    constructor NewNamedUnbound(name: string, lev: Usize, c: Constraint)
      ensures kind == NamedUnbound(name, lev, c)
      ensures IsUnbound() && Level() == Some(lev) && GetConstraint() == Some(c)
      ensures UnboundName() == Some(name)
    {
      kind := NamedUnbound(name, lev, c);
    }

    /** `Free::new_linked`. */
    constructor NewLinked(t: Ty)
      ensures kind == Linked(t)
      ensures IsLinked() && Crack() == t && Level() == TyLevel(t)
    {
      kind := Linked(t);
    }

    /** `is_linked`: linked, undoably or not. */
    predicate IsLinked()
      reads this
    {
      kind.Linked? || kind.UndoableLinked?
    }

    predicate IsUndoableLinked()
      reads this
    {
      kind.UndoableLinked?
    }

    /** `is_unbound`, the complement of `is_linked`. */
    predicate IsUnbound()
      reads this
      ensures IsUnbound() <==> !IsLinked()
    {
      kind.Unbound? || kind.NamedUnbound?
    }

    /** `crack`: the link target; panics on an unbound variable. */
    function Crack(): Ty
      requires IsLinked()
      reads this
    {
      Target(kind)
    }

    /** `crack_constraint`: the constraint; panics on a linked variable. */
    function CrackConstraint(): Constraint
      requires IsUnbound()
      reads this
    {
      kind.constraint
    }

    /** `level`: the level of an unbound variable, else the target's. */
    function Level(): Option<Usize>
      reads this
    {
      match kind
      case Unbound(_, lev, _) => Some(lev)
      case NamedUnbound(_, lev, _) => Some(lev)
      case Linked(t) => TyLevel(t)
      case UndoableLinked(t, _) => TyLevel(t)
    }

    /** `is_generalized`. */
    predicate IsGeneralized()
      reads this
    {
      Level() == Some(GENERIC_LEVEL)
    }

    /** `unbound_name`: the name of a named variable, `%id` for a numbered
        one, else the target's. */
    function UnboundName(): Option<string>
      reads this
    {
      match kind
      case NamedUnbound(name, _, _) => Some(name)
      case Unbound(id, _, _) => Some(UnboundIdName(id))
      case Linked(t) => TyUnboundName(t)
      case UndoableLinked(t, _) => TyUnboundName(t)
    }

    /** `constraint`: the constraint of an unbound variable, else the
        target's. */
    function GetConstraint(): Option<Constraint>
      reads this
    {
      match kind
      case Unbound(_, _, c) => Some(c)
      case NamedUnbound(_, _, c) => Some(c)
      case Linked(t) => TyConstraint(t)
      case UndoableLinked(t, _) => TyConstraint(t)
    }

    /** `get_type`, `get_sub`, `get_super`, `get_subsup`: the constraint's
        getters, through `constraint`. */
    function GetTypeOf(): Option<Ty>
      reads this
    {
      match GetConstraint()
      case None => None
      case Some(c) => GetType(c)
    }

    function GetSubOf(): Option<Ty>
      reads this
    {
      match GetConstraint()
      case None => None
      case Some(c) => GetSub(c)
    }

    function GetSuperOf(): Option<Ty>
      reads this
    {
      match GetConstraint()
      case None => None
      case Some(c) => GetSuper(c)
    }

    function GetSubSupOf(): Option<(Ty, Ty)>
      reads this
    {
      match GetConstraint()
      case None => None
      case Some(c) => GetSubSup(c)
    }

    /** `replace`: overwrites the cell. */
    method Replace(to: FreeKind)
      modifies this
      ensures kind == to
    {
      kind := to;
    }

    /** `link`: links the variable to `to` for good, dropping whatever it
        held, including an undo history. */
    method Link(to: Ty)
      modifies this
      ensures kind == Linked(to)
      ensures IsLinked() && Crack() == to && !IsUnbound()
      ensures Level() == TyLevel(to) && UnboundName() == TyUnboundName(to)
      ensures GetConstraint() == TyConstraint(to)
    {
      kind := Linked(to);
    }

    /** `undoable_link`: links the variable to `to`, remembering the whole
        previous kind. */
    method UndoableLink(to: Ty)
      modifies this
      ensures kind == UndoableLinked(to, old(kind))
      ensures IsLinked() && Crack() == to
      ensures Level() == TyLevel(to) && GetConstraint() == TyConstraint(to)
    {
      var prev := kind;
      kind := UndoableLinked(to, prev);
    }

    /** `undo`: puts back what the last undoable link replaced; panics on
        a cell that is not undoably linked. */
    method Undo()
      requires IsUndoableLinked()
      modifies this
      ensures kind == old(kind).previous
    {
      var prev := kind.previous;
      kind := prev;
    }

    /** `set_level`: sets the level of an unbound variable; the target's
        level is set for a plain link (a no-op for the types here), and an
        undoable link is left alone. While the variable has bounds they are
        visited under a temporary undoable link to the lower bound, which is
        undone afterwards. */
    method SetLevel(level: Usize)
      modifies this
      ensures IsUnbound() <==> old(IsUnbound())
      ensures old(IsUnbound()) ==> kind == old(kind).(lev := level)
      ensures old(IsLinked()) ==> kind == old(kind)
      ensures old(IsUnbound()) ==> Level() == Some(level) && GetConstraint() == old(GetConstraint())
                                   && UnboundName() == old(UnboundName())
    {
      if kind.Unbound? || kind.NamedUnbound? {
        kind := kind.(lev := level);
        var subsup := GetSubSupOf();
        if subsup.Some? {
          ghost var before := kind;
          UndoableLink(subsup.value.0);
          Undo();
          assert kind == before;
        }
      }
    }

    /** `lower`: raises the level to `level` when it is below it; never
        lowers it. An unbound variable ends at the larger of the two. */
    method Lower(level: Usize)
      modifies this
      ensures old(IsUnbound()) ==> kind == old(kind).(lev := if old(kind.lev) < level then level else old(kind.lev))
      ensures old(IsLinked()) ==> kind == old(kind)
      ensures old(IsUnbound()) ==> kind.lev >= old(kind.lev) && kind.lev >= level
      ensures old(IsUnbound()) && old(kind.lev) < level ==> Level() == Some(level)
      ensures old(IsUnbound()) && old(kind.lev) >= level ==> Level() == old(Level())
    {
      if LevelBelow(Level(), Some(level)) {
        SetLevel(level);
      }
    }

    /** `lift`: adds one to the level, saturating at `usize::MAX`. */
    method Lift()
      modifies this
      ensures old(IsUnbound()) ==> kind == old(kind).(lev := SaturatingSucc(old(kind.lev)))
      ensures old(IsLinked()) ==> kind == old(kind)
      ensures old(IsGeneralized()) && old(IsUnbound()) ==> IsGeneralized()
      ensures old(IsUnbound()) && !old(IsGeneralized()) ==> Level() == Some(old(kind.lev) + 1)
    {
      var lev := Level();
      if lev.Some? {
        SetLevel(SaturatingSucc(lev.value));
      }
    }

    /** `generalize`: sets the level to `GENERIC_LEVEL`. */
    method Generalize()
      modifies this
      ensures old(IsUnbound()) ==> kind == old(kind).(lev := GENERIC_LEVEL) && IsGeneralized()
      ensures old(IsLinked()) ==> kind == old(kind)
    {
      SetLevel(GENERIC_LEVEL);
    }

    /** `update_constraint`: replaces the constraint of an unbound variable,
        except that a generalized one keeps its constraint unless
        `inInstOrGen` is set. A linked variable forwards the call to its
        target, which for the types here has no constraint to update. */
    method UpdateConstraint(c: Constraint, inInstOrGen: bool)
      modifies this
      ensures old(IsUnbound()) && !inInstOrGen && old(kind.lev) == GENERIC_LEVEL ==> kind == old(kind)
      ensures old(IsUnbound()) && (inInstOrGen || old(kind.lev) != GENERIC_LEVEL)
              ==> kind == old(kind).(constraint := c)
      ensures old(IsLinked()) ==> kind == old(kind)
      ensures old(IsUnbound()) && (inInstOrGen || !old(IsGeneralized()))
              ==> GetConstraint() == Some(c) && Level() == old(Level())
      ensures old(IsUnbound()) && !inInstOrGen && old(IsGeneralized()) ==> GetConstraint() == old(GetConstraint())
    {
      if kind.Unbound? || kind.NamedUnbound? {
        if !inInstOrGen && kind.lev == GENERIC_LEVEL {
          return;
        }
        kind := kind.(constraint := c);
      }
    }

    /** `detach`: a new, unshared variable with the same name (or a fresh
        id), level and constraint; panics on a linked variable. */
    method Detach(gen: IdGen) returns (f: Free)
      requires IsUnbound()
      requires gen.Valid() && (kind.Unbound? ==> gen.last < USIZE_MAX)
      modifies gen
      ensures fresh(f) && kind == old(kind) && gen.Valid() && f.IsUnbound()
      ensures f.kind.lev == kind.lev && f.kind.constraint == kind.constraint
      ensures kind.NamedUnbound? ==> f.kind == kind && unchanged(gen)
      ensures kind.Unbound? ==> f.kind.Unbound? && f.kind.id !in old(gen.issued)
                                && f.kind.id > old(gen.last)
      ensures kind.Unbound? && kind.id <= old(gen.last) ==> f.kind.id != kind.id
      ensures f.Level() == Level() && f.GetConstraint() == GetConstraint()
      ensures kind.NamedUnbound? ==> f.UnboundName() == UnboundName()
      ensures kind.Unbound? && kind.id <= old(gen.last) ==> f.UnboundName() != UnboundName()
    {
      if kind.NamedUnbound? {
        f := new Free.NewNamedUnbound(kind.name, kind.lev, kind.constraint);
      } else {
        f := gen.NewUnbound(kind.lev, kind.constraint);
        if kind.id <= old(gen.last) && f.UnboundName() == UnboundName() {
          UnboundIdNameInjective(f.kind.id, kind.id);
        }
      }
    }
  }
}
