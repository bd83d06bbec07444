/** The linker: one pass over a module's top-level expressions that turns
    class definitions into `ClassDef` nodes and folds each later `Methods`
    block into the `ClassDef` of the class it names. */
module Link {
  import opened Prelude

  /** The part of a type specification the linker looks at: a simple
      (predeclared) type name, or anything else. */
  datatype TypeSpec = Simple(name: string) | OtherSpec

  /** A `Methods` block: the class it is for, and an identity standing for
      its contents, which the linker does not look into. */
  datatype MethodsNode = MethodsNode(classSpec: TypeSpec, id: int)

  /** A top-level expression. `Call` keeps only the callee's name, when the
      callee is a plain name; `Other` stands for every other kind of
      expression, which the linker passes on untouched. */
  datatype Expr =
    | Def(def: DefNode)
    | Methods(methods: MethodsNode)
    | ClassDef(classDef: DefNode, methodsList: seq<MethodsNode>)
    | Call(obj: Option<string>)
    | Other(id: int)

  /** A definition: the identifier its signature binds, if it is a single
      identifier, and the expressions of its body block. */
  datatype DefNode = DefNode(ident: Option<string>, body: seq<Expr>)

  datatype Ast = Ast(name: string, exprs: seq<Expr>)

  /** A type-checking error. The linker itself raises only `NoVar` (a
      `Methods` block for a class that is not recorded); errors already in
      a linker's list are carried along. */
  datatype TyCheckError = NoVar(name: string) | EarlierError(id: int)

  /** Why `link` panics. `EmptyBody`, `NoIdent` and `UnsupportedClassSpec`
      come from the input; `IndexOutOfRange` and `NotAClassDef` only from a
      position map that does not match the output. */
  datatype PanicReason = EmptyBody | NoIdent | UnsupportedClassSpec | IndexOutOfRange | NotAClassDef

  /** What `link` gives: the linked module, the errors, or a panic. */
  datatype Outcome = Linked(ast: Ast) | Errors(errs: seq<TyCheckError>) | Panicked(reason: PanicReason)

  /** The linker's state during the pass: the output built so far, where
      each recorded class sits in it, and the errors so far. */
  datatype State = State(output: seq<Expr>, pos: map<string, nat>, errs: seq<TyCheckError>)

  /** A call whose callee is `Class`, `Inherit` or `Inheritable`. */
  predicate IsClassCall(e: Expr) {
    e.Call? && e.obj in {Some("Class"), Some("Inherit"), Some("Inheritable")}
  }

  /** A definition the linker turns into a class definition. */
  predicate DefinesClass(d: DefNode) {
    d.body != [] && IsClassCall(d.body[0])
  }

  /** One chunk of the pass. */
  function LinkChunk(st: State, chunk: Expr): Result<State, PanicReason> {
    match chunk
    case Def(d) =>
      if d.body == [] then Failure(EmptyBody)
      else if IsClassCall(d.body[0]) then
        if d.ident.None? then Failure(NoIdent)
        else Success(State(st.output + [ClassDef(d, [])], st.pos[d.ident.value := |st.output|], st.errs))
      else Success(st.(output := st.output + [chunk]))
    case Methods(m) =>
      if m.classSpec.OtherSpec? then Failure(UnsupportedClassSpec)
      else if m.classSpec.name in st.pos then
        var p := st.pos[m.classSpec.name];
        if p >= |st.output| then Failure(IndexOutOfRange)
        else if !st.output[p].ClassDef? then Failure(NotAClassDef)
        else Success(st.(output := st.output[p := Attach(st.output[p], m)]))
      else Success(st.(errs := st.errs + [NoVar(m.classSpec.name)]))
    case _ => Success(st.(output := st.output + [chunk]))
  }

  /** A class definition with one more `Methods` block at the end. */
  function Attach(c: Expr, m: MethodsNode): Expr
    requires c.ClassDef?
  {
    ClassDef(c.classDef, c.methodsList + [m])
  }

  /** The pass over the remaining chunks. */
  function LinkAll(st: State, chunks: seq<Expr>): Result<State, PanicReason>
    decreases |chunks|
  {
    if chunks == [] then Success(st)
    else
      match LinkChunk(st, chunks[0])
      case Failure(reason) => Failure(reason)
      case Success(st') => LinkAll(st', chunks[1..])
  }

  /** The result of linking `ast` from the state `st`. */
  function Finish(name: string, r: Result<State, PanicReason>): Outcome {
    match r
    case Failure(reason) => Panicked(reason)
    case Success(st) => if st.errs == [] then Linked(Ast(name, st.output)) else Errors(st.errs)
  }

  class Linker {
    var defRootPosMap: map<string, nat>
    var errs: seq<TyCheckError>

    /** `Linker::new`: no class recorded and no error. */
    constructor ()
      ensures defRootPosMap == map[] && errs == []
    {
      defRootPosMap := map[];
      errs := [];
    }

    /** `Linker::link`: drains the module front to back, building the new
        module in `output`; the position map and the error list are the
        linker's own fields. */
    method Link(ast: Ast) returns (r: Outcome)
      modifies this
      ensures var res := LinkAll(State([], old(defRootPosMap), old(errs)), ast.exprs);
              r == Finish(ast.name, res)
              && (res.Success? ==> defRootPosMap == res.value.pos && errs == res.value.errs)
    {
      var output: seq<Expr> := [];
      var rest := ast.exprs;
      ghost var whole := LinkAll(State([], defRootPosMap, errs), rest);
      while rest != []
        invariant whole == LinkAll(State(output, defRootPosMap, errs), rest)
        decreases |rest|
      {
        var chunk := rest[0];
        rest := rest[1..];
        match chunk
        case Def(d) =>
          if d.body == [] {
            return Panicked(EmptyBody);
          }
          if IsClassCall(d.body[0]) {
            if d.ident.None? {
              return Panicked(NoIdent);
            }
            defRootPosMap := defRootPosMap[d.ident.value := |output|];
            output := output + [ClassDef(d, [])];
          } else {
            output := output + [chunk];
          }
        case Methods(m) =>
          if m.classSpec.OtherSpec? {
            return Panicked(UnsupportedClassSpec);
          }
          var name := m.classSpec.name;
          if name in defRootPosMap {
            var p := defRootPosMap[name];
            if p >= |output| {
              return Panicked(IndexOutOfRange);
            }
            ghost var before := output;
            var removed := output[p];
            output := output[..p] + output[p + 1..];
            assert before == output[..p] + [removed] + output[p..];
            if !removed.ClassDef? {
              return Panicked(NotAClassDef);
            }
            var classDef := ClassDef(removed.classDef, removed.methodsList + [m]);
            RemoveInsert(output, p, removed, classDef);
            output := output[..p] + [classDef] + output[p..];
          } else {
            errs := errs + [NoVar(name)];
          }
        case _ =>
          output := output + [chunk];
      }
      if errs == [] {
        r := Linked(Ast(ast.name, output));
      } else {
        r := Errors(errs);
      }
    }
  }

  /** Removing the element at `p` and inserting `x` at `p` again replaces
      that element and leaves every other element where it was. */
  lemma RemoveInsert(rest: seq<Expr>, p: nat, removed: Expr, x: Expr)
    requires p <= |rest|
    ensures rest[..p] + [x] + rest[p..] == (rest[..p] + [removed] + rest[p..])[p := x]
  {
  }

  /** Every recorded class sits at an index of the output that holds the
      `ClassDef` of that class; the `unreachable!` in `link` relies on
      this. */
  ghost predicate PosMapValid(st: State) {
    forall name :: name in st.pos ==>
      && st.pos[name] < |st.output|
      && st.output[st.pos[name]].ClassDef?
      && st.output[st.pos[name]].classDef.ident == Some(name)
  }

  /** A chunk on which `link` panics whatever the state: a definition with
      an empty body, a class definition whose signature is not a single
      identifier, or a `Methods` block whose class is not a simple type
      name. */
  predicate Panicky(c: Expr) {
    || (c.Def? && (c.def.body == [] || (IsClassCall(c.def.body[0]) && c.def.ident.None?)))
    || (c.Methods? && c.methods.classSpec.OtherSpec?)
  }

  /** A fresh linker's empty map is valid, whatever the output. */
  lemma EmptyPosMapValid(output: seq<Expr>, errs: seq<TyCheckError>)
    ensures PosMapValid(State(output, map[], errs))
  {
  }

  /** One chunk keeps the map valid, and with a valid map it panics exactly
      on a panicky chunk. */
  lemma ChunkKeepsPosMapValid(st: State, c: Expr)
    requires PosMapValid(st)
    ensures LinkChunk(st, c).Failure? <==> Panicky(c)
    ensures LinkChunk(st, c).Success? ==> PosMapValid(LinkChunk(st, c).value)
  {
    if LinkChunk(st, c).Success? {
      var st' := LinkChunk(st, c).value;
      forall name | name in st'.pos
        ensures st'.pos[name] < |st'.output| && st'.output[st'.pos[name]].ClassDef?
        ensures st'.output[st'.pos[name]].classDef.ident == Some(name)
      {
        if c.Def? && name !in st.pos {
          assert st'.pos[name] == |st.output|;
        }
      }
    }
  }

  /** From a valid map, the pass panics exactly when some chunk is panicky,
      and otherwise ends with a valid map. */
  lemma {:induction false} LinkAllPanics(st: State, cs: seq<Expr>)
    requires PosMapValid(st)
    ensures LinkAll(st, cs).Failure? <==> exists k :: 0 <= k < |cs| && Panicky(cs[k])
    ensures LinkAll(st, cs).Success? ==> PosMapValid(LinkAll(st, cs).value)
    decreases |cs|
  {
    if cs != [] {
      ChunkKeepsPosMapValid(st, cs[0]);
      if LinkChunk(st, cs[0]).Success? {
        LinkAllPanics(LinkChunk(st, cs[0]).value, cs[1..]);
        if exists k :: 0 <= k < |cs[1..]| && Panicky(cs[1..][k]) {
          var k :| 0 <= k < |cs[1..]| && Panicky(cs[1..][k]);
          assert Panicky(cs[k + 1]);
        }
        if exists k :: 0 <= k < |cs| && Panicky(cs[k]) {
          var k :| 0 <= k < |cs| && Panicky(cs[k]);
          assert k > 0 && Panicky(cs[1..][k - 1]);
        }
      }
    }
  }

  /** The pass over `a + b` is the pass over `a` followed by the pass over
      `b`. */
  lemma {:induction false} LinkAllAppend(st: State, a: seq<Expr>, b: seq<Expr>)
    ensures LinkAll(st, a + b) == match LinkAll(st, a)
                                  case Failure(reason) => Failure(reason)
                                  case Success(st') => LinkAll(st', b)
    decreases |a|
  {
    if a == [] {
      assert a + b == b;
    } else {
      assert (a + b)[0] == a[0] && (a + b)[1..] == a[1..] + b;
      if LinkChunk(st, a[0]).Success? {
        LinkAllAppend(LinkChunk(st, a[0]).value, a[1..], b);
      }
    }
  }

  /** An expression with the methods of a class definition forgotten. */
  function Skeleton(e: Expr): Expr {
    if e.ClassDef? then ClassDef(e.classDef, []) else e
  }

  function Skeletons(s: seq<Expr>): (r: seq<Expr>)
    ensures |r| == |s|
  {
    seq(|s|, k requires 0 <= k < |s| => Skeleton(s[k]))
  }

  /** What a chunk other than a `Methods` block becomes in the output, up to
      the methods attached later: a class definition becomes an empty
      `ClassDef` of the same definition, every other chunk stays as it is. */
  function Placement(c: Expr): Expr {
    if c.Def? && DefinesClass(c.def) then ClassDef(c.def, []) else Skeleton(c)
  }

  function Placements(s: seq<Expr>): (r: seq<Expr>)
    ensures |r| == |s|
  {
    seq(|s|, k requires 0 <= k < |s| => Placement(s[k]))
  }

  /** The chunks other than `Methods` blocks, in order. */
  function NonMethods(cs: seq<Expr>): (r: seq<Expr>)
    ensures |r| <= |cs|
  {
    if cs == [] then [] else (if cs[0].Methods? then [] else [cs[0]]) + NonMethods(cs[1..])
  }

  lemma SkeletonsAppend(a: seq<Expr>, b: seq<Expr>)
    ensures Skeletons(a + b) == Skeletons(a) + Skeletons(b)
  {
  }

  lemma PlacementsAppend(a: seq<Expr>, b: seq<Expr>)
    ensures Placements(a + b) == Placements(a) + Placements(b)
  {
  }

  /** A definition that is not a class definition is copied to the output
      unchanged, and nothing else changes. */
  lemma PlainDefPassesThrough(st: State, d: DefNode)
    requires d.body != [] && !IsClassCall(d.body[0])
    ensures LinkChunk(st, Def(d)) == Success(st.(output := st.output + [Def(d)]))
  {
  }

  /** One chunk adds its placement to the output's skeleton, unless it is a
      `Methods` block, which adds nothing. */
  lemma ChunkSkeleton(st: State, c: Expr)
    requires LinkChunk(st, c).Success?
    ensures Skeletons(LinkChunk(st, c).value.output)
         == Skeletons(st.output) + Placements(if c.Methods? then [] else [c])
  {
    var st' := LinkChunk(st, c).value;
    if c.Methods? {
      assert Skeletons(st'.output) == Skeletons(st.output) by {
        forall k | 0 <= k < |st.output|
          ensures Skeletons(st'.output)[k] == Skeletons(st.output)[k]
        {
        }
      }
      assert Skeletons(st.output) + Placements([]) == Skeletons(st.output);
    } else {
      SkeletonsAppend(st.output, st'.output[|st.output|..]);
      assert st'.output == st.output + st'.output[|st.output|..];
    }
  }

  /** Up to forgetting the attached methods, the output is the chunks that
      are not `Methods` blocks, in input order: class definitions become
      `ClassDef`s of the same definition, every other chunk is copied
      unchanged, and `Methods` blocks add nothing. So the output has one
      element per non-`Methods` chunk. */
  lemma {:induction false} LinkAllSkeleton(st: State, cs: seq<Expr>)
    requires LinkAll(st, cs).Success?
    ensures Skeletons(LinkAll(st, cs).value.output) == Skeletons(st.output) + Placements(NonMethods(cs))
    ensures |LinkAll(st, cs).value.output| == |st.output| + |NonMethods(cs)|
    decreases |cs|
  {
    if cs == [] {
      assert Skeletons(st.output) + Placements([]) == Skeletons(st.output);
    } else {
      var c := cs[0];
      var added := if c.Methods? then [] else [c];
      var st' := LinkChunk(st, c).value;
      assert LinkAll(st, cs) == LinkAll(st', cs[1..]);
      ChunkSkeleton(st, c);
      LinkAllSkeleton(st', cs[1..]);
      assert NonMethods(cs) == added + NonMethods(cs[1..]);
      PlacementsAppend(added, NonMethods(cs[1..]));
      var a, b, d := Skeletons(st.output), Placements(added), Placements(NonMethods(cs[1..]));
      assert a + b + d == a + (b + d);
    }
  }

  /** The `k`-th output element past the old output comes from the `k`-th
      chunk that is not a `Methods` block: it is a `ClassDef` exactly when
      that chunk is a class definition or already a `ClassDef`, of the same
      definition, and otherwise it is that chunk itself. */
  lemma OutputPlacement(st: State, cs: seq<Expr>, k: nat)
    requires LinkAll(st, cs).Success? && k < |NonMethods(cs)|
    ensures |st.output| + k < |LinkAll(st, cs).value.output|
    ensures var o := LinkAll(st, cs).value.output[|st.output| + k];
            var c := NonMethods(cs)[k];
            && (o.ClassDef? <==> c.ClassDef? || (c.Def? && DefinesClass(c.def)))
            && (o.ClassDef? ==> o.classDef == if c.Def? then c.def else c.classDef)
            && (!o.ClassDef? ==> o == c)
  {
    LinkAllSkeleton(st, cs);
    var out := LinkAll(st, cs).value.output;
    assert Skeletons(out)[|st.output| + k] == Placements(NonMethods(cs))[k];
  }

  /** The number of `Methods` blocks attached to class definitions. */
  function MethodCount(s: seq<Expr>): nat {
    if s == [] then 0
    else MethodCount(s[..|s| - 1]) + (if s[|s| - 1].ClassDef? then |s[|s| - 1].methodsList| else 0)
  }

  /** The `Methods` blocks in the chunks: the standalone ones and those
      already attached to a class definition among them. */
  function MethodsBlocks(cs: seq<Expr>): nat {
    if cs == [] then 0
    else
      (if cs[0].Methods? then 1 else if cs[0].ClassDef? then |cs[0].methodsList| else 0)
      + MethodsBlocks(cs[1..])
  }

  /** Attaching one block to one class definition adds one to the count. */
  lemma {:induction false} MethodCountAttach(s: seq<Expr>, p: nat, m: MethodsNode)
    requires p < |s| && s[p].ClassDef?
    ensures MethodCount(s[p := Attach(s[p], m)]) == MethodCount(s) + 1
    decreases |s|
  {
    var s' := s[p := Attach(s[p], m)];
    if p < |s| - 1 {
      assert s'[..|s| - 1] == s[..|s| - 1][p := Attach(s[p], m)];
      MethodCountAttach(s[..|s| - 1], p, m);
    } else {
      assert s'[..|s| - 1] == s[..|s| - 1];
    }
  }

  /** One chunk keeps the earlier errors and conserves the blocks. */
  lemma ChunkConservesMethods(st: State, c: Expr)
    requires LinkChunk(st, c).Success?
    ensures st.errs <= LinkChunk(st, c).value.errs
    ensures |LinkChunk(st, c).value.errs| + MethodCount(LinkChunk(st, c).value.output)
         == |st.errs| + MethodCount(st.output) + MethodsBlocks([c])
  {
    var st' := LinkChunk(st, c).value;
    if c.Methods? {
      if c.methods.classSpec.name in st.pos {
        MethodCountAttach(st.output, st.pos[c.methods.classSpec.name], c.methods);
      }
    } else {
      assert st'.output[..|st'.output| - 1] == st.output;
    }
  }

  /** No `Methods` block is lost: each one is either attached to a class
      definition or reported as exactly one error, and the errors already
      present stay at the head of the list. */
  lemma {:induction false} MethodsConserved(st: State, cs: seq<Expr>)
    requires LinkAll(st, cs).Success?
    ensures st.errs <= LinkAll(st, cs).value.errs
    ensures |LinkAll(st, cs).value.errs| + MethodCount(LinkAll(st, cs).value.output)
         == |st.errs| + MethodCount(st.output) + MethodsBlocks(cs)
    decreases |cs|
  {
    if cs != [] {
      ChunkConservesMethods(st, cs[0]);
      MethodsConserved(LinkChunk(st, cs[0]).value, cs[1..]);
    }
  }

  /** The names of the classes the chunks define. */
  function ClassNames(cs: seq<Expr>): set<string> {
    if cs == [] then {}
    else
      (if cs[0].Def? && DefinesClass(cs[0].def) && cs[0].def.ident.Some? then {cs[0].def.ident.value} else {})
      + ClassNames(cs[1..])
  }

  /** The recorded classes are the ones recorded before plus the classes the
      chunks define. */
  lemma {:induction false} RecordedClasses(st: State, cs: seq<Expr>)
    requires LinkAll(st, cs).Success?
    ensures LinkAll(st, cs).value.pos.Keys == st.pos.Keys + ClassNames(cs)
    decreases |cs|
  {
    if cs != [] {
      RecordedClasses(LinkChunk(st, cs[0]).value, cs[1..]);
    }
  }

  /** A `Methods` block for a recorded class is appended to the methods of
      the class definition at the recorded index; every other element, the
      map and the errors stay as they were. */
  lemma AttachToRecorded(st: State, m: MethodsNode)
    requires PosMapValid(st) && m.classSpec.Simple? && m.classSpec.name in st.pos
    ensures var p := st.pos[m.classSpec.name];
            var st' := LinkChunk(st, Methods(m)).value;
            LinkChunk(st, Methods(m)).Success?
            && |st'.output| == |st.output|
            && st'.output[p].ClassDef? && st'.output[p].classDef == st.output[p].classDef
            && st'.output[p].methodsList == st.output[p].methodsList + [m]
            && st'.output[p].classDef.ident == Some(m.classSpec.name)
            && (forall k :: 0 <= k < |st.output| && k != p ==> st'.output[k] == st.output[k])
            && st'.pos == st.pos && st'.errs == st.errs
  {
  }

  /** A `Methods` block for a class that is not recorded adds nothing to the
      output and pushes exactly one error naming the class. */
  lemma UnknownClass(st: State, m: MethodsNode)
    requires m.classSpec.Simple? && m.classSpec.name !in st.pos
    ensures LinkChunk(st, Methods(m)) == Success(st.(errs := st.errs + [NoVar(m.classSpec.name)]))
  {
  }

  /** A `Methods` block that comes before the definition of its class is
      an error even when the class is defined later in the module. */
  lemma {:induction false} MethodsBeforeClass(st: State, pre: seq<Expr>, m: MethodsNode, post: seq<Expr>)
    requires m.classSpec.Simple? && m.classSpec.name !in st.pos && m.classSpec.name !in ClassNames(pre)
    requires LinkAll(st, pre).Success?
    ensures var mid := LinkAll(st, pre).value;
            LinkAll(st, pre + [Methods(m)] + post)
            == LinkAll(mid.(errs := mid.errs + [NoVar(m.classSpec.name)]), post)
  {
    RecordedClasses(st, pre);
    LinkAllAppend(st, pre, [Methods(m)] + post);
    assert pre + [Methods(m)] + post == pre + ([Methods(m)] + post);
    var mid := LinkAll(st, pre).value;
    assert ([Methods(m)] + post)[1..] == post;
  }

  /** A class definition whose name is recorded again points the name at
      the new `ClassDef`, at the end of the output. */
  lemma ClassDefRecorded(st: State, d: DefNode)
    requires DefinesClass(d) && d.ident.Some?
    ensures var st' := LinkChunk(st, Def(d)).value;
            LinkChunk(st, Def(d)).Success?
            && st'.pos[d.ident.value] == |st.output| && st'.output == st.output + [ClassDef(d, [])]
            && (forall n :: n in st.pos && n != d.ident.value ==> n in st'.pos && st'.pos[n] == st.pos[n])
  {
  }
}
