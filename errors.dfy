/** The shared list of compile errors (or warnings) that the compiler's
    passes push to. A clone of the handle shares the list, which a Dafny
    object reference models directly. */
module Errors {

  type Path = string

  /** A compile error: the path of the input it was raised for, and the
      rest of it, which the list does not look into. */
  datatype CompileError = CompileError(inputPath: Path, message: string)

  /** The errors of `es` whose normalised input path differs from `target`,
      in their original order. */
  function KeepOthers(es: seq<CompileError>, target: Path, normalize: Path -> Path): (r: seq<CompileError>)
    ensures |r| <= |es|
    ensures forall e :: e in r <==> e in es && normalize(e.inputPath) != target
  {
    if es == [] then []
    else
      var rest := KeepOthers(es[1..], target, normalize);
      if normalize(es[0].inputPath) != target then [es[0]] + rest else rest
  }

  /** Filtering keeps the relative order: it distributes over
      concatenation. */
  lemma {:induction false} KeepOthersAppend(a: seq<CompileError>, b: seq<CompileError>, target: Path, normalize: Path -> Path)
    ensures KeepOthers(a + b, target, normalize) == KeepOthers(a, target, normalize) + KeepOthers(b, target, normalize)
  {
    if a == [] {
      assert a + b == b;
    } else {
      assert (a + b)[1..] == a[1..] + b;
      KeepOthersAppend(a[1..], b, target, normalize);
    }
  }

  /** Removing the same path twice is removing it once. */
  lemma {:induction false} KeepOthersIdempotent(es: seq<CompileError>, target: Path, normalize: Path -> Path)
    ensures KeepOthers(KeepOthers(es, target, normalize), target, normalize) == KeepOthers(es, target, normalize)
  {
    if es != [] {
      KeepOthersIdempotent(es[1..], target, normalize);
    }
  }

  /** Removing two paths gives the same list in either order. */
  lemma {:induction false} KeepOthersCommute(es: seq<CompileError>, t1: Path, t2: Path, normalize: Path -> Path)
    ensures KeepOthers(KeepOthers(es, t1, normalize), t2, normalize)
         == KeepOthers(KeepOthers(es, t2, normalize), t1, normalize)
  {
    if es != [] {
      KeepOthersCommute(es[1..], t1, t2, normalize);
    }
  }

  /** Nothing is removed when no error has the path. */
  lemma {:induction false} KeepOthersUnchanged(es: seq<CompileError>, target: Path, normalize: Path -> Path)
    requires forall e :: e in es ==> normalize(e.inputPath) != target
    ensures KeepOthers(es, target, normalize) == es
  {
    if es != [] {
      KeepOthersUnchanged(es[1..], target, normalize);
    }
  }

  class SharedCompileErrors {
    var errors: seq<CompileError>

    /** `new`: an empty list. */
    constructor ()
      ensures errors == []
    {
      errors := [];
    }

    /** `push`: appends one error at the end. */
    method Push(error: CompileError)
      modifies this
      ensures errors == old(errors) + [error]
    {
      errors := errors + [error];
    }

    /** `extend`: appends all of `es`, in their order. */
    method Extend(es: seq<CompileError>)
      modifies this
      ensures errors == old(errors) + es
    {
      errors := errors + es;
    }

    /** `take`: hands back the whole list and leaves it empty. */
    method Take() returns (taken: seq<CompileError>)
      modifies this
      ensures taken == old(errors) && errors == []
    {
      taken := errors;
      errors := [];
    }

    /** `clear`: empties the list. */
    method Clear()
      modifies this
      ensures errors == []
    {
      errors := [];
    }

    /** `remove`: drops every error whose normalised input path equals the
        normalised `path`; path normalisation is a parameter. */
    method Remove(path: Path, normalize: Path -> Path)
      modifies this
      ensures errors == KeepOthers(old(errors), normalize(path), normalize)
    {
      errors := KeepOthers(errors, normalize(path), normalize);
    }
  }
}
