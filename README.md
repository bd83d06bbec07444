# Erg compiler core, modelled in Dafny

This project models five small, self-contained parts of the Erg compiler
and proves properties about them.

- **The REPL bridge** (`repl_codec.dfy`, `repl_session.dfy`). A Python
  server receives instructions from the compiler over a socket, imports or
  reloads the compiled module, and answers with frames. Each frame is one tag
  byte, a two-byte big-endian length, and the UTF-8 bytes of the payload.
  - `encode` is modelled as `EncodeFrame`, together with a UTF-8 encoder and
    decoder and a frame parser that inverts `encode`.
  - The `while True` loop is the method `Serve`. It is proved equal to the
    functional session `Run` over the received chunks.
  - The import/reload call is an oracle `exec`, and socket reads are a
    finite sequence of chunks or connection resets.
- **The linker** (`link.dfy`). One pass over a module's top-level
  expressions:
  - it turns class definitions into `ClassDef` nodes and records where they
    sit in the output;
  - it folds each later `Methods` block into the class it names;
  - it reports a `Methods` block for an unknown class as an error.

  `Linker.Link` is the imperative pass. `LinkChunk`/`LinkAll` are the
  functional pass it is proved against, and the lemmas are about that
  functional pass.
- **Type-variable constraints and free type variables** (`constraint.dfy`,
  `free.dfy`).
  - A `Constraint` is a sandwich `:> sub, <: sup`, a type `: t`, or
    uninitialised.
  - A `Free` is a shared mutable cell holding a `FreeKind`: linked, undoably
    linked (remembering the kind it replaced), or unbound. An unbound cell is
    named or numbered, and has a level and a constraint.
  - `IdGen` is the counter that hands out fresh numbers.
  - The level operations `lower`, `lift` and `generalize`, and the guarded
    `update_constraint`, are methods on `Free`.
- **The shared error list** (`errors.dfy`). This is `SharedCompileErrors`:
  push, extend, take, clear, and removal of every error raised for a path.
  Path normalisation is a parameter.
- **The opcode table** (`opcode308.dfy`). These are the CPython 3.8 bytecode
  numbers, plus Erg's own opcodes, as a datatype. It has an encoder, a
  partial decoder and the "takes an argument" predicate.

`prelude.dfy` holds `Option`, `Result` and the `byte` type shared by the
modules.

## Model

| member | source | states |
|---|---|---|
| Opcode308.Encode | crates/erg_common/opcode308.rs:10-165 | the table itself: each mnemonic's explicit discriminant, with no contract of its own; `DecodeEncode` and `EncodeDecode` state what it promises |
| Opcode308.Decode | crates/erg_common/opcode308.rs:10-165 | the `u8` conversion: the mnemonic listed under a byte, and nothing (`_ => None`) for every other byte, with no contract of its own; `EncodeDecode` and `AbsentDecodesToNothing` state what it promises |
| Opcode308.DecodeEncode | crates/erg_common/opcode308.rs:10-165 | decoding the byte of any mnemonic gives that mnemonic back |
| Opcode308.EncodeInjective | crates/erg_common/opcode308.rs:10-165 | the discriminants are pairwise distinct: equal bytes mean equal mnemonics |
| Opcode308.DecodeNoneIsUnlisted | crates/erg_common/opcode308.rs:10-165 | a byte that decodes to nothing is no mnemonic's discriminant |
| Opcode308.DecodeInjective | crates/erg_common/opcode308.rs:10-165 | no mnemonic is listed under two bytes: two bytes that decode to the same mnemonic are equal |
| Opcode308.EncodeDecode | crates/erg_common/opcode308.rs:10-165 | encoding the mnemonic a byte decodes to gives that byte back, so the decoder is exactly the inverse of the table |
| Opcode308.AbsentDecodesToNothing | crates/erg_common/opcode308.rs:10-165 | a byte that is no mnemonic's discriminant decodes to nothing |
| Opcode308.UnlistedBytes | crates/erg_common/opcode308.rs:34-157 | the commented-out numbers 30-37, 49, 74 and 117-119 and the gaps 220 and 250 decode to nothing and are no mnemonic's byte |
| Opcode308.ErgOpcodeRange | crates/erg_common/opcode308.rs:119-164 | every Erg opcode is numbered 196 to 254 |
| Opcode308.ErgOpcodesWithArg | crates/erg_common/opcode308.rs:119-145 | every opcode numbered 196 to 219 is one of Erg's |
| Opcode308.ErgOpcodesWithoutArg | crates/erg_common/opcode308.rs:146-165 | every opcode numbered from 220 is Erg's own or NOT_IMPLEMENTED |
| Opcode308.HighOpcodesAreErg | crates/erg_common/opcode308.rs:119-165 | the only non-Erg opcode numbered 196 or above is NOT_IMPLEMENTED |
| Opcode308.ErgArgumentSplit | crates/erg_common/opcode308.rs:145-146 | from 196 up, an opcode takes an argument exactly when it is Erg's and numbered below 220 |
| Opcode308.TakesArg | crates/erg_common/opcode308.rs:70-146 | the opcodes numbered from `HAVE_ARGUMENT` (90) to 219 take an argument; a definition with no contract of its own, which `ErgArgumentSplit` relates to the Erg opcodes |
| ReplCodec.Utf8Char | src/scripts/repl_server.py:32 | a character encodes to 1 to 4 bytes, one byte exactly for ASCII, continuation bytes after the first |
| ReplCodec.Utf8 | src/scripts/repl_server.py:32 | a string's encoding has between one and four bytes per character |
| ReplCodec.DecodeCharUtf8Char | src/scripts/repl_server.py:32 | decoding the encoding of a character, whatever follows it, gives back the character and its byte length |
| ReplCodec.Utf8RoundTrip | src/scripts/repl_server.py:32 | UTF-8 decoding inverts `str.encode`, so the encoding is injective |
| ReplCodec.Utf8DecodeEncode | src/scripts/repl_server.py:32 | re-encoding decoded valid UTF-8 gives back the same bytes |
| ReplCodec.EncodeDecodedChar | src/scripts/repl_server.py:32 | re-encoding one decoded character gives back the bytes it was read from |
| ReplCodec.BigEndian16 | src/scripts/repl_server.py:35 | a length up to 65535 becomes two bytes whose big-endian value is that length |
| ReplCodec.EncodeFrame | src/scripts/repl_server.py:31-35 | `encode` succeeds exactly when the tag fits one byte and the payload's UTF-8 length fits two bytes. A bad tag raises first (`TagOverflow`); otherwise an oversized payload raises `LengthOverflow`. A frame is 3 + the byte length of the payload, and starts with the tag |
| ReplCodec.EmptyFrame | src/scripts/repl_server.py:31-35 | the default empty payload gives the frame `[instr, 0, 0]` |
| ReplCodec.ParseEncodeFrame | src/scripts/repl_server.py:31-35 | parsing an encoded frame, whatever follows, gives back the tag, the UTF-8 payload (which decodes to the data) and the rest |
| ReplCodec.EncodeParsedFrame | src/scripts/repl_server.py:31-35 | a parsed frame whose payload is valid UTF-8 is exactly `encode` of its tag and decoded payload |
| ReplSession.IsSpace | src/scripts/repl_server.py:67 | the whitespace characters of Python's `str.isspace`, which `rstrip()` removes; a definition with no contract of its own |
| ReplSession.RStrip | src/scripts/repl_server.py:67 | `rstrip()` keeps the longest prefix not ending in whitespace, and everything it drops is whitespace |
| ReplSession.DropLast | src/scripts/repl_server.py:70 | `[:-1]` drops the last character unconditionally, and an empty string stays empty |
| ReplSession.Compose | src/scripts/repl_server.py:70-73 | the payload is `out + exc + res`, with a newline after `out` exactly when `(out and exc) or res` |
| ReplSession.Instruction | src/scripts/repl_server.py:42 | `int.from_bytes(data[:1], 'big')`: the first byte of a chunk, 0 for an empty one; a definition with no contract of its own, used by `UnknownInstruction` |
| ReplSession.Send | src/scripts/repl_server.py:75 | sending never changes `already_loaded`; the loop goes on, having sent the encoded frame, exactly when `encode` succeeds; otherwise the session crashes without sending anything |
| ReplSession.LoadReply | src/scripts/repl_server.py:46-75 | after a LOAD, `already_loaded` is set exactly when it was set before or the call succeeded, whether or not the reply could be sent |
| ReplSession.Load | src/scripts/repl_server.py:46-75 | the LOAD branch computes `LoadReply`: its reply frame and the new `already_loaded` |
| ReplSession.Dispatch | src/scripts/repl_server.py:38-77 | one pass of the loop body computes `Step` |
| ReplSession.Serve | src/scripts/repl_server.py:37-80 | the loop sends exactly the frames of `Run` from an unloaded start and ends as `Run` ends. The sockets are closed exactly after EXIT or a reset connection |
| ReplSession.ExitEndsSession | src/scripts/repl_server.py:43-45 | EXIT gets exactly `[5, 0, 0]` and ends the session |
| ReplSession.UnknownInstruction | src/scripts/repl_server.py:42 | any tag but LOAD and EXIT, including 0 from an empty read, gets `[0, 0, 0]`, and the loop goes on with `already_loaded` unchanged |
| ReplSession.ResetEndsSession | src/scripts/repl_server.py:38-41 | a reset connection ends the loop without a reply |
| ReplSession.LoadSucceeded | src/scripts/repl_server.py:53-58 | a successful import/reload replies PRINT with the captured output minus its last character, then `\nNone`, and sets `already_loaded`. An oversized payload crashes the session, with `already_loaded` already set |
| ReplSession.LoadSystemExit | src/scripts/repl_server.py:59-61 | `SystemExit` replies EXCEPTION `SystemExit` and leaves `already_loaded` unchanged |
| ReplSession.LoadFailed | src/scripts/repl_server.py:62-75 | another exception replies INITIALIZE with the truncated output and the stripped traceback, newline-separated when both are non-empty. `already_loaded` is unchanged |
| ReplSession.LoadUncaught | src/scripts/repl_server.py:52-69 | an exception no handler catches ends the session without a reply |
| ReplSession.StepLoaded | src/scripts/repl_server.py:53-58 | after a chunk, `already_loaded` is set exactly when it was set before or a LOAD call succeeded, whether the loop goes on or stops |
| ReplSession.LoadedIsSticky | src/scripts/repl_server.py:58 | once set, `already_loaded` stays set, even after a failed reload |
| ReplSession.LoadedOnlyAfterImport | src/scripts/repl_server.py:53-58 | a session that starts unloaded ends loaded only if it reached some LOAD with `already_loaded` still false (every earlier chunk continued the session without setting it) and the import made there succeeded |
| ReplSession.EncodedIsReply | src/scripts/repl_server.py:31-35 | every frame `encode` makes for a server tag parses completely and has a valid UTF-8 payload |
| ReplSession.LoadReplies | src/scripts/repl_server.py:46-75 | a LOAD sends one well-formed frame or nothing |
| ReplSession.StepReplies | src/scripts/repl_server.py:38-77 | one chunk sends at most one frame, and it is well-formed |
| ReplSession.SessionReplies | src/scripts/repl_server.py:37-77 | every frame a session sends is well-formed, and there are no more frames than chunks |
| Link.Linker.constructor | compiler/erg_compiler/link.rs:19-24 | a new linker has no recorded class and no error |
| Link.Linker.Link | compiler/erg_compiler/link.rs:26-92 | the loop computes `LinkAll` over the module, then `Ok` exactly when the error list is empty, counting errors present before the pass. On success the map and errors are the final state's |
| Link.EmptyPosMapValid | compiler/erg_compiler/link.rs:19-24 | a fresh linker's empty map satisfies the invariant |
| Link.ChunkKeepsPosMapValid | compiler/erg_compiler/link.rs:29-83 | with the invariant "every recorded index is in range and holds the `ClassDef` of the class recorded there", one chunk keeps it. The chunk panics exactly on an empty body, a missing identifier or an unsupported class spec, so `unreachable!` is unreachable |
| Link.LinkAllPanics | compiler/erg_compiler/link.rs:29-84 | from a valid map the pass panics exactly when some chunk is panicky, and otherwise ends with a valid map |
| Link.LinkAllAppend | compiler/erg_compiler/link.rs:29-84 | the pass over `a + b` is the pass over `a` followed by the pass over `b` |
| Link.ChunkSkeleton | compiler/erg_compiler/link.rs:30-83 | up to attached methods, one chunk adds its placement to the output: a class definition an empty `ClassDef` of it, any other chunk itself; a `Methods` block adds nothing |
| Link.LinkAllSkeleton | compiler/erg_compiler/link.rs:29-85 | up to attached methods, the output is the placements of the non-`Methods` chunks in input order: class definitions become `ClassDef`s, every other chunk is copied unchanged. So its length is their number |
| Link.OutputPlacement | compiler/erg_compiler/link.rs:29-85 | the k-th new output element is a `ClassDef` exactly when the k-th non-`Methods` chunk is a class definition (or already a `ClassDef`), built from the same definition, and is that chunk itself otherwise |
| Link.PlainDefPassesThrough | compiler/erg_compiler/link.rs:44-51 | a definition that is not a class definition is appended to the output unchanged, and nothing else changes |
| Link.MethodCountAttach | compiler/erg_compiler/link.rs:61-62 | attaching a block adds exactly one attached block |
| Link.ChunkConservesMethods | compiler/erg_compiler/link.rs:54-79 | one chunk keeps earlier errors as a prefix. Its `Methods` block is attached or reported, exactly one of the two |
| Link.MethodsConserved | compiler/erg_compiler/link.rs:29-84 | no `Methods` block is lost: each is attached to a class or reported as exactly one error |
| Link.RecordedClasses | compiler/erg_compiler/link.rs:36-40 | the recorded names are those recorded before plus the classes the chunks define |
| Link.AttachToRecorded | compiler/erg_compiler/link.rs:56-62 | a block for a recorded class is appended to the `ClassDef` of that class. Every other element, the map and the errors stay as they were |
| Link.UnknownClass | compiler/erg_compiler/link.rs:63-76 | a block for an unrecorded class adds no output and pushes exactly one error naming it |
| Link.MethodsBeforeClass | compiler/erg_compiler/link.rs:56-76 | a block that precedes its class's definition is an error even if the class is defined later |
| Link.ClassDefRecorded | compiler/erg_compiler/link.rs:36-42 | a class definition becomes an empty `ClassDef` at the end of the output. Its name maps to that index (overwriting an earlier one), and other entries are kept |
| Errors.KeepOthers | crates/erg_compiler/module/errors.rs:33-38 | an error is kept exactly when its normalised path differs from the target's |
| Errors.KeepOthersAppend | crates/erg_compiler/module/errors.rs:33-38 | filtering preserves relative order: it distributes over concatenation |
| Errors.KeepOthersIdempotent | crates/erg_compiler/module/errors.rs:33-38 | removing a path twice is removing it once |
| Errors.KeepOthersCommute | crates/erg_compiler/module/errors.rs:33-38 | removing two paths gives the same list in either order |
| Errors.KeepOthersUnchanged | crates/erg_compiler/module/errors.rs:33-38 | nothing is removed when no error has the path |
| Errors.SharedCompileErrors.constructor | crates/erg_compiler/module/errors.rs:13-15 | a new list is empty |
| Errors.SharedCompileErrors.Push | crates/erg_compiler/module/errors.rs:17-19 | appends the error at the end, with earlier entries unchanged |
| Errors.SharedCompileErrors.Extend | crates/erg_compiler/module/errors.rs:21-23 | appends all the errors, in order |
| Errors.SharedCompileErrors.Take | crates/erg_compiler/module/errors.rs:25-27 | returns the whole list in order and leaves it empty |
| Errors.SharedCompileErrors.Clear | crates/erg_compiler/module/errors.rs:29-31 | empties the list |
| Errors.SharedCompileErrors.Remove | crates/erg_compiler/module/errors.rs:33-38 | the list becomes `KeepOthers` of the old one for the normalised path |
| Constraints.NewSandwiched | crates/erg_compiler/ty/free.rs:121-123 | the constraint reads back its two bounds |
| Constraints.NewTypeOf | crates/erg_compiler/ty/free.rs:161-167 | the constraint reads back its type, and it is a sandwich exactly for `Type` |
| Constraints.NewSubtypeOf | crates/erg_compiler/ty/free.rs:169-171 | lower bound `Never`, upper bound the given type |
| Constraints.NewSupertypeOf | crates/erg_compiler/ty/free.rs:173-175 | lower bound the given type, upper bound `Obj` |
| Constraints.GetType | crates/erg_compiler/ty/free.rs:192-202 | the type of a `TypeOf` constraint, and `Type` for `:> Never, <: Obj`; a definition with no contract of its own, which `TypeOfRoundTrip`, `SandwichType` and `GettersOverlap` state properties of |
| Constraints.GetSub | crates/erg_compiler/ty/free.rs:205-210 | the lower bound of a sandwich; a definition with no contract of its own, read back by `NewSubtypeOf` and `NewSupertypeOf` |
| Constraints.GetSuper | crates/erg_compiler/ty/free.rs:213-218 | the upper bound of a sandwich; a definition with no contract of its own, read back by `NewSubtypeOf` and `NewSupertypeOf` |
| Constraints.GetSubSup | crates/erg_compiler/ty/free.rs:220-225 | both bounds of a sandwich; a definition with no contract of its own, read back by `NewSandwiched` and related to the single getters by `SubSupPair` |
| Constraints.TypeOfRoundTrip | crates/erg_compiler/ty/free.rs:161-202 | `get_type(new_type_of(t)) == Some(t)` for every `t`, with `Type` stored as `:> Never, <: Obj` |
| Constraints.SandwichType | crates/erg_compiler/ty/free.rs:192-202 | a sandwich has a type exactly when it is `:> Never, <: Obj`, which reads as `Type` |
| Constraints.GettersOverlap | crates/erg_compiler/ty/free.rs:192-225 | only the widest sandwich has both a type and bounds. `Uninited` has neither, and `TypeOf` has no bounds |
| Constraints.SubSupPair | crates/erg_compiler/ty/free.rs:205-225 | `get_sub_sup` is the pair of `get_sub` and `get_super` |
| FreeVars.KindEqMeaning | crates/erg_compiler/ty/free.rs:305-339 | `FreeKind` equality is reflexive and symmetric. It compares links by target only, and unbound kinds field by field |
| FreeVars.KindEqTransitive | crates/erg_compiler/ty/free.rs:305-339 | `FreeKind` equality is transitive |
| FreeVars.Decimal | crates/erg_compiler/ty/free.rs:245 | a number's decimal rendering is a non-empty string of digits |
| FreeVars.DecimalRoundTrip | crates/erg_compiler/ty/free.rs:245 | reading the decimal digits of `n` gives back `n` |
| FreeVars.UnboundIdName | crates/erg_compiler/ty/free.rs:245 | the name of a numbered variable is `%` followed by at least one digit |
| FreeVars.UnboundIdNameInjective | crates/erg_compiler/ty/free.rs:245 | distinct ids give distinct `%id` names |
| FreeVars.IdGen.constructor | crates/erg_compiler/ty/free.rs:20-22 | the counter starts at 0 with no id issued |
| FreeVars.IdGen.Next | crates/erg_compiler/ty/free.rs:676-677 | the counter is bumped and the new id is larger than every id issued before |
| FreeVars.IdGen.NewUnboundKind | crates/erg_compiler/ty/free.rs:421-430 | a numbered unbound kind with a fresh id larger than all earlier ones |
| FreeVars.IdGen.NewUnbound | crates/erg_compiler/ty/free.rs:675-684 | a fresh cell holding a numbered variable whose id is larger than all earlier ones; its `level`, `constraint` and `unbound_name` read back the given level, the given constraint and `%id` |
| FreeVars.Free.constructor | crates/erg_compiler/ty/free.rs:671-673 | a cell holding the given kind |
| FreeVars.Free.NewNamedUnbound | crates/erg_compiler/ty/free.rs:686-690 | a cell holding a named unbound variable; its `level`, `constraint` and `unbound_name` read back what it was given |
| FreeVars.Free.NewLinked | crates/erg_compiler/ty/free.rs:692-694 | a cell linked to the given type: `crack()` gives it, and `level` is the target's |
| FreeVars.Free.IsLinked | crates/erg_compiler/ty/free.rs:724-729 | `is_linked` holds for both kinds of link; a definition with no contract of its own, which `IsUnbound`, `Link` and `UndoableLink` state properties of |
| FreeVars.Free.Crack | crates/erg_compiler/ty/free.rs:706-713 | the target of either kind of link, only callable on a linked cell; a definition with no contract of its own, read back by `Link`, `UndoableLink` and `NewLinked` |
| FreeVars.Free.CrackConstraint | crates/erg_compiler/ty/free.rs:715-722 | the constraint of an unbound cell, only callable on an unbound one; a definition with no contract of its own |
| FreeVars.Free.IsGeneralized | crates/erg_compiler/ty/free.rs:40-42 | the level is `GENERIC_LEVEL`; a definition with no contract of its own, which `Lift` and `Generalize` state properties of |
| FreeVars.Free.Level | crates/erg_compiler/ty/free.rs:635-640 | an unbound variable's own level, else its target's; a definition with no contract of its own, read back by `IdGen.NewUnbound`, `NewNamedUnbound`, `NewLinked`, `Link`, `SetLevel`, `Lower`, `Lift` and `Detach` |
| FreeVars.Free.UnboundName | crates/erg_compiler/ty/free.rs:242-248 | a named variable's name, `%id` for a numbered one, else the target's; a definition with no contract of its own, read back by `IdGen.NewUnbound`, `NewNamedUnbound`, `Link` and `Detach` |
| FreeVars.Free.GetConstraint | crates/erg_compiler/ty/free.rs:250-257 | an unbound variable's own constraint, else its target's; a definition with no contract of its own, read back by `IdGen.NewUnbound`, `NewNamedUnbound`, `Link`, `SetLevel`, `UpdateConstraint` and `Detach` |
| FreeVars.Free.GetTypeOf | crates/erg_compiler/ty/free.rs:836-838 | `GetType` of the cell's constraint, none without one; a definition with no contract of its own, whose constraint getter is characterised by the `Constraints` lemmas |
| FreeVars.Free.GetSubOf | crates/erg_compiler/ty/free.rs:846-848 | `GetSub` of the cell's constraint, none without one; a definition with no contract of its own, as for `GetTypeOf` |
| FreeVars.Free.GetSuperOf | crates/erg_compiler/ty/free.rs:841-843 | `GetSuper` of the cell's constraint, none without one; a definition with no contract of its own, as for `GetTypeOf` |
| FreeVars.Free.GetSubSupOf | crates/erg_compiler/ty/free.rs:850-853 | `GetSubSup` of the cell's constraint, none without one; a definition with no contract of its own, as for `GetTypeOf` |
| FreeVars.Free.IsUnbound | crates/erg_compiler/ty/free.rs:855-860 | `is_unbound` is the complement of `is_linked` |
| FreeVars.Free.Replace | crates/erg_compiler/ty/free.rs:696-702 | the cell holds the new kind |
| FreeVars.Free.Link | crates/erg_compiler/ty/free.rs:746-752 | afterwards the cell is linked, `crack()` gives the target, and `level`, `unbound_name` and `constraint` are the target's |
| FreeVars.Free.UndoableLink | crates/erg_compiler/ty/free.rs:767-777 | the cell is linked to the target and remembers exactly the kind it held; `level` and `constraint` are now the target's |
| FreeVars.Free.Undo | crates/erg_compiler/ty/free.rs:794-802 | the cell gets back the remembered kind, so `undo` after `undoable_link` restores it exactly |
| FreeVars.Free.SetLevel | crates/erg_compiler/ty/free.rs:612-633 | an unbound variable gets the level, which `level` reads back, keeping its constraint and name; its temporary link to its lower bound is undone. A linked cell is unchanged |
| FreeVars.Free.Lower | crates/erg_compiler/ty/free.rs:27-31 | never decreases a level: an unbound variable ends at the larger of its level and the given one |
| FreeVars.Free.Lift | crates/erg_compiler/ty/free.rs:32-36 | adds one to the level, saturating at `usize::MAX`: a generalized variable stays generalized, any other unbound one reads back its level plus one |
| FreeVars.Free.Generalize | crates/erg_compiler/ty/free.rs:37-42 | the level becomes `GENERIC_LEVEL` and `is_generalized` holds |
| FreeVars.Free.UpdateConstraint | crates/erg_compiler/ty/free.rs:879-900 | a generalized variable keeps its constraint unless `in_inst_or_gen` is set. Otherwise `constraint` reads back the new one and the level is kept; a linked cell is unchanged |
| FreeVars.Free.Detach | crates/erg_compiler/ty/free.rs:827-832 | a new cell with the same `level` and `constraint`. It keeps the name of a named variable, and a numbered one gets a fresh id, so its `%id` name differs from the original's when the original's id came from this generator (the source's counter is global, so every live id did) |

## Left out

- Socket set-up, `recv` and `send` are not modelled. A received chunk is a list element, and a sent frame is appended to a log. Errors raised by `send` are left out.
- The `exec` of the import or reload, `traceback.format_exception` and the `sys.stdout` redirection are left out. They are the oracle `exec`, which returns the captured output and how the call ended. The server never restores `sys.stdout`; nothing in the model represents stdout, and this has no effect on the frames sent.
- `ReplCodec.Utf8`: Dafny characters are Unicode scalar values, so Python strings holding lone surrogates (which make `str.encode` raise) cannot be represented.
- The server is modelled as its code behaves, including these quirks:
  - a successful LOAD always replies with `\nNone` after the output;
  - `[:-1]` drops the last captured character even when it is not a newline;
  - a failed reload leaves `already_loaded` set.
- `Link`: `log!`, the `similar_name` text of the error (built from the map's key order) and the AST node internals are left out. An error keeps only the class name, and an AST node keeps only what the linker inspects.
- `Link.Linker.Link`: the Rust method consumes the linker. The model keeps the object and states its final fields.
- `crates/erg_compiler/error/lower.rs` (message construction) is not part of this model.
- FreeVars: a link target is a closed type (`Never`, `Obj`, `Type` or a named type) that holds no type variable. So `set_level` and `update_constraint` on a target, and their recursion into the bounds, change nothing here. The `Type`/`TyParam` internals are not part of this model.
- FreeVars.Free.Link: the `addr_eq!` guards in `replace`, `link`, `undoable_link`, `set_level` and `update_constraint` never fire in the model. Aliasing between the cell and the argument is not represented. This also means the "link to self" panic of `undoable_link` is not modelled.
- FreeVars.IdGen.Next: the thread-local counter is an object field. Its overflow past `usize::MAX` (a panic in debug builds) is excluded by a precondition.
- FreeVars.Free.Undo: the panics of `undo`, `crack`, `crack_constraint` and `detach` (through `unwrap_unbound`) are preconditions.
- `Hash`, `PartialEq` for `Free<Type>`, the display code, `map`, `forced_*` and `unsafe_crack`, and the `Free<TyParam>` variants are left out.
- `Errors.SharedCompileErrors.Remove`: `NormalizedPathBuf` normalisation is a function parameter. `raw_iter` is left out.
- The `impl_u8_enum!` macro is not part of this model. The decoder is defined from the table itself.
