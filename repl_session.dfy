/** The REPL server's session loop. It receives byte chunks from the
    compiler's client, dispatches on the first byte, runs the module's
    import or reload, and sends back one frame per request.

    The socket, the module execution and the traceback formatting are
    outside the model. A session's input is the finite sequence of what
    successive `recv` calls return. The module execution is an oracle:
    given the call made (import or reload) and the index of the request,
    it says what the call printed and how it ended. */
module ReplSession {
  import opened Prelude
  import opened ReplCodec

  /** Which statement the server executes for a LOAD request. */
  datatype Call = Import | Reload

  /** How the import or reload ended, with the text it wrote to stdout.
      `Uncaught` is a `BaseException` other than `SystemExit` (such as
      `KeyboardInterrupt`), which no handler in the loop catches. */
  datatype Outcome =
    | Ok(captured: string)
    | SysExit
    | Exc(captured: string, traceback: string)
    | Uncaught

  /** What one `recv` call gives: the bytes read, or a reset connection. */
  datatype Recv = Data(bytes: seq<byte>) | ConnectionReset

  /** How a session ends. `Exited` and `PeerReset` leave the loop by
      `break`, and the sockets are then closed. `Crashed` is an exception
      escaping the loop. `AwaitingInput` means the input ran out while the
      server was waiting in `recv`. */
  datatype End = Exited | PeerReset | Crashed | AwaitingInput

  /** The oracle for the module execution. */
  type Exec = (Call, nat) -> Outcome

  /** Python's `str.isspace()`: the whitespace characters `rstrip()` removes. */
  predicate IsSpace(c: char) {
    var n := c as int;
    9 <= n <= 13 || 0x1C <= n <= 0x20 || n == 0x85 || n == 0xA0 || n == 0x1680
    || 0x2000 <= n <= 0x200A || n == 0x2028 || n == 0x2029 || n == 0x202F
    || n == 0x205F || n == 0x3000
  }

  /** `s.rstrip()`: the longest prefix of `s` that does not end in
      whitespace, the rest of `s` being all whitespace. */
  function RStrip(s: string): (r: string)
    ensures r <= s
    ensures r == [] || !IsSpace(r[|r| - 1])
    ensures forall k :: |r| <= k < |s| ==> IsSpace(s[k])
  {
    if s != [] && IsSpace(s[|s| - 1]) then RStrip(s[..|s| - 1]) else s
  }

  /** `s[:-1]`: everything but the last character; empty stays empty. */
  function DropLast(s: string): (r: string)
    ensures r <= s
    ensures |r| == if s == [] then 0 else |s| - 1
  {
    if s == [] then [] else s[..|s| - 1]
  }

  /** The condition `out and exc or res`, which Python reads as
      `(out and exc) or res`. */
  predicate NeedsNewline(out: string, exc: string, res: string) {
    (out != [] && exc != []) || res != []
  }

  /** The reply payload of a LOAD: the captured output without its last
      character, a newline when `NeedsNewline` holds, then the exception
      text, then the result text. */
  function Compose(captured: string, exc: string, res: string): (r: string)
    ensures DropLast(captured) <= r
    ensures |r| == |DropLast(captured)| + |exc| + |res|
                   + (if NeedsNewline(DropLast(captured), exc, res) then 1 else 0)
    ensures r[|r| - |exc| - |res|..] == exc + res
    ensures NeedsNewline(DropLast(captured), exc, res) ==> r[|DropLast(captured)|] == '\n'
  {
    var out := DropLast(captured);
    var out' := if NeedsNewline(out, exc, res) then out + "\n" else out;
    out' + exc + res
  }

  /** What the server's `exec` returns, converted with `str`: the string
      `None`, since `exec` always returns `None`. */
  const EXEC_RESULT: string := "None"

  /** The instruction byte of a received chunk: `int.from_bytes(data[:1])`,
      which is 0 for an empty chunk. */
  function Instruction(data: seq<byte>): byte {
    if data == [] then 0 else data[0]
  }

  /** The effect of one received chunk: either the loop goes on after
      sending one frame, or it stops after sending `frames`; `loaded` is
      `already_loaded` after the chunk either way. */
  datatype Effect =
    | Continue(frame: seq<byte>, loaded: bool)
    | Stop(frames: seq<seq<byte>>, end: End, loaded: bool)

  /** Sends one frame and goes on; a payload too long to encode raises
      `OverflowError`, which ends the session with `already_loaded` as it
      was just before the send. */
  function Send(instr: byte, payload: string, loaded: bool): (e: Effect)
    ensures e.loaded == loaded
    ensures e.Continue? <==> EncodeFrame(instr as int, payload).Success?
    ensures e.Continue? ==> e.frame == EncodeFrame(instr as int, payload).value
    ensures e.Stop? ==> e.frames == [] && e.end == Crashed
  {
    match EncodeFrame(instr as int, payload)
    case Success(frame) => Continue(frame, loaded)
    case Failure(_) => Stop([], Crashed, loaded)
  }

  /** The reply to a LOAD request whose import or reload ended with
      `outcome`, where `loaded` is `already_loaded` before the call. */
  function LoadReply(outcome: Outcome, loaded: bool): (e: Effect)
    ensures e.loaded <==> loaded || outcome.Ok?
  {
    match outcome
    case Ok(captured) => Send(PRINT, Compose(captured, "", EXEC_RESULT), true)
    case SysExit => Send(EXCEPTION, "SystemExit", loaded)
    case Exc(captured, traceback) => Send(INITIALIZE, Compose(captured, RStrip(traceback), ""), loaded)
    case Uncaught => Stop([], Crashed, loaded)
  }

  /** The call a LOAD request makes: a reload once a module is loaded. */
  function CallFor(loaded: bool): Call {
    if loaded then Reload else Import
  }

  /** One pass of the loop body for the `i`-th received chunk. */
  function Step(r: Recv, loaded: bool, exec: Exec, i: nat): Effect {
    match r
    case ConnectionReset => Stop([], PeerReset, loaded)
    case Data(bytes) =>
      var inst := Instruction(bytes);
      if inst == EXIT then Stop([EncodeFrame(EXIT as int, "").value], Exited, loaded)
      else if inst == LOAD then LoadReply(exec(CallFor(loaded), i), loaded)
      else Send(UNKNOWN, "", loaded)
  }

  /** The frames a session sends, `already_loaded` when it ends, and how it
      ends. */
  datatype Session = Session(sent: seq<seq<byte>>, loaded: bool, end: End)

  /** A session that already sent `frames` before going on like `s`. */
  function Prepend(frames: seq<seq<byte>>, s: Session): Session {
    Session(frames + s.sent, s.loaded, s.end)
  }

  /** The session from the `i`-th received chunk on, with `already_loaded`
      equal to `loaded`. */
  function Run(input: seq<Recv>, i: nat, loaded: bool, exec: Exec): Session
    decreases |input| - i
  {
    if i >= |input| then Session([], loaded, AwaitingInput)
    else
      match Step(input[i], loaded, exec, i)
      case Continue(frame, loaded') => Prepend([frame], Run(input, i + 1, loaded', exec))
      case Stop(frames, end, loaded') => Session(frames, loaded', end)
  }

  /** One chunk's effect on the rest of the session. */
  lemma RunStep(input: seq<Recv>, i: nat, loaded: bool, exec: Exec)
    requires i < |input|
    ensures match Step(input[i], loaded, exec, i)
            case Continue(frame, loaded') => Run(input, i, loaded, exec) == Prepend([frame], Run(input, i + 1, loaded', exec))
            case Stop(frames, end, loaded') => Run(input, i, loaded, exec) == Session(frames, loaded', end)
  {
  }

  lemma PrependTwice(a: seq<seq<byte>>, b: seq<seq<byte>>, s: Session)
    ensures Prepend(a, Prepend(b, s)) == Prepend(a + b, s)
  {
    assert a + (b + s.sent) == a + b + s.sent;
  }

  /** The LOAD branch of the loop body, for a call that ended with
      `outcome` while `already_loaded` was `loaded`. */
  method Load(outcome: Outcome, loaded: bool) returns (effect: Effect)
    ensures effect == LoadReply(outcome, loaded)
  {
    var res := "";
    var exc := "";
    var respInst := PRINT;
    var captured := "";
    var loaded' := loaded;
    if outcome.Uncaught? {
      return Stop([], Crashed, loaded);
    } else if outcome.SysExit? {
      return Send(EXCEPTION, "SystemExit", loaded);
    } else if outcome.Ok? {
      captured := outcome.captured;
      res := EXEC_RESULT;
      loaded' := true;
    } else {
      captured := outcome.captured;
      exc := RStrip(outcome.traceback);
      respInst := INITIALIZE;
    }
    var out := DropLast(captured);
    if (out != [] && exc != []) || res != [] {
      out := out + "\n";
    }
    assert out + exc + res == Compose(captured, exc, res);
    effect := Send(respInst, out + exc + res, loaded');
  }

  /** The loop body for the `i`-th received chunk, up to sending. */
  method Dispatch(received: Recv, loaded: bool, exec: Exec, i: nat) returns (effect: Effect)
    ensures effect == Step(received, loaded, exec, i)
  {
    if received.ConnectionReset? {
      return Stop([], PeerReset, loaded);
    }
    var inst := Instruction(received.bytes);
    if inst == EXIT {
      effect := Stop([EncodeFrame(EXIT as int, "").value], Exited, loaded);
    } else if inst == LOAD {
      effect := Load(exec(if loaded then Reload else Import, i), loaded);
    } else {
      effect := Send(UNKNOWN, "", loaded);
    }
  }

  /** The server's main loop. It returns the frames sent, the final value
      of `already_loaded`, how the loop ended and whether the sockets were
      closed afterwards. */
  method Serve(input: seq<Recv>, exec: Exec) returns (sent: seq<seq<byte>>, loaded: bool, end: End, closed: bool)
    ensures Session(sent, loaded, end) == Run(input, 0, false, exec)
    ensures closed <==> end == Exited || end == PeerReset
  {
    sent := [];
    loaded := false;
    closed := false;
    var i := 0;
    ghost var whole := Run(input, 0, false, exec);
    while true
      invariant 0 <= i <= |input|
      invariant whole == Prepend(sent, Run(input, i, loaded, exec))
      decreases |input| - i
    {
      if i == |input| {
        end := AwaitingInput;
        return;
      }
      var effect := Dispatch(input[i], loaded, exec, i);
      RunStep(input, i, loaded, exec);
      i := i + 1;
      match effect
      case Continue(frame, loaded') =>
        PrependTwice(sent, [frame], Run(input, i, loaded', exec));
        sent := sent + [frame];
        loaded := loaded';
      case Stop(frames, stop, loaded') =>
        sent := sent + frames;
        loaded := loaded';
        end := stop;
        closed := stop == Exited || stop == PeerReset;
        return;
    }
  }

  /** An EXIT request gets exactly the frame `[5, 0, 0]` and ends the
      session, `already_loaded` unchanged. */
  lemma ExitEndsSession(input: seq<Recv>, i: nat, loaded: bool, exec: Exec)
    requires i < |input| && input[i].Data? && Instruction(input[i].bytes) == EXIT
    ensures Run(input, i, loaded, exec) == Session([[EXIT, 0, 0]], loaded, Exited)
  {
    EmptyFrame(EXIT);
  }

  /** Any instruction other than LOAD and EXIT, including the 0 read from an
      empty chunk, gets the frame `[0, 0, 0]`; the session goes on with
      `already_loaded` unchanged. */
  lemma UnknownInstruction(input: seq<Recv>, i: nat, loaded: bool, exec: Exec)
    requires i < |input| && input[i].Data?
    requires Instruction(input[i].bytes) != LOAD && Instruction(input[i].bytes) != EXIT
    ensures Run(input, i, loaded, exec) == Prepend([[UNKNOWN, 0, 0]], Run(input, i + 1, loaded, exec))
  {
    EmptyFrame(UNKNOWN);
  }

  /** A reset connection ends the session without a reply. */
  lemma ResetEndsSession(input: seq<Recv>, i: nat, loaded: bool, exec: Exec)
    requires i < |input| && input[i] == ConnectionReset
    ensures Run(input, i, loaded, exec) == Session([], loaded, PeerReset)
  {
  }

  /** A LOAD request that holds the `i`-th chunk. */
  predicate IsLoad(input: seq<Recv>, i: nat) {
    i < |input| && input[i].Data? && Instruction(input[i].bytes) == LOAD
  }

  /** The payload of a successful LOAD. */
  lemma ComposeOk(captured: string)
    ensures Compose(captured, "", EXEC_RESULT) == DropLast(captured) + "\n" + EXEC_RESULT
  {
    var withNewline := DropLast(captured) + "\n";
    assert Compose(captured, "", EXEC_RESULT) == withNewline + "" + EXEC_RESULT;
    assert withNewline + "" == withNewline;
  }

  /** The payload of a LOAD that raised: no result text, so the newline
      only separates non-empty output and traceback. */
  lemma ComposeExc(captured: string, exc: string)
    ensures var out := DropLast(captured);
            Compose(captured, exc, "") == if out != [] && exc != [] then out + "\n" + exc else out + exc
  {
    var out := DropLast(captured);
    assert out + "\n" + exc + "" == out + "\n" + exc;
    assert out + exc + "" == out + exc;
  }

  /** A LOAD whose call succeeds replies PRINT with the captured output minus
      its last character, a newline and `None`, and sets `already_loaded`;
      if that payload is too long to encode the session crashes, with
      `already_loaded` already set. */
  lemma LoadSucceeded(input: seq<Recv>, i: nat, loaded: bool, exec: Exec, captured: string)
    requires IsLoad(input, i) && exec(CallFor(loaded), i) == Ok(captured)
    ensures var payload := DropLast(captured) + "\n" + EXEC_RESULT;
            Run(input, i, loaded, exec)
            == if |Utf8(payload)| <= MAX_PAYLOAD
               then Prepend([EncodeFrame(PRINT as int, payload).value], Run(input, i + 1, true, exec))
               else Session([], true, Crashed)
  {
    var payload := DropLast(captured) + "\n" + EXEC_RESULT;
    ComposeOk(captured);
    assert Step(input[i], loaded, exec, i) == Send(PRINT, payload, true);
    RunStep(input, i, loaded, exec);
    if |Utf8(payload)| <= MAX_PAYLOAD {
      assert Send(PRINT, payload, true) == Continue(EncodeFrame(PRINT as int, payload).value, true);
    }
  }

  /** A LOAD whose call raises `SystemExit` replies EXCEPTION with the text
      `SystemExit`, whatever the call printed, and leaves `already_loaded`
      unchanged. */
  lemma LoadSystemExit(input: seq<Recv>, i: nat, loaded: bool, exec: Exec)
    requires IsLoad(input, i) && exec(CallFor(loaded), i) == SysExit
    ensures EncodeFrame(EXCEPTION as int, "SystemExit").Success?
    ensures Run(input, i, loaded, exec)
         == Prepend([EncodeFrame(EXCEPTION as int, "SystemExit").value], Run(input, i + 1, loaded, exec))
  {
  }

  /** A LOAD whose call raises an ordinary exception replies INITIALIZE with
      the captured output minus its last character and the traceback with
      its trailing whitespace stripped (a newline between them when both are
      non-empty), and leaves `already_loaded` unchanged; if that payload is
      too long to encode the session crashes. */
  lemma LoadFailed(input: seq<Recv>, i: nat, loaded: bool, exec: Exec, captured: string, traceback: string)
    requires IsLoad(input, i) && exec(CallFor(loaded), i) == Exc(captured, traceback)
    ensures var out := DropLast(captured);
            var exc := RStrip(traceback);
            var payload := if out != [] && exc != [] then out + "\n" + exc else out + exc;
            Run(input, i, loaded, exec)
            == if |Utf8(payload)| <= MAX_PAYLOAD
               then Prepend([EncodeFrame(INITIALIZE as int, payload).value], Run(input, i + 1, loaded, exec))
               else Session([], loaded, Crashed)
  {
    var out := DropLast(captured);
    var exc := RStrip(traceback);
    var payload := if out != [] && exc != [] then out + "\n" + exc else out + exc;
    ComposeExc(captured, exc);
    assert Step(input[i], loaded, exec, i) == Send(INITIALIZE, payload, loaded);
    RunStep(input, i, loaded, exec);
    if |Utf8(payload)| <= MAX_PAYLOAD {
      assert Send(INITIALIZE, payload, loaded) == Continue(EncodeFrame(INITIALIZE as int, payload).value, loaded);
    }
  }

  /** A LOAD whose call raises a `BaseException` no handler catches ends the
      session without a reply. */
  lemma LoadUncaught(input: seq<Recv>, i: nat, loaded: bool, exec: Exec)
    requires IsLoad(input, i) && exec(CallFor(loaded), i) == Uncaught
    ensures Run(input, i, loaded, exec) == Session([], loaded, Crashed)
  {
  }

  /** After one chunk `already_loaded` is set exactly when it was set before
      or the chunk was a LOAD whose call succeeded, whether the loop goes on
      or stops. */
  lemma StepLoaded(r: Recv, loaded: bool, exec: Exec, i: nat)
    ensures Step(r, loaded, exec, i).loaded
        <==> loaded || (r.Data? && Instruction(r.bytes) == LOAD && exec(CallFor(loaded), i).Ok?)
  {
  }

  /** Once set, `already_loaded` stays set for the rest of the session, even
      when a later reload fails. */
  lemma {:induction false} LoadedIsSticky(input: seq<Recv>, i: nat, exec: Exec)
    ensures Run(input, i, true, exec).loaded
    decreases |input| - i
  {
    if i < |input| {
      match Step(input[i], true, exec, i)
      case Continue(_, _) =>
        StepLoaded(input[i], true, exec, i);
        LoadedIsSticky(input, i + 1, exec);
      case Stop(_, _, _) =>
        StepLoaded(input[i], true, exec, i);
    }
  }

  /** A session that starts unloaded ends loaded only if it reached some
      LOAD request with `already_loaded` still false, every chunk before it
      having kept the session going unloaded, and the import made there
      succeeded. */
  lemma {:induction false} LoadedOnlyAfterImport(input: seq<Recv>, i: nat, exec: Exec)
    requires Run(input, i, false, exec).loaded
    ensures exists j :: i <= j && IsLoad(input, j) && exec(Import, j).Ok?
              && (forall k :: i <= k < j ==> Step(input[k], false, exec, k).Continue? && !Step(input[k], false, exec, k).loaded)
    decreases |input| - i
  {
    StepLoaded(input[i], false, exec, i);
    match Step(input[i], false, exec, i)
    case Continue(_, loaded') =>
      if loaded' {
        assert IsLoad(input, i) && exec(Import, i).Ok?;
      } else {
        LoadedOnlyAfterImport(input, i + 1, exec);
        var j :| i + 1 <= j && IsLoad(input, j) && exec(Import, j).Ok?
                  && (forall k :: i + 1 <= k < j ==> Step(input[k], false, exec, k).Continue? && !Step(input[k], false, exec, k).loaded);
        assert forall k :: i <= k < j ==> Step(input[k], false, exec, k).Continue? && !Step(input[k], false, exec, k).loaded;
      }
    case Stop(_, _, _) =>
      assert IsLoad(input, i) && exec(Import, i).Ok?;
  }

  /** A frame the server may send: it parses with nothing left over, its
      payload is valid UTF-8, and its tag is one the server sends (never
      LOAD, which only the client sends). */
  predicate IsReply(frame: seq<byte>) {
    var p := ParseFrame(frame);
    p.Some? && p.value.rest == [] && Utf8Decode(p.value.payload).Some?
    && p.value.tag in {UNKNOWN, PRINT, EXCEPTION, INITIALIZE, EXIT}
  }

  /** Every frame `encode` produces for a server tag is a reply frame. */
  lemma EncodedIsReply(instr: byte, payload: string)
    requires instr in {UNKNOWN, PRINT, EXCEPTION, INITIALIZE, EXIT}
    requires EncodeFrame(instr as int, payload).Success?
    ensures IsReply(EncodeFrame(instr as int, payload).value)
  {
    var frame := EncodeFrame(instr as int, payload).value;
    ParseEncodeFrame(instr as int, payload, []);
    assert frame + [] == frame;
  }

  /** A LOAD sends only a reply frame, if anything. */
  lemma LoadReplies(outcome: Outcome, loaded: bool)
    ensures match LoadReply(outcome, loaded)
            case Continue(frame, _) => IsReply(frame)
            case Stop(frames, _, _) => frames == []
  {
    match outcome
    case Ok(captured) =>
      var payload := Compose(captured, "", EXEC_RESULT);
      if EncodeFrame(PRINT as int, payload).Success? {
        EncodedIsReply(PRINT, payload);
      }
    case SysExit =>
      EncodedIsReply(EXCEPTION, "SystemExit");
    case Exc(captured, traceback) =>
      var payload := Compose(captured, RStrip(traceback), "");
      if EncodeFrame(INITIALIZE as int, payload).Success? {
        EncodedIsReply(INITIALIZE, payload);
      }
    case Uncaught =>
  }

  /** One chunk sends only reply frames, at most one of them. */
  lemma StepReplies(r: Recv, loaded: bool, exec: Exec, i: nat)
    ensures match Step(r, loaded, exec, i)
            case Continue(frame, _) => IsReply(frame)
            case Stop(frames, _, _) => |frames| <= 1 && forall f <- frames :: IsReply(f)
  {
    match r
    case ConnectionReset =>
    case Data(bytes) =>
      var inst := Instruction(bytes);
      if inst == EXIT {
        EncodedIsReply(EXIT, "");
      } else if inst == LOAD {
        LoadReplies(exec(CallFor(loaded), i), loaded);
      } else {
        EncodedIsReply(UNKNOWN, "");
      }
  }

  /** Every frame a session sends is a reply frame, and no chunk gets more
      than one. */
  lemma {:induction false} SessionReplies(input: seq<Recv>, i: nat, loaded: bool, exec: Exec)
    requires i <= |input|
    ensures forall f <- Run(input, i, loaded, exec).sent :: IsReply(f)
    ensures |Run(input, i, loaded, exec).sent| <= |input| - i
    decreases |input| - i
  {
    if i < |input| {
      StepReplies(input[i], loaded, exec, i);
      RunStep(input, i, loaded, exec);
      match Step(input[i], loaded, exec, i)
      case Continue(frame, loaded') =>
        SessionReplies(input, i + 1, loaded', exec);
      case Stop(_, _, _) =>
    }
  }
}
