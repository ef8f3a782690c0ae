/**
 * The per-channel part of the server (server.go, handleChannels): the
 * channel-type gate, shell selection, and the request loop that turns each
 * out-of-band channel request (section 6 of RFC 4254) into an action and at
 * most one reply.
 *
 * Processes, pseudo-terminals and byte relays are not modelled; they appear
 * as action tags. Whether `cmd.Start` (exec) or `PtyRun` (shell) succeeds is
 * an input carried by each request.
 */
module Session {
  import opened Wrappers
  import opened Wire

  const DefaultShell: string := "sh"

  const Exec: string := "exec"
  const Shell: string := "shell"
  const PtyReq: string := "pty-req"
  const WindowChange: string := "window-change"

  /**
   * A channel request: its type, its payload, and whether the operating system
   * would start the process it asks for. For `shell` that start also needs the
   * channel's terminal to be still open (see `TtyOpenAfter`).
   */
  datatype Request = Request(kind: string, payload: seq<byte>, startOk: bool)

  /** What the server does for one request, beyond its reply. */
  datatype Action =
    | SpawnExec(program: string, command: seq<byte>)       // `program -c command` started on the channel; its wait task closes the channel
    | ExecNotStarted(program: string, command: seq<byte>)  // `cmd.Start` failed; logged
    | SpawnShell(program: string, started: bool)           // `PtyRun` attempted and both relays started, whether or not it started
    | ResizePty(term: seq<byte>, width: uint32, height: uint32)
    | Resize(width: uint32, height: uint32)
    | Decline                                              // nothing done

  /** One request handled: an action and an optional reply, or a panic that ends the process. */
  datatype Step = Crash(panic: Panic) | Handled(action: Action, reply: Option<bool>)

  /** Whether the server can decode `payload` for a request of type `kind` without a bounds panic. */
  predicate Decodable(kind: string, payload: seq<byte>)
  {
    if kind == Exec then |payload| >= 4 && payload[3] < 252 && 4 + payload[3] as int <= |payload|
    else if kind == PtyReq then |payload| >= 4 && payload[3] < 252 && 12 + payload[3] as int <= |payload|
    else if kind == WindowChange then |payload| >= 8
    else true
  }

  /**
   * The reply policy: `window-change` is never answered, `pty-req` always
   * succeeds, `shell` succeeds only without arguments, `exec` succeeds once
   * started and is left unanswered when its start fails, any other type fails.
   */
  function ReplyPolicy(kind: string, payload: seq<byte>, startOk: bool): Option<bool>
  {
    if kind == WindowChange then None
    else if kind == PtyReq then Some(true)
    else if kind == Shell then Some(|payload| == 0)
    else if kind == Exec then (if startOk then Some(true) else None)
    else Some(false)
  }

  /**
   * One request of the switch in the request loop; `ttyOpen` says whether the
   * terminal's subordinate handle that `PtyRun` binds to is still open.
   */
  function Dispatch(shell: string, kind: string, payload: seq<byte>, startOk: bool, ttyOpen: bool): (r: Step)
    ensures r.Crash? <==> !Decodable(kind, payload)
    ensures r.Handled? ==> r.reply == ReplyPolicy(kind, payload, startOk)
  {
    if kind == Exec then
      match LengthPrefixed(payload)
      case Panicked(e) => Crash(e)
      case Ok(command) =>
        if startOk then Handled(SpawnExec(shell, command), Some(true))
        else Handled(ExecNotStarted(shell, command), None)
    else if kind == Shell then
      Handled(SpawnShell(shell, startOk && ttyOpen), Some(|payload| == 0))
    else if kind == PtyReq then
      match ParsePtyReq(payload)
      case Panicked(e) => Crash(e)
      case Ok(q) => Handled(ResizePty(q.term, q.width, q.height), Some(true))
    else if kind == WindowChange then
      match ParseDims(payload)
      case Panicked(e) => Crash(e)
      case Ok(d) => Handled(Resize(d.width, d.height), None)
    else
      Handled(Decline, Some(false))
  }

  /**
   * The action of each handled request: `shell` always spawns and starts its
   * relays (the process itself only on an open terminal), `exec` runs
   * `shell -c` with exactly the decoded command, `pty-req` and `window-change`
   * resize to the decoded dimensions, and any other type does nothing.
   */
  lemma DispatchActions(shell: string, kind: string, payload: seq<byte>, startOk: bool, ttyOpen: bool)
    ensures var r := Dispatch(shell, kind, payload, startOk, ttyOpen);
            r.Handled? && kind == Shell ==> r.action == SpawnShell(shell, startOk && ttyOpen)
    ensures var r := Dispatch(shell, kind, payload, startOk, ttyOpen);
            r.Handled? && kind == Exec ==>
              var c := payload[4 .. 4 + payload[3] as int];
              r.action == (if startOk then SpawnExec(shell, c) else ExecNotStarted(shell, c))
    ensures var r := Dispatch(shell, kind, payload, startOk, ttyOpen);
            r.Handled? && (r.action.SpawnExec? || r.action.ExecNotStarted?) ==> kind == Exec
    ensures var r := Dispatch(shell, kind, payload, startOk, ttyOpen);
            r.Handled? && r.action.SpawnShell? ==> kind == Shell
    ensures var r := Dispatch(shell, kind, payload, startOk, ttyOpen);
            r.Handled? && kind == WindowChange ==> r.action == Resize(BE32(payload[..4]), BE32(payload[4..8]))
    ensures var r := Dispatch(shell, kind, payload, startOk, ttyOpen);
            r.Handled? && kind == PtyReq ==>
              var n := payload[3] as int;
              r.action == ResizePty(payload[4 .. 4 + n], BE32(payload[4 + n ..]), BE32(payload[8 + n ..]))
    ensures var r := Dispatch(shell, kind, payload, startOk, ttyOpen);
            r.Handled? && kind !in {Exec, Shell, PtyReq, WindowChange} ==> r.action == Decline
  {
  }

  /** What a channel's request loop has done: replies sent and actions taken, in order, and the panic that ended it, if any. */
  datatype Trace = Trace(replies: seq<bool>, actions: seq<Action>, panic: Option<Panic>)

  const Idle: Trace := Trace([], [], None)

  /** The trace of `t` followed by the trace `u` of later requests. */
  function Then(t: Trace, u: Trace): Trace
  {
    Trace(t.replies + u.replies, t.actions + u.actions, u.panic)
  }

  /**
   * Whether the channel's terminal, open or not before `reqs`, is still open
   * after them: `PtyRun` closes it when it returns, so every `shell` request
   * closes it, whether or not its process started.
   */
  predicate TtyOpenAfter(open: bool, reqs: seq<Request>)
    decreases |reqs|
  {
    if reqs == [] then open
    else TtyOpenAfter(open, reqs[.. |reqs| - 1]) && reqs[|reqs| - 1].kind != Shell
  }

  /** The terminal stays open exactly as long as no `shell` request has come. */
  lemma {:induction false} TtyOpenUntilShell(open: bool, reqs: seq<Request>)
    ensures TtyOpenAfter(open, reqs) <==> open && forall i :: 0 <= i < |reqs| ==> reqs[i].kind != Shell
    decreases |reqs|
  {
    if reqs != [] {
      var init := reqs[.. |reqs| - 1];
      TtyOpenUntilShell(open, init);
      assert forall i :: 0 <= i < |init| ==> init[i] == reqs[i];
    }
  }

  /** The terminal state after `a + b` is that after `a`, then `b`. */
  lemma {:induction false} TtyOpenAfterAppend(open: bool, a: seq<Request>, b: seq<Request>)
    ensures TtyOpenAfter(open, a + b) == TtyOpenAfter(TtyOpenAfter(open, a), b)
    decreases |b|
  {
    if b == [] {
      assert a + b == a;
    } else {
      assert (a + b)[.. |a + b| - 1] == a + b[.. |b| - 1];
      assert (a + b)[|a + b| - 1] == b[|b| - 1];
      TtyOpenAfterAppend(open, a, b[.. |b| - 1]);
    }
  }

  /**
   * The requests of one channel handled in arrival order, starting with the
   * terminal open or closed as `open` says; a panic stops everything.
   */
  function Run(shell: string, open: bool, reqs: seq<Request>): (t: Trace)
    ensures |t.replies| <= |t.actions| <= |reqs|
    decreases |reqs|
  {
    if reqs == [] then Idle
    else
      var init := reqs[.. |reqs| - 1];
      var q := reqs[|reqs| - 1];
      Extend(Run(shell, open, init), Dispatch(shell, q.kind, q.payload, q.startOk, TtyOpenAfter(open, init)))
  }

  /** The trace `t` after one more request was handled as `s`; nothing happens after a panic. */
  function Extend(t: Trace, s: Step): Trace
  {
    if t.panic.Some? then t
    else
      match s
      case Crash(e) => Trace(t.replies, t.actions, Some(e))
      case Handled(a, reply) => Trace(t.replies + OptionToSeq(reply), t.actions + [a], None)
  }

  /** One more request extends the trace of those before it, seeing the terminal as they left it. */
  lemma RunSnoc(shell: string, open: bool, init: seq<Request>, q: Request)
    ensures Run(shell, open, init + [q])
            == Extend(Run(shell, open, init), Dispatch(shell, q.kind, q.payload, q.startOk, TtyOpenAfter(open, init)))
    ensures TtyOpenAfter(open, init + [q]) == (TtyOpenAfter(open, init) && q.kind != Shell)
  {
    assert (init + [q])[.. |init|] == init;
  }

  /** The replies the policy asks for, request after request. */
  function Answers(reqs: seq<Request>): seq<bool>
    decreases |reqs|
  {
    if reqs == [] then []
    else
      var q := reqs[|reqs| - 1];
      Answers(reqs[.. |reqs| - 1]) + OptionToSeq(ReplyPolicy(q.kind, q.payload, q.startOk))
  }

  /**
   * Handling `a` then `b`, with the terminal as `a` left it, is handling `a + b`;
   * a panic in `a` means `b` is never looked at.
   */
  lemma {:induction false} RunAppend(shell: string, open: bool, a: seq<Request>, b: seq<Request>)
    ensures Run(shell, open, a + b) ==
              if Run(shell, open, a).panic.Some? then Run(shell, open, a)
              else Then(Run(shell, open, a), Run(shell, TtyOpenAfter(open, a), b))
    decreases |b|
  {
    if b == [] {
      assert a + b == a;
    } else {
      var b', q := b[.. |b| - 1], b[|b| - 1];
      assert (a + b)[.. |a + b| - 1] == a + b';
      assert (a + b)[|a + b| - 1] == q;
      TtyOpenAfterAppend(open, a, b');
      RunAppend(shell, open, a, b');
      var step := Dispatch(shell, q.kind, q.payload, q.startOk, TtyOpenAfter(open, a + b'));
      assert Run(shell, open, a + b) == Extend(Run(shell, open, a + b'), step);
      if Run(shell, open, a).panic.None? {
        var u := Run(shell, TtyOpenAfter(open, a), b');
        assert Run(shell, TtyOpenAfter(open, a), b) == Extend(u, step);
        ExtendThen(Run(shell, open, a), u, step);
      }
    }
  }

  /** Extending a joined trace extends its later part. */
  lemma ExtendThen(t: Trace, u: Trace, s: Step)
    requires t.panic.None?
    ensures Extend(Then(t, u), s) == Then(t, Extend(u, s))
  {
  }

  /**
   * A loop that did not panic sent exactly the replies the policy asks for, in
   * request order, and took one action per request; it does not panic exactly
   * when every payload is decodable.
   */
  lemma {:induction false} RunFollowsPolicy(shell: string, open: bool, reqs: seq<Request>)
    ensures Run(shell, open, reqs).panic.None? <==> forall i :: 0 <= i < |reqs| ==> Decodable(reqs[i].kind, reqs[i].payload)
    ensures Run(shell, open, reqs).panic.None? ==> Run(shell, open, reqs).replies == Answers(reqs) && |Run(shell, open, reqs).actions| == |reqs|
    decreases |reqs|
  {
    if reqs != [] {
      var init := reqs[.. |reqs| - 1];
      RunFollowsPolicy(shell, open, init);
      assert forall i :: 0 <= i < |init| ==> init[i] == reqs[i];
    }
  }

  /** `window-change` notifications never produce a reply, however many arrive. */
  lemma {:induction false} WindowChangesAreSilent(shell: string, open: bool, reqs: seq<Request>)
    requires forall i :: 0 <= i < |reqs| ==> reqs[i].kind == WindowChange
    ensures Run(shell, open, reqs).replies == []
    decreases |reqs|
  {
    if reqs != [] {
      WindowChangesAreSilent(shell, open, reqs[.. |reqs| - 1]);
    }
  }

  /**
   * A second `shell` request is not refused: it is answered true and its relays
   * start, but its process cannot start, because the first `PtyRun` closed the
   * terminal it would be bound to — even where the system could start it.
   */
  lemma SecondShellCannotStart(shell: string)
    ensures Run(shell, true, [Request(Shell, [], true), Request(Shell, [], true)])
            == Trace([true, true], [SpawnShell(shell, true), SpawnShell(shell, false)], None)
  {
    var one := Request(Shell, [], true);
    assert [one, one][.. 1] == [one];
    assert [one][.. 0] == [];
    assert Run(shell, true, [one]) == Trace([true], [SpawnShell(shell, true)], None);
  }

  /** How many of `actions` started a shell process. */
  function StartedShells(actions: seq<Action>): (n: nat)
    ensures n <= |actions|
    decreases |actions|
  {
    if actions == [] then 0
    else
      var a := actions[|actions| - 1];
      StartedShells(actions[.. |actions| - 1]) + (if a.SpawnShell? && a.started then 1 else 0)
  }

  /**
   * A channel starts at most one shell process, and none once its terminal is
   * closed: every started shell uses up the open terminal, whatever requests
   * come and whatever the system would allow.
   */
  lemma {:induction false} AtMostOneShellStarts(shell: string, open: bool, reqs: seq<Request>)
    ensures StartedShells(Run(shell, open, reqs).actions) + (if TtyOpenAfter(open, reqs) then 1 else 0)
            <= (if open then 1 else 0)
    decreases |reqs|
  {
    if reqs != [] {
      var init, q := reqs[.. |reqs| - 1], reqs[|reqs| - 1];
      assert init + [q] == reqs;
      AtMostOneShellStarts(shell, open, init);
      RunSnoc(shell, open, init, q);
      var t := Run(shell, open, init);
      var tty := TtyOpenAfter(open, init);
      var s := Dispatch(shell, q.kind, q.payload, q.startOk, tty);
      DispatchActions(shell, q.kind, q.payload, q.startOk, tty);
      if t.panic.None? && s.Handled? {
        StartedShellsSnoc(t.actions, s.action);
      }
    }
  }

  /** One more action adds one started shell exactly when it started one. */
  lemma StartedShellsSnoc(actions: seq<Action>, a: Action)
    ensures StartedShells(actions + [a]) == StartedShells(actions) + (if a.SpawnShell? && a.started then 1 else 0)
  {
    assert (actions + [a])[.. |actions|] == actions;
  }

  /** An `exec` whose command was encoded with its full length prefix runs exactly that command, with no extra bytes. */
  lemma ExecRunsEncodedCommand(shell: string, command: seq<byte>, rest: seq<byte>)
    requires |command| <= 251
    ensures forall tty: bool :: Dispatch(shell, Exec, EncodeString(command) + rest, true, tty) == Handled(SpawnExec(shell, command), Some(true))
    ensures forall tty: bool :: Dispatch(shell, Exec, EncodeString(command) + rest, false, tty) == Handled(ExecNotStarted(shell, command), None)
  {
  }

  /** A `pty-req` whose body was encoded from a short name and two dimensions resizes to them and is answered true. */
  lemma PtyReqDispatch(shell: string, term: seq<byte>, w: uint32, h: uint32, rest: seq<byte>, startOk: bool, ttyOpen: bool)
    requires |term| <= 251
    ensures Dispatch(shell, PtyReq, EncodeString(term) + EncodeUint32(w) + EncodeUint32(h) + rest, startOk, ttyOpen)
            == Handled(ResizePty(term, w, h), Some(true))
  {
    PtyReqRoundTrip(term, w, h, rest);
  }

  /** A `pty-req` followed by an argument-free `shell`: both are answered true, the terminal is sized, the shell spawned. */
  lemma PtyReqThenShell(shell: string, term: seq<byte>, w: uint32, h: uint32, rest: seq<byte>, s1: bool, s2: bool)
    requires |term| <= 251
    ensures var pty := Request(PtyReq, EncodeString(term) + EncodeUint32(w) + EncodeUint32(h) + rest, s1);
            Run(shell, true, [pty, Request(Shell, [], s2)])
            == Trace([true, true], [ResizePty(term, w, h), SpawnShell(shell, s2)], None)
  {
    var p := EncodeString(term) + EncodeUint32(w) + EncodeUint32(h) + rest;
    PtyReqDispatch(shell, term, w, h, rest, s1, true);
    ResizeThenShell(shell, Request(PtyReq, p, s1), ResizePty(term, w, h), s2);
  }

  /** A `pty-req` handled as `a` with a true reply, then an empty `shell`. */
  lemma ResizeThenShell(shell: string, q: Request, a: Action, s2: bool)
    requires q.kind == PtyReq
    requires Dispatch(shell, q.kind, q.payload, q.startOk, true) == Handled(a, Some(true))
    ensures Run(shell, true, [q, Request(Shell, [], s2)]) == Trace([true, true], [a, SpawnShell(shell, s2)], None)
  {
    var sh := Request(Shell, [], s2);
    RunSnoc(shell, true, [], q);
    assert [] + [q] == [q];
    assert Run(shell, true, [q]) == Trace([true], [a], None) && TtyOpenAfter(true, [q]);
    RunSnoc(shell, true, [q], sh);
    assert [q] + [sh] == [q, sh];
  }

  /**
   * The request loop of one channel (the `for req := range in` body), with its
   * local `ok` set by the switch before the reply.
   */
  method ServeRequests(shell: string, reqs: seq<Request>) returns (replies: seq<bool>, actions: seq<Action>, panic: Option<Panic>)
    ensures Trace(replies, actions, panic) == Run(shell, true, reqs)
  {
    replies, actions, panic := [], [], None;
    var ttyOpen := true;  // the channel's terminal, opened before the loop
    for i := 0 to |reqs|
      invariant ttyOpen == TtyOpenAfter(true, reqs[..i])
      invariant Trace(replies, actions, None) == Run(shell, true, reqs[..i])
    {
      var req := reqs[i];
      RunSnoc(shell, true, reqs[..i], req);
      assert reqs[..i] + [req] == reqs[.. i + 1];
      var ok := false;
      if req.kind == Exec {
        ok := true;
        var command := LengthPrefixed(req.payload);
        if command.Panicked? {
          panic := Some(command.panic);
          StopsAtPanic(shell, true, reqs, i);
          return;
        }
        if !req.startOk {
          actions := actions + [ExecNotStarted(shell, command.value)];
          continue;
        }
        actions := actions + [SpawnExec(shell, command.value)];
      } else if req.kind == Shell {
        // PtyRun starts the shell on the terminal and closes the terminal on return
        actions := actions + [SpawnShell(shell, req.startOk && ttyOpen)];
        ttyOpen := false;
        if |req.payload| == 0 {
          ok := true;
        }
      } else if req.kind == PtyReq {
        ok := true;
        var body := ParsePtyReq(req.payload);
        if body.Panicked? {
          panic := Some(body.panic);
          StopsAtPanic(shell, true, reqs, i);
          return;
        }
        actions := actions + [ResizePty(body.value.term, body.value.width, body.value.height)];
      } else if req.kind == WindowChange {
        var dims := ParseDims(req.payload);
        if dims.Panicked? {
          panic := Some(dims.panic);
          StopsAtPanic(shell, true, reqs, i);
          return;
        }
        actions := actions + [Resize(dims.value.width, dims.value.height)];
        continue;
      } else {
        actions := actions + [Decline];
      }
      replies := replies + [ok];
    }
    assert reqs[.. |reqs|] == reqs;
  }

  /** Once the request at `i` panics, the whole loop's trace is that of the first `i + 1` requests. */
  lemma StopsAtPanic(shell: string, open: bool, reqs: seq<Request>, i: nat)
    requires i < |reqs|
    requires Run(shell, open, reqs[.. i]).panic.None?
    requires !Decodable(reqs[i].kind, reqs[i].payload)
    ensures Run(shell, open, reqs).panic.Some? && Run(shell, open, reqs) == Run(shell, open, reqs[.. i + 1])
    ensures Run(shell, open, reqs).replies == Run(shell, open, reqs[.. i]).replies
    ensures Run(shell, open, reqs).actions == Run(shell, open, reqs[.. i]).actions
  {
    var before := Run(shell, open, reqs[.. i]);
    var upTo := Run(shell, open, reqs[.. i + 1]);
    assert upTo.panic.Some? && upTo.replies == before.replies && upTo.actions == before.actions by {
      var q := reqs[i];
      assert reqs[.. i] + [q] == reqs[.. i + 1];
      RunSnoc(shell, open, reqs[.. i], q);
      assert Dispatch(shell, q.kind, q.payload, q.startOk, TtyOpenAfter(open, reqs[.. i])).Crash?;
    }
    assert Run(shell, open, reqs) == Run(shell, open, reqs[.. i + 1]) by {
      assert reqs[.. i + 1] + reqs[i + 1 ..] == reqs;
      RunAppend(shell, open, reqs[.. i + 1], reqs[i + 1 ..]);
    }
  }

  /** `$SHELL` when set and non-empty, else `sh`; the server's own shell path is not consulted. */
  function SelectShell(env: string): (shell: string)
    ensures shell != ""
    ensures env != "" ==> shell == env
    ensures env == "" ==> shell == DefaultShell
  {
    if env == "" then DefaultShell else env
  }

  /** The reason codes of section 5.1 of RFC 4254 the server uses. */
  datatype RejectReason = UnknownChannelType

  function ReasonCode(r: RejectReason): nat
  {
    match r
    case UnknownChannelType => 3
  }

  /** A channel-open request with the outcomes of `Accept` and `pty.Open` for it, and its requests. */
  datatype NewChannel = NewChannel(chanType: string, acceptOk: bool, ptyOk: bool, requests: seq<Request>)

  /** What becomes of a new channel. */
  datatype Admission =
    | Rejected(reason: RejectReason, message: string)
    | NotAccepted             // `Accept` failed; logged
    | NoPty                   // `pty.Open` failed; logged, the channel's requests are never read
    | Serving(shell: string)  // the request loop runs with this shell

  /** The channel-type gate and the set-up that follows it. */
  function Admit(c: NewChannel, envShell: string): (r: Admission)
    ensures r.Rejected? <==> c.chanType != "session"
    ensures r.Rejected? ==> ReasonCode(r.reason) == 3 && r.message == "unknown channel type: " + c.chanType
    ensures r.Serving? <==> c.chanType == "session" && c.acceptOk && c.ptyOk
    ensures r.Serving? ==> r.shell == SelectShell(envShell)
    ensures r == NoPty <==> c.chanType == "session" && c.acceptOk && !c.ptyOk
  {
    if c.chanType != "session" then Rejected(UnknownChannelType, "unknown channel type: " + c.chanType)
    else if !c.acceptOk then NotAccepted
    else if !c.ptyOk then NoPty
    else Serving(SelectShell(envShell))
  }

  /** Everything a new channel leads to: nothing at all unless it is served. */
  function ChannelTrace(c: NewChannel, envShell: string): (t: Trace)
    ensures !Admit(c, envShell).Serving? ==> t == Idle
    ensures c.chanType != "session" ==> t.replies == [] && t.actions == []
    ensures Admit(c, envShell).Serving? ==> t == Run(SelectShell(envShell), true, c.requests)
  {
    match Admit(c, envShell)
    case Serving(shell) => Run(shell, true, c.requests)
    case _ => Idle
  }

  /** The `for newChan := range in` loop of handleChannels, one channel after another. */
  method HandleChannels(chans: seq<NewChannel>, envShell: string) returns (admissions: seq<Admission>, traces: seq<Trace>)
    ensures |admissions| == |traces| == |chans|
    ensures forall i :: 0 <= i < |chans| ==> admissions[i] == Admit(chans[i], envShell)
    ensures forall i :: 0 <= i < |chans| ==> traces[i] == ChannelTrace(chans[i], envShell)
  {
    admissions, traces := [], [];
    for i := 0 to |chans|
      invariant |admissions| == |traces| == i
      invariant forall j :: 0 <= j < i ==> admissions[j] == Admit(chans[j], envShell)
      invariant forall j :: 0 <= j < i ==> traces[j] == ChannelTrace(chans[j], envShell)
    {
      var c := chans[i];
      if c.chanType != "session" {
        admissions, traces := admissions + [Rejected(UnknownChannelType, "unknown channel type: " + c.chanType)], traces + [Idle];
        continue;
      }
      if !c.acceptOk {
        admissions, traces := admissions + [NotAccepted], traces + [Idle];
        continue;
      }
      if !c.ptyOk {
        admissions, traces := admissions + [NoPty], traces + [Idle];
        continue;
      }
      var shell := DefaultShell;
      if envShell != "" {
        shell := envShell;
      }
      var replies, actions, panic := ServeRequests(shell, c.requests);
      admissions, traces := admissions + [Serving(shell)], traces + [Trace(replies, actions, panic)];
    }
  }
}
