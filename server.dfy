/**
 * The `Server` of server.go: its listener and its closed flag, `Close`,
 * `isClosed`, `Serve`'s accept loop and `ListenAndServe`.
 *
 * Sockets are not modelled. The accept loop blocks in `Accept` while other
 * tasks may call `Close`; a run of `Serve` is therefore given as a schedule
 * of events: an accepted connection, a failed `Accept`, or a `Close` made by
 * another task in between. The mutex only makes each of these steps atomic,
 * which the sequential schedule already is.
 */
module ServerState {
  import opened Wrappers

  /** The errors the server itself returns; causes from the network are kept as text. */
  datatype Error =
    | EmptyAddr                              // "empty addr"
    | ListenFailed(addr: string, cause: string)
    | NilListener                            // "listen on nil listener"
    | AcceptFailed(cause: string)            // "accept incoming connection: <cause>"
    | ListenerCloseFailed(cause: string)     // returned by the listener's Close

  /** What happens next while `Serve` is in its accept loop. */
  datatype Event =
    | Connection                                  // Accept returned a connection; a handler task is started
    | AcceptError(cause: string)                  // Accept returned an error
    | CloseFromOtherTask(listenerErr: Option<string>)  // Close called, with the listener's own Close outcome

  /** How `Serve` ends: it returned (nil or an error), or it is still accepting when the schedule ends. */
  datatype ServeOutcome = Returned(err: Option<Error>) | StillAccepting

  /** The server's observable state. */
  datatype ServerView = ServerView(closed: bool, connections: nat, listenerCloses: nat)

  datatype ServeRun = ServeRun(outcome: ServeOutcome, view: ServerView)

  /**
   * The accept loop after the listener is set, run over a schedule: the only
   * way out is a failed `Accept`, and the only error it returns wraps that
   * failure; counters never go down and a set flag stays set.
   */
  function Drive(v: ServerView, events: seq<Event>): (r: ServeRun)
    ensures v.closed ==> r.view.closed
    ensures r.view.connections >= v.connections && r.view.listenerCloses >= v.listenerCloses
    ensures r.outcome.Returned? && r.outcome.err.Some? ==> r.outcome.err.value.AcceptFailed?
    ensures r.outcome.StillAccepting? ==> r.view.connections + r.view.listenerCloses == v.connections + v.listenerCloses + |events|
    decreases |events|
  {
    if events == [] then ServeRun(StillAccepting, v)
    else
      match events[0]
      case Connection => Drive(v.(connections := v.connections + 1), events[1..])
      case CloseFromOtherTask(_) => Drive(v.(closed := true, listenerCloses := v.listenerCloses + 1), events[1..])
      case AcceptError(cause) => ServeRun(Returned(if v.closed then None else Some(AcceptFailed(cause))), v)
  }

  /** Nothing reopens the server: once closed, it stays closed. */
  lemma {:induction false} ClosedStaysClosed(v: ServerView, events: seq<Event>)
    requires v.closed
    ensures Drive(v, events).view.closed
    ensures Drive(v, events).outcome.Returned? ==> Drive(v, events).outcome.err.None?
    decreases |events|
  {
    if events != [] && !events[0].AcceptError? {
      match events[0]
      case Connection => ClosedStaysClosed(v.(connections := v.connections + 1), events[1..]);
      case CloseFromOtherTask(_) => ClosedStaysClosed(v.(closed := true, listenerCloses := v.listenerCloses + 1), events[1..]);
    }
  }

  /** `Serve` returns nil exactly when the server was closed by the time `Accept` failed, and a wrapped error otherwise. */
  lemma {:induction false} CleanStopIffClosed(v: ServerView, events: seq<Event>)
    ensures Drive(v, events).outcome.Returned? ==>
              (Drive(v, events).outcome.err.None? <==> Drive(v, events).view.closed)
    ensures Drive(v, events).outcome.Returned? && Drive(v, events).outcome.err.Some? ==>
              Drive(v, events).outcome.err.value.AcceptFailed?
    decreases |events|
  {
    if events != [] {
      match events[0]
      case Connection => CleanStopIffClosed(v.(connections := v.connections + 1), events[1..]);
      case CloseFromOtherTask(_) => CleanStopIffClosed(v.(closed := true, listenerCloses := v.listenerCloses + 1), events[1..]);
      case AcceptError(_) =>
    }
  }

  /** A `Close` before the first failed `Accept` makes that failure a clean stop. */
  lemma {:induction false} ShutdownIsClean(v: ServerView, events: seq<Event>, k: nat)
    requires k < |events| && events[k].CloseFromOtherTask?
    requires forall j :: 0 <= j < k ==> !events[j].AcceptError?
    ensures Drive(v, events).outcome.Returned? ==> Drive(v, events).outcome.err.None?
    decreases k
  {
    if k == 0 {
      ClosedStaysClosed(v.(closed := true, listenerCloses := v.listenerCloses + 1), events[1..]);
    } else {
      var v' := if events[0].Connection? then v.(connections := v.connections + 1)
                else v.(closed := true, listenerCloses := v.listenerCloses + 1);
      ShutdownIsClean(v', events[1..], k - 1);
    }
  }

  /** Without a `Close`, the first failed `Accept` ends `Serve` with that cause, wrapped. */
  lemma {:induction false} FailureWithoutCloseIsError(v: ServerView, events: seq<Event>, k: nat)
    requires !v.closed
    requires k < |events| && events[k].AcceptError?
    requires forall j :: 0 <= j < k ==> events[j] == Connection
    ensures Drive(v, events) == ServeRun(Returned(Some(AcceptFailed(events[k].cause))), v.(connections := v.connections + k))
    decreases k
  {
    if k > 0 {
      FailureWithoutCloseIsError(v.(connections := v.connections + 1), events[1..], k - 1);
    }
  }

  class Server {
    const shellPath: string
    var hasListener: bool
    var closed: bool
    var connections: nat      // connection handlers started by the accept loop
    var listenerCloses: nat   // calls made to the listener's Close

    function View(): ServerView
      reads this
    {
      ServerView(closed, connections, listenerCloses)
    }

    /** NewServer: no listener yet and not closed. */
    constructor (shellPath: string)
      ensures this.shellPath == shellPath
      ensures !hasListener && View() == ServerView(false, 0, 0)
    {
      this.shellPath := shellPath;
      hasListener, closed, connections, listenerCloses := false, false, 0, 0;
    }

    /** isClosed: the flag, read under the mutex. */
    method IsClosed() returns (c: bool)
      ensures c == closed
    {
      c := closed;
    }

    /** Close: sets the flag, then closes the listener if there is one and returns its result. */
    method Close(listenerErr: Option<string>) returns (err: Option<Error>)
      modifies this
      ensures closed && hasListener == old(hasListener) && connections == old(connections)
      ensures !hasListener ==> err == None && listenerCloses == old(listenerCloses)
      ensures hasListener ==> listenerCloses == old(listenerCloses) + 1
      ensures hasListener ==> err == (if listenerErr.Some? then Some(ListenerCloseFailed(listenerErr.value)) else None)
    {
      closed := true;
      if !hasListener {
        return None;
      }
      listenerCloses := listenerCloses + 1;
      err := if listenerErr.Some? then Some(ListenerCloseFailed(listenerErr.value)) else None;
    }

    /** The accept-error branch of Serve: a clean stop if the server was closed, else the wrapped error. */
    method AcceptFailure(cause: string) returns (err: Option<Error>)
      ensures err.None? <==> closed
      ensures err.Some? ==> err.value == AcceptFailed(cause)
    {
      var c := IsClosed();
      if c {
        return None;
      }
      err := Some(AcceptFailed(cause));
    }

    /** Serve: refuses a nil listener before doing anything, otherwise records it and runs the accept loop. */
    method Serve(listenerPresent: bool, events: seq<Event>) returns (out: ServeOutcome)
      modifies this
      ensures !listenerPresent ==> out == Returned(Some(NilListener)) && View() == old(View()) && hasListener == old(hasListener)
      ensures listenerPresent ==> hasListener && ServeRun(out, View()) == Drive(old(View()), events)
      ensures old(closed) ==> closed
    {
      if !listenerPresent {
        return Returned(Some(NilListener));
      }
      hasListener := true;
      for i := 0 to |events|
        invariant hasListener
        invariant Drive(View(), events[i..]) == Drive(old(View()), events)
        invariant old(closed) ==> closed
      {
        assert events[i..][1..] == events[i + 1 ..];
        match events[i]
        case Connection =>
          connections := connections + 1;
        case CloseFromOtherTask(listenerErr) =>
          var _ := Close(listenerErr);
        case AcceptError(cause) =>
          var err := AcceptFailure(cause);
          return Returned(err);
      }
      out := StillAccepting;
    }

    /** ListenAndServe: an empty address fails before any I/O, a failed bind is reported, otherwise Serve runs. */
    method ListenAndServe(addr: string, bindErr: Option<string>, events: seq<Event>) returns (out: ServeOutcome)
      modifies this
      ensures addr == "" ==> out == Returned(Some(EmptyAddr)) && View() == old(View()) && hasListener == old(hasListener)
      ensures addr != "" && bindErr.Some? ==>
                out == Returned(Some(ListenFailed(addr, bindErr.value))) && View() == old(View()) && hasListener == old(hasListener)
      ensures addr != "" && bindErr.None? ==> hasListener && ServeRun(out, View()) == Drive(old(View()), events)
    {
      if addr == "" {
        return Returned(Some(EmptyAddr));
      }
      if bindErr.Some? {
        return Returned(Some(ListenFailed(addr, bindErr.value)));
      }
      out := Serve(true, events);
    }
  }

  /** A client of the class: closing any number of times leaves the server closed, and a closed server's accept failure is a clean stop. */
  method CloseRepeatedly(srv: Server, n: nat, cause: string) returns (err: Option<Error>)
    modifies srv
    ensures srv.closed && err == None
  {
    var _ := srv.Close(None);
    for i := 0 to n
      invariant srv.closed
    {
      var _ := srv.Close(None);
    }
    var c := srv.IsClosed();
    assert c;
    err := srv.AcceptFailure(cause);
  }
}
