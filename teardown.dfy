/**
 * The exactly-once teardown of an interactive session (server.go, `shell`
 * case): a `sync.Once` shared by the two relay tasks, each of which calls
 * `once.Do(chanClose)` when its copy ends. The concurrent tasks are modelled
 * by the order in which their calls reach the guard.
 */
module Teardown {
  import opened Wrappers

  /** The two relays: pseudo-terminal to channel, and channel to pseudo-terminal. */
  datatype Relay = PtyToChannel | ChannelToPty

  /** `sync.Once` together with the channel close it guards. */
  class Once {
    var done: bool
    var closeCount: nat            // how many times chanClose ran
    var closedBy: Option<Relay>    // the relay whose call ran it

    ghost predicate Valid()
      reads this
    {
      if done then closeCount == 1 && closedBy.Some? else closeCount == 0 && closedBy.None?
    }

    constructor ()
      ensures Valid() && !done
    {
      done, closeCount, closedBy := false, 0, None;
    }

    /** `once.Do(chanClose)` from relay `caller`: the first call closes the channel, later calls do nothing. */
    method Do(caller: Relay)
      requires Valid()
      modifies this
      ensures Valid() && done && closeCount == 1
      ensures closedBy == if old(done) then old(closedBy) else Some(caller)
    {
      if !done {
        done := true;
        closeCount := closeCount + 1;
        closedBy := Some(caller);
      }
    }
  }

  /**
   * Relay completions reaching a fresh guard in the order `order`: the channel
   * is closed once if any completion arrives, by the first one, and never again.
   */
  method CloseOnce(order: seq<Relay>) returns (closes: nat, first: Option<Relay>)
    ensures closes == if order == [] then 0 else 1
    ensures first == if order == [] then None else Some(order[0])
  {
    var once := new Once();
    for i := 0 to |order|
      invariant once.Valid()
      invariant once.done <==> i > 0
      invariant i > 0 ==> once.closedBy == Some(order[0])
    {
      once.Do(order[i]);
    }
    closes, first := once.closeCount, once.closedBy;
  }
}
