/**
 The bodies of reconnectClient's methods, run by one caller at a time, as they change the client's
 fields in place. What other goroutines can do during a dial is a parameter: cancel the client, or
 let a watchdog clear the pointer, which needs no mutex. Module Upstream has all interleavings.
 */
module UpstreamClient {
  import opened Wrappers
  import opened Upstream

  /** What happened while a dial was under way. */
  datatype Meanwhile = Meanwhile(canceled: bool, cleared: bool)

  const QUIET := Meanwhile(false, false)

  // ------------------------------------------------------------------ what a call does by itself

  /** The fields of the client, and which connections it has closed how often. */
  datatype Core = Core(
    current: Option<Conn>,
    closed: bool,
    closeFailed: bool,
    canceled: bool,
    connected: bool,
    reconnects: nat,
    unanswered: set<Conn>,
    closes: multiset<Conn>)

  /** connection(), with the connection a dial would bring. */
  function AfterConnection(c: Core, dialed: Option<Conn>): (Core, Option<Conn>) {
    if c.current.Some? || c.closed || c.canceled then (c, c.current)
    else if dialed.None? then (c, None)
    else
      (c.(current := dialed, connected := true, reconnects := if c.connected then c.reconnects + 1 else c.reconnects),
       dialed)
  }

  function AfterReconnect(c: Core, failed: Conn, dialed: Option<Conn>): (Core, bool) {
    if c.closed || c.canceled then (c, false)
    else if c.current.Some? && c.current != Some(failed) then (c, true)
    else if dialed.None? then (c, false)
    else
      (c.(current := dialed, connected := true, reconnects := c.reconnects + 1,
          closes := if c.current.Some? then c.closes + multiset{failed} else c.closes),
       true)
  }

  function AfterDrop(c: Core, conn: Conn): Core {
    var marked := c.(unanswered := c.unanswered + {conn});
    if conn in c.unanswered || c.current != Some(conn) then marked
    else marked.(current := None, closes := c.closes + multiset{conn})
  }

  function AfterClose(c: Core, ok: bool): (Core, bool) {
    var over := c.(canceled := true, closed := true);
    if c.closed then (over, c.closeFailed)
    else if c.current.None? then (over, false)
    else (over.(closeFailed := !ok, closes := c.closes + multiset{c.current.value}), !ok)
  }

  class ReconnectClient {
    var current: Option<Conn>
    var closed: bool
    var closeFailed: bool
    var canceled: bool
    var connected: bool
    var reconnects: nat
    var unanswered: set<Conn>
    var closes: seq<Conn>

    constructor ()
      ensures current == None && !closed && !closeFailed && !canceled && !connected
      ensures reconnects == 0 && unanswered == {} && closes == []
    {
      current, closed, closeFailed, canceled, connected := None, false, false, false, false;
      reconnects, unanswered, closes := 0, {}, [];
    }

    function View(): Core
      reads this
    {
      Core(current, closed, closeFailed, canceled, connected, reconnects, unanswered, multiset(closes))
    }

    predicate Over()
      reads this
    {
      closed || canceled
    }

    /** The current connection, or the first one, dialed now; a dial that a shutdown overtook is closed. */
    method Connection(dialed: Option<Conn>, meanwhile: Meanwhile) returns (found: Option<Conn>)
      modifies this
      ensures old(current).Some? || old(Over()) ==> found == old(current) && canceled == old(canceled)
      ensures old(current).Some? || old(Over()) || dialed.None? ==>
                && current == old(current) && closes == old(closes)
                && connected == old(connected) && reconnects == old(reconnects)
      ensures old(current).None? && !old(Over()) ==>
                && canceled == meanwhile.canceled
                && found == (if meanwhile.canceled then None else dialed) && current == found
      ensures old(current).None? && !old(Over()) && dialed.Some? ==>
                && closes == (if meanwhile.canceled then old(closes) + [dialed.value] else old(closes))
                && connected == (old(connected) || !meanwhile.canceled)
                && reconnects == old(reconnects) + (if old(connected) && !meanwhile.canceled then 1 else 0)
      ensures closed == old(closed) && closeFailed == old(closeFailed) && unanswered == old(unanswered)
      ensures meanwhile == QUIET ==>
                (View(), found) == AfterConnection(old(View()), dialed)
    {
      if current.Some? {
        return current;
      }
      if closed || canceled {
        return None;
      }
      canceled := canceled || meanwhile.canceled;
      if dialed.None? {
        return None;
      }
      if canceled {
        closes := closes + [dialed.value];
        return None;
      }
      current := dialed;
      if connected {
        reconnects := reconnects + 1;
      }
      connected := true;
      found := current;
    }

    /**
     Replaces `failed`. Whatever the watchdog does in between, the pointer keeps any other connection,
     and what the swap displaces is `failed` or nothing; it is closed exactly when it is displaced.
     */
    method Reconnect(failed: Conn, dialed: Option<Conn>, meanwhile: Meanwhile) returns (usable: bool)
      modifies this
      ensures var tries := !old(Over()) && (old(current) == None || old(current) == Some(failed));
              var swaps := tries && dialed.Some? && !meanwhile.canceled;
              && usable == (swaps || (!old(Over()) && !tries))
              && canceled == (old(canceled) || (tries && meanwhile.canceled))
              && connected == (old(connected) || swaps)
              && reconnects == old(reconnects) + (if swaps then 1 else 0)
              && current == (if swaps then dialed else if tries && meanwhile.cleared then None else old(current))
              && closes == old(closes) + (if !tries || dialed.None? then []
                                          else if !swaps then [dialed.value]
                                          else if old(current) == Some(failed) && !meanwhile.cleared
                                            then [failed]
                                            else [])
      ensures closed == old(closed) && closeFailed == old(closeFailed) && unanswered == old(unanswered)
      ensures meanwhile == QUIET ==> (View(), usable) == AfterReconnect(old(View()), failed, dialed)
    {
      if closed || canceled {
        return false;
      }
      if current != Some(failed) && current.Some? {
        return true;
      }
      canceled := canceled || meanwhile.canceled;
      if meanwhile.cleared {
        current := None;
      }
      if dialed.None? {
        return false;
      }
      if canceled {
        closes := closes + [dialed.value];
        return false;
      }
      var displaced := current;
      current := dialed;
      connected := true;
      reconnects := reconnects + 1;
      if displaced.Some? {
        closes := closes + [displaced.value];
      }
      usable := true;
    }

    /** Clears and closes a connection once; a connection that is no longer current is left alone. */
    method Drop(c: Conn)
      modifies this`unanswered, this`current, this`closes
      ensures unanswered == old(unanswered) + {c}
      ensures var takes := c !in old(unanswered) && old(current) == Some(c);
              && current == (if takes then None else old(current))
              && closes == if takes then old(closes) + [c] else old(closes)
      ensures View() == AfterDrop(old(View()), c)
    {
      if c in unanswered {
        return;
      }
      unanswered := unanswered + {c};
      if current != Some(c) {
        return;
      }
      current := None;
      closes := closes + [c];
    }

    /** Closes once; every later call reports the first result. The pointer stays set. */
    method Close(ok: bool) returns (failed: bool)
      modifies this`canceled, this`closed, this`closeFailed, this`closes
      ensures canceled && closed
      ensures old(closed) ==> failed == old(closeFailed) == closeFailed && closes == old(closes)
      ensures !old(closed) && current.Some? ==> failed == !ok == closeFailed && closes == old(closes) + [current.value]
      ensures !old(closed) && current.None? ==> !failed && closeFailed == old(closeFailed) && closes == old(closes)
      ensures (View(), failed) == AfterClose(old(View()), ok)
    {
      canceled := true;
      if closed {
        return closeFailed;
      }
      closed := true;
      if current.None? {
        return false;
      }
      closes := closes + [current.value];
      closeFailed := !ok;
      failed := closeFailed;
    }
  }
}
