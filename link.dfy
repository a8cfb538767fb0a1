/**
 * The extension's side of the control connection: the one socket handle
 * (`websocket`), the `connectWebSocket` routine, the `onclose` handler that
 * drops the handle and schedules a reconnect, and the reconnect timer.
 * Timing is not modelled: a scheduled reconnect is a pending timer that
 * fires at some later step.
 */
module Link {
  import opened Wrappers

  /** The WebSocket ready states a live handle can be in. */
  datatype ReadyState = Connecting | Open | Closing

  /**
   * `socket` is the handle (None once `onclose` has nulled it) with its
   * ready state; `created` counts the sockets ever created; `orphans` counts
   * sockets whose handle was overwritten while their close event was still
   * to come; `retries` counts reconnect timers not yet fired.
   */
  datatype Conn = Conn(socket: Option<ReadyState>, created: nat, orphans: nat, retries: nat)

  /** Sockets whose close event is still to come. */
  function Live(l: Conn): nat
  {
    l.orphans + (if l.socket.Some? then 1 else 0)
  }

  /**
   * connectWebSocket: nothing happens when the handle is OPEN; otherwise a
   * new socket is created and the handle points at it. A handle that is
   * still CONNECTING or CLOSING is overwritten without a check, so the
   * socket it held is left behind, its close event still to come.
   */
  function Connect(l: Conn): (n: Conn)
    ensures l.socket == Some(Open) ==> n == l
    ensures l.socket != Some(Open) ==>
      n.socket == Some(Connecting) && n.created == l.created + 1 && n.retries == l.retries
    ensures Live(n) == Live(l) + (if l.socket == Some(Open) then 0 else 1)
  {
    if l.socket == Some(Open) then l
    else l.(socket := Some(Connecting), created := l.created + 1,
            orphans := l.orphans + (if l.socket.Some? then 1 else 0))
  }

  /** The state right after the script loads and calls connectWebSocket once. */
  const Init: Conn := Connect(Conn(None, 0, 0, 0))

  /** Browser events that reach the connection code. */
  datatype Event =
    | Opened            // the current socket finished its handshake
    | ServerClosing     // the current socket began its closing handshake
    | Closed(orphan: bool)  // onclose of the current socket, or of a left-behind one
    | RetryFired        // a reconnect timer elapsed and calls connectWebSocket

  /** Whether the browser can deliver `e` in state `l`. */
  predicate Enabled(l: Conn, e: Event)
  {
    match e
    case Opened => l.socket == Some(Connecting)
    case ServerClosing => l.socket == Some(Open)
    case Closed(orphan) => if orphan then l.orphans > 0 else l.socket.Some?
    case RetryFired => l.retries > 0
  }

  /**
   * The effect of an event. Whichever socket closes, onclose nulls the
   * global handle and schedules one reconnect.
   */
  function Apply(l: Conn, e: Event): (n: Conn)
    requires Enabled(l, e)
    ensures e.Closed? ==> n.socket.None? && n.retries == l.retries + 1
    ensures n.created >= l.created
  {
    match e
    case Opened => l.(socket := Some(Open))
    case ServerClosing => l.(socket := Some(Closing))
    case Closed(orphan) =>
      var left := if orphan then l.orphans - 1 else l.orphans;
      // an orphan's onclose also drops the handle of the newer socket,
      // which is thereby left behind in its turn
      var leftBehind := if orphan && l.socket.Some? then 1 else 0;
      l.(socket := None, orphans := left + leftBehind, retries := l.retries + 1)
    case RetryFired => Connect(l.(retries := l.retries - 1))
  }

  /** The events in order, or None if one of them could not have happened. */
  function Run(l: Conn, events: seq<Event>): Option<Conn>
    decreases |events|
  {
    if events == [] then Some(l)
    else if !Enabled(l, events[0]) then None
    else Run(Apply(l, events[0]), events[1..])
  }

  /**
   * The connection invariant: no socket is ever left behind, and at every
   * moment there is exactly one of a live socket or a pending reconnect.
   */
  ghost predicate Inv(l: Conn)
  {
    && l.orphans == 0
    && Live(l) + l.retries == 1
    && l.created >= 1
  }

  lemma InitInv()
    ensures Inv(Init)
  {
  }

  /** Every event the browser can deliver keeps the invariant. */
  lemma StepInv(l: Conn, e: Event)
    requires Inv(l) && Enabled(l, e)
    ensures Inv(Apply(l, e))
  {
  }

  /** The invariant holds after any sequence of events from a state where it holds. */
  lemma {:induction false} RunInv(l: Conn, events: seq<Event>)
    requires Inv(l)
    ensures Run(l, events).Some? ==> Inv(Run(l, events).value)
    decreases |events|
  {
    if events != [] && Enabled(l, events[0]) {
      StepInv(l, events[0]);
      RunInv(Apply(l, events[0]), events[1..]);
    }
  }

  /**
   * In every state reachable from start-up, at most one socket is alive,
   * at most one reconnect timer is pending, and no reconnect can fire while
   * a socket is connecting, open or closing.
   */
  lemma {:induction false} Reachable(events: seq<Event>)
    requires Run(Init, events).Some?
    ensures var l := Run(Init, events).value;
      Live(l) <= 1 && l.retries <= 1 && l.orphans == 0 &&
      (l.socket.Some? ==> !Enabled(l, RetryFired)) &&
      (l.socket.None? ==> Enabled(l, RetryFired))
  {
    InitInv();
    RunInv(Init, events);
  }

  /**
   * connectWebSocket has no guard against CONNECTING: called then, it
   * creates a second socket and leaves the first one behind. Only its two
   * callers (start-up and the reconnect timer) keep this from happening.
   */
  lemma ConnectWhileConnecting(l: Conn)
    requires l.socket == Some(Connecting)
    ensures Connect(l).created == l.created + 1
    ensures Connect(l).orphans == l.orphans + 1
    ensures Live(Connect(l)) == Live(l) + 1
  {
  }
}
