/**
 * The extension's background script as one object: the module-level
 * `websocket` handle and `currentRecording` slot become fields, and each
 * event handler (start-up, socket events, the reconnect timer, controller
 * messages, popup messages) becomes a method. `sent` is the sequence of
 * response records written to the socket so far.
 */
module Background {
  import opened Wrappers
  import opened Tabs
  import opened Protocol
  import Link
  import opened Coordinator

  const StartButton: string := "start-button"
  const StopButton: string := "stop-button"

  class BackgroundScript {
    /** The `websocket` handle with its ready state; None when null. */
    var socket: Option<Link.ReadyState>
    /** Reconnect timers scheduled and not yet fired. */
    var retries: nat
    /** Sockets created so far. */
    ghost var created: nat
    /** Sockets whose handle was overwritten before their close event. */
    ghost var orphans: nat
    /** `currentRecording`: the id of the tab being recorded, or null. */
    var currentRecording: Option<int>
    /** Response records written to the socket, oldest first. */
    var sent: seq<Frame>

    ghost function Conn(): Link.Conn
      reads this
    {
      Link.Conn(socket, created, orphans, retries)
    }

    /** The connection invariant of Link.Inv. */
    ghost predicate Valid()
      reads this
    {
      Link.Inv(Conn())
    }

    /** What sendResponse writes for a reply in the current socket state. */
    function Outgoing(reply: Reply): (frames: seq<Frame>)
      reads this
    {
      if socket == Some(Link.Open) then [ResponseFrame(reply.success, reply.message)] else []
    }

    /** Script load: empty state, then one call of connectWebSocket. */
    constructor ()
      ensures Conn() == Link.Init && Valid()
      ensures currentRecording == None && sent == []
    {
      socket, retries, created, orphans := None, 0, 0, 0;
      currentRecording, sent := None, [];
      new;
      ConnectWebSocket();
      Link.InitInv();
    }

    /**
     * connectWebSocket: returns at once when the handle is OPEN; otherwise
     * replaces the handle with a new CONNECTING socket.
     */
    method ConnectWebSocket()
      modifies this
      ensures Conn() == Link.Connect(old(Conn()))
      ensures currentRecording == old(currentRecording) && sent == old(sent)
    {
      if socket == Some(Link.Open) {
        return;
      }
      if socket.Some? {
        orphans := orphans + 1;
      }
      socket := Some(Link.Connecting);
      created := created + 1;
    }

    /** The browser completes the handshake of the current socket. */
    method SocketOpened()
      requires socket == Some(Link.Connecting)
      modifies this`socket
      ensures Conn() == Link.Apply(old(Conn()), Link.Opened)
      ensures old(Valid()) ==> Valid()
    {
      socket := Some(Link.Open);
    }

    /** The controller starts closing the current socket. */
    method SocketClosing()
      requires socket == Some(Link.Open)
      modifies this`socket
      ensures Conn() == Link.Apply(old(Conn()), Link.ServerClosing)
      ensures old(Valid()) ==> Valid()
    {
      socket := Some(Link.Closing);
    }

    /**
     * onclose, run for the current socket or for one left behind: nulls
     * the handle and schedules one reconnect.
     */
    method OnClose(orphan: bool)
      requires Link.Enabled(Conn(), Link.Closed(orphan))
      modifies this
      ensures Conn() == Link.Apply(old(Conn()), Link.Closed(orphan))
      ensures socket.None? && retries == old(retries) + 1
      ensures currentRecording == old(currentRecording) && sent == old(sent)
      ensures old(Valid()) ==> Valid()
    {
      if orphan {
        orphans := orphans - 1;
        if socket.Some? {
          orphans := orphans + 1;
        }
      }
      socket := None;
      retries := retries + 1;
      if old(Valid()) {
        Link.StepInv(old(Conn()), Link.Closed(orphan));
      }
    }

    /** A reconnect timer fires and calls connectWebSocket. */
    method OnRetryTimer()
      requires retries > 0
      modifies this
      ensures Conn() == Link.Apply(old(Conn()), Link.RetryFired)
      ensures currentRecording == old(currentRecording) && sent == old(sent)
      ensures old(Valid()) ==> Valid()
    {
      retries := retries - 1;
      ConnectWebSocket();
      if old(Valid()) {
        Link.StepInv(old(Conn()), Link.RetryFired);
      }
    }

    /**
     * sendResponse: writes `{type: "response", success, message}` when the
     * handle is OPEN, and otherwise drops the reply.
     */
    method SendResponse(success: bool, message: string)
      modifies this`sent
      ensures socket == Some(Link.Open) ==> sent == old(sent) + [Frame(ResponseType, success, message)]
      ensures socket != Some(Link.Open) ==> sent == old(sent)
    {
      if socket == Some(Link.Open) {
        sent := sent + [ResponseFrame(success, message)];
      }
    }

    /**
     * startRecording. `backendOk` stands for whether activating the tab,
     * creating the offscreen document and obtaining the stream id all
     * succeeded.
     */
    method StartRecording(tab: Tab, backendOk: bool) returns (ok: bool)
      modifies this`currentRecording
      ensures Step(ok, currentRecording) == Start(old(currentRecording), tab.id, backendOk)
      ensures Held(old(currentRecording)) ==> !ok && currentRecording == old(currentRecording)
    {
      if Held(currentRecording) {
        return false;
      }
      if backendOk {
        currentRecording := Some(tab.id);
        ok := true;
      } else {
        currentRecording := None;
        ok := false;
      }
    }

    /** stopRecording. */
    method StopRecording() returns (ok: bool)
      modifies this`currentRecording
      ensures Step(ok, currentRecording) == Stop(old(currentRecording))
      ensures ok <==> Held(old(currentRecording))
      ensures !Held(currentRecording)
    {
      if Held(currentRecording) {
        currentRecording := None;
        return true;
      }
      return false;
    }

    /** handleStartRecording: choose the tab, start, and reply. */
    method HandleStartRecording(windows: Result<seq<Window>, string>, backendOk: bool)
      modifies this`currentRecording, this`sent
      ensures var h := HandleStart(windows, old(currentRecording), backendOk);
        currentRecording == h.slot && sent == old(sent) + Outgoing(h.reply)
    {
      if windows.Failure? {
        SendResponse(false, ErrorPrefix + windows.error);
        return;
      }
      var ws := windows.value;
      if |ws| == 0 {
        SendResponse(false, NoWindowsMessage);
        return;
      }
      var allTabs := CollectTabs(ws);
      var target := SelectTarget(allTabs);
      if target.None? {
        SendResponse(false, NoTabsMessage);
        return;
      }
      var result := StartRecording(target.value, backendOk);
      SendResponse(result, if result then StartedPrefix + target.value.url.value else StartFailedMessage);
    }

    /**
     * onmessage for a controller message. A stop command produces exactly
     * one reply carrying stopRecording's result; a message that is neither
     * command produces no reply and changes nothing.
     */
    method OnMessage(m: Incoming, windows: Result<seq<Window>, string>, backendOk: bool)
      modifies this`currentRecording, this`sent
      ensures Receive(m, windows, old(currentRecording), backendOk).None? ==>
        currentRecording == old(currentRecording) && sent == old(sent)
      ensures Receive(m, windows, old(currentRecording), backendOk).Some? ==>
        var h := Receive(m, windows, old(currentRecording), backendOk).value;
        currentRecording == h.slot && sent == old(sent) + Outgoing(h.reply)
    {
      var cmd := Decode(m);
      if cmd == Some(Command.StartRecording) {
        HandleStartRecording(windows, backendOk);
      } else if cmd == Some(Command.StopRecording) {
        var result := StopRecording();
        SendResponse(result, if result then StoppedMessage else NothingToStopMessage);
      }
    }

    /**
     * The popup's messages: the second caller of startRecording and
     * stopRecording. A start uses the first active tab of the current
     * window; with no such tab, startRecording fails on the missing tab
     * before its guard and no reply comes back. Replies go to the popup,
     * never to the controller's socket.
     */
    method OnPopupMessage(kind: string, activeTabs: seq<Tab>, backendOk: bool) returns (reply: Option<bool>)
      modifies this`currentRecording
      ensures kind == StartButton && activeTabs != [] ==>
        reply.Some? && Step(reply.value, currentRecording) == Start(old(currentRecording), activeTabs[0].id, backendOk)
      ensures kind == StopButton ==>
        reply.Some? && Step(reply.value, currentRecording) == Stop(old(currentRecording))
      ensures (kind == StartButton && activeTabs == []) || (kind != StartButton && kind != StopButton) ==>
        reply.None? && currentRecording == old(currentRecording)
    {
      if kind == StartButton {
        if activeTabs == [] {
          return None;
        }
        var result := StartRecording(activeTabs[0], backendOk);
        return Some(result);
      } else if kind == StopButton {
        var result := StopRecording();
        return Some(result);
      }
      return None;
    }
  }

  /**
   * The controller and the popup drive the same slot: while the controller's
   * recording runs, a popup start is refused, and a popup stop ends it; the
   * slot stays empty after the controller's stop that follows.
   */
  method SharedSlot(activeTab: Tab, ws: seq<Window>) returns (popupStart: Option<bool>, popupStop: Option<bool>, controllerStop: Option<int>)
    requires ws != [] && SelectTarget(Flatten(ws)).Some?
    requires SelectTarget(Flatten(ws)).value.id != 0
    ensures popupStart == Some(false) && popupStop == Some(true)
    ensures controllerStop == None
  {
    var b := new BackgroundScript();
    b.HandleStartRecording(Success(ws), true);
    popupStart := b.OnPopupMessage(StartButton, [activeTab], true);
    popupStop := b.OnPopupMessage(StopButton, [], true);
    b.OnMessage(Parsed(Msg(StopType)), Success(ws), true);
    controllerStop := b.currentRecording;
  }
}
