/**
 * The recording coordinator: the single slot `currentRecording`, the
 * start and stop operations on it, the reply that handleStartRecording
 * composes, and the dispatch of controller messages. Everything here is a
 * function of the slot; the Background class applies these to its field.
 */
module Coordinator {
  import opened Wrappers
  import opened Tabs
  import opened Protocol

  /**
   * The guard `if (currentRecording)`: JavaScript truthiness of the slot,
   * which holds a tab id or null. A tab id of 0 would read as empty.
   */
  predicate Held(slot: Option<int>)
  {
    slot.Some? && slot.value != 0
  }

  /** The boolean an operation returns and the slot it leaves. */
  datatype Step = Step(ok: bool, slot: Option<int>)

  /**
   * startRecording, with tab activation, offscreen document and stream-id
   * acquisition folded into `backendOk`. A held slot rejects the start
   * before any browser call; otherwise the slot ends holding the tab on
   * success and empty on failure.
   */
  function Start(slot: Option<int>, tabId: int, backendOk: bool): (s: Step)
    ensures Held(slot) ==> s == Step(false, slot)
    ensures s.ok <==> !Held(slot) && backendOk
    ensures s.ok ==> s.slot == Some(tabId)
    ensures !Held(slot) && !backendOk ==> s.slot == None
  {
    if Held(slot) then Step(false, slot)
    else if backendOk then Step(true, Some(tabId))
    else Step(false, None)
  }

  /**
   * stopRecording: succeeds exactly when a recording is held, and nothing
   * is held afterwards; a failed stop changes nothing.
   */
  function Stop(slot: Option<int>): (s: Step)
    ensures s.ok <==> Held(slot)
    ensures !Held(s.slot)
    ensures !s.ok ==> s.slot == slot
  {
    if Held(slot) then Step(true, None) else Step(false, slot)
  }

  /** Two stops in a row: the second one always reports nothing to stop. */
  lemma StopTwice(slot: Option<int>)
    ensures !Stop(Stop(slot).slot).ok
    ensures Stop(Stop(slot).slot).slot == Stop(slot).slot
  {
  }

  /**
   * Because the guard is truthiness, a recording started on tab id 0 does
   * not block the next start.
   */
  lemma ZeroTabIdNotGuarded(tabId: int, backendOk: bool)
    ensures Start(None, 0, true) == Step(true, Some(0))
    ensures Start(Some(0), tabId, backendOk).ok == backendOk
  {
  }

  // ---------------------------------------------------------------------
  // Replies
  // ---------------------------------------------------------------------

  /** A reply to the controller: `success` and `message` of a response record. */
  datatype Reply = Reply(success: bool, message: string)

  const NoWindowsMessage: string := "No windows available"
  const NoTabsMessage: string := "No recordable tabs found. Please open a website."
  const StartFailedMessage: string := "Failed to start recording"
  const StartedPrefix: string := "Recording started on "
  const ErrorPrefix: string := "Error: "
  const StoppedMessage: string := "Recording stopped"
  const NothingToStopMessage: string := "No recording to stop"

  /**
   * The outcome of handling one command: the reply, the slot afterwards,
   * and whether startRecording was reached.
   */
  datatype Handled = Handled(reply: Reply, slot: Option<int>, attempted: bool)

  /**
   * handleStartRecording. `windows` is the answer of the window query:
   * the normal windows with their tabs, or the message of the error it
   * raised.
   */
  function HandleStart(windows: Result<seq<Window>, string>, slot: Option<int>, backendOk: bool): (h: Handled)
    ensures h.attempted <==>
      windows.Success? && windows.value != [] && SelectTarget(Flatten(windows.value)).Some?
    ensures !h.attempted ==> !h.reply.success && h.slot == slot
    ensures Held(slot) ==> !h.reply.success && h.slot == slot
    ensures h.reply.success ==>
      !Held(slot) && backendOk && h.slot == Some(SelectTarget(Flatten(windows.value)).value.id)
    ensures h.attempted && !h.reply.success ==> h.reply.message == StartFailedMessage
    ensures h.attempted && !Held(slot) ==> h.reply.success == backendOk && (!backendOk ==> h.slot == None)
  {
    match windows
    case Failure(e) => Handled(Reply(false, ErrorPrefix + e), slot, false)
    case Success(ws) =>
      if ws == [] then Handled(Reply(false, NoWindowsMessage), slot, false)
      else
        match SelectTarget(Flatten(ws))
        case None => Handled(Reply(false, NoTabsMessage), slot, false)
        case Some(target) =>
          var s := Start(slot, target.id, backendOk);
          var message := if s.ok then StartedPrefix + target.url.value else StartFailedMessage;
          Handled(Reply(s.ok, message), s.slot, true)
  }

  /**
   * When some window exists but none of its tabs may be recorded, the reply
   * is the no-recordable-tabs failure and startRecording is never reached.
   */
  lemma {:induction false} NoRecordableTabs(ws: seq<Window>, slot: Option<int>, backendOk: bool)
    requires ws != []
    requires forall k, t :: 0 <= k < |ws| && t in ws[k].tabs ==> !Recordable(t)
    ensures HandleStart(Success(ws), slot, backendOk) == Handled(Reply(false, NoTabsMessage), slot, false)
  {
    forall t | t in Flatten(ws)
      ensures !Recordable(t)
    {
      FlattenMembership(ws, t);
    }
  }

  /** The successful start names the URL of the tab it chose. */
  lemma StartedReply(ws: seq<Window>, slot: Option<int>)
    requires !Held(slot) && ws != [] && SelectTarget(Flatten(ws)).Some?
    ensures var target := SelectTarget(Flatten(ws)).value;
      HandleStart(Success(ws), slot, true) ==
        Handled(Reply(true, StartedPrefix + target.url.value), Some(target.id), true)
  {
  }

  /**
   * onmessage: a start command runs handleStartRecording; a stop command
   * runs stopRecording and replies with its result; anything else yields
   * no reply and leaves the slot alone.
   */
  function Receive(m: Incoming, windows: Result<seq<Window>, string>, slot: Option<int>, backendOk: bool): (h: Option<Handled>)
    ensures h.None? <==> Decode(m).None?
    ensures Decode(m) == Some(StopRecording) ==>
      h.Some? && h.value.reply.success == Held(slot) && !Held(h.value.slot) &&
      h.value.reply.message == (if Held(slot) then StoppedMessage else NothingToStopMessage)
    ensures Decode(m) == Some(StartRecording) ==> h == Some(HandleStart(windows, slot, backendOk))
  {
    match Decode(m)
    case None => None
    case Some(StartRecording) => Some(HandleStart(windows, slot, backendOk))
    case Some(StopRecording) =>
      var s := Stop(slot);
      Some(Handled(Reply(s.ok, if s.ok then StoppedMessage else NothingToStopMessage), s.slot, false))
  }

  // ---------------------------------------------------------------------
  // At most one recording over any run
  // ---------------------------------------------------------------------

  /** A start (with the backend's answer) or a stop, from either caller. */
  datatype Request = StartReq(tabId: int, backendOk: bool) | StopReq

  /** What a request does towards the capture backend. */
  datatype Effect =
    | Capture(ok: bool)   // the browser was asked to capture a tab
    | Refused             // a start was rejected before any browser call
    | Release             // the offscreen recorder was told to stop
    | NothingToStop       // a stop found no recording

  function Perform(slot: Option<int>, r: Request): Step
  {
    match r
    case StartReq(tabId, backendOk) => Start(slot, tabId, backendOk)
    case StopReq => Stop(slot)
  }

  function EffectOf(slot: Option<int>, r: Request): Effect
  {
    match r
    case StartReq(_, backendOk) => if Held(slot) then Refused else Capture(backendOk)
    case StopReq => if Held(slot) then Release else NothingToStop
  }

  /** The effects of a run of requests, in order. */
  function Trace(slot: Option<int>, requests: seq<Request>): seq<Effect>
    decreases |requests|
  {
    if requests == [] then []
    else [EffectOf(slot, requests[0])] + Trace(Perform(slot, requests[0]).slot, requests[1..])
  }

  /**
   * Effects of a coordinator that never stacks recordings: a capture only
   * while none is active, a release only of an active one, and a refusal
   * or a nothing-to-stop exactly when the state calls for it.
   */
  ghost predicate Bracketed(effects: seq<Effect>, active: bool)
    decreases |effects|
  {
    effects == [] ||
    match effects[0]
    case Capture(ok) => !active && Bracketed(effects[1..], ok)
    case Refused => active && Bracketed(effects[1..], true)
    case Release => active && Bracketed(effects[1..], false)
    case NothingToStop => !active && Bracketed(effects[1..], false)
  }

  /**
   * Over every run whose started tabs have non-zero ids, the browser is
   * never asked to capture while a recording is active, and every release
   * ends the recording the last successful capture began.
   */
  lemma {:induction false} TraceBracketed(slot: Option<int>, requests: seq<Request>)
    requires forall k :: 0 <= k < |requests| && requests[k].StartReq? ==> requests[k].tabId != 0
    ensures Bracketed(Trace(slot, requests), Held(slot))
    decreases |requests|
  {
    if requests != [] {
      var next := Perform(slot, requests[0]).slot;
      TraceBracketed(next, requests[1..]);
      var effects := Trace(slot, requests);
      assert effects[1..] == Trace(next, requests[1..]);
    }
  }

  /** Without the non-zero id, two captures can follow each other. */
  lemma ZeroTabIdStacks()
    ensures !Bracketed(Trace(None, [StartReq(0, true), StartReq(7, true)]), false)
  {
    var requests := [StartReq(0, true), StartReq(7, true)];
    assert Trace(None, requests) == [Capture(true), Capture(true)];
  }

  // ---------------------------------------------------------------------
  // A session with the controller
  // ---------------------------------------------------------------------

  const ExampleTabs: seq<Tab> := [
    Tab(1, 1, Some("chrome://x"), 10),
    Tab(2, 1, Some("http://a"), 5),
    Tab(3, 1, Some("http://b"), 9)
  ]

  /** Of an internal page and two web pages, the later web page is chosen. */
  lemma ExampleSelection()
    ensures SelectTarget(ExampleTabs) == Some(ExampleTabs[2])
  {
    assert InternalSchemes[0] + "x" == "chrome://x";
    InternalPagesRefused(ExampleTabs[0], 0, "x");
    assert "http://" + "a" == "http://a";
    WebPagesAccepted(ExampleTabs[1], "a");
    assert "http://" + "b" == "http://b";
    WebPagesAccepted(ExampleTabs[2], "b");
    SelectTargetIsFirstMostRecent(ExampleTabs);
  }

  const ExampleWindows: Result<seq<Window>, string> := Success([Window(1, ExampleTabs)])

  lemma ExampleStarts()
    ensures HandleStart(ExampleWindows, None, true) ==
      Handled(Reply(true, StartedPrefix + "http://b"), Some(3), true)
    ensures HandleStart(ExampleWindows, Some(3), true) ==
      Handled(Reply(false, StartFailedMessage), Some(3), true)
  {
    ExampleSelection();
    assert Flatten([Window(1, ExampleTabs)]) == ExampleTabs;
  }

  /**
   * start, start, stop, stop from the controller with the example tabs:
   * the first start records tab 3, the second is refused, the first stop
   * succeeds and the second finds nothing to stop.
   */
  lemma ExampleSession()
    ensures var start, stop := Parsed(Msg(StartType)), Parsed(Msg(StopType));
      && Receive(start, ExampleWindows, None, true) ==
           Some(Handled(Reply(true, StartedPrefix + "http://b"), Some(3), true))
      && Receive(start, ExampleWindows, Some(3), true) ==
           Some(Handled(Reply(false, StartFailedMessage), Some(3), true))
      && Receive(stop, ExampleWindows, Some(3), true) ==
           Some(Handled(Reply(true, StoppedMessage), None, false))
      && Receive(stop, ExampleWindows, None, true) ==
           Some(Handled(Reply(false, NothingToStopMessage), None, false))
  {
    ExampleStarts();
    assert StartType != StopType by { assert StartType[2] != StopType[2]; }
  }
}
