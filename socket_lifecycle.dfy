/**
 * The `useWebSocket` hook (src/app/hooks/useWebSocket.ts): the connection
 * flag, the current-socket ref and the reconnect-timer ref, driven by the
 * socket's open/close/error handlers, the reconnect timer and the effect's
 * cleanup. Each handler runs atomically, as the browser's event loop runs it.
 *
 * The browser's side is made explicit so that the handlers' consequences can
 * be followed: the status of every socket the hook created (sockets are
 * numbered in creation order) and the timers scheduled but neither fired nor
 * cleared (timers are numbered in scheduling order, each with its delay).
 */
module SocketLifecycle {
  import opened Common

  /** The delay before a reconnect attempt, in milliseconds. */
  const ReconnectDelayMs: nat := 5000

  /** A browser socket's `readyState`. */
  datatype SocketStatus = Connecting | Open | Closing | Closed

  /** The hook's state and the browser objects it has created. */
  datatype HookState = HookState(
    isConnected: bool,
    wsRef: Option<nat>,
    reconnectTimeoutRef: Option<nat>,
    sockets: seq<SocketStatus>,
    pending: map<nat, nat>,
    timersIssued: nat)

  /** What can happen to the hook. `creationFails` says whether `new WebSocket` throws. */
  datatype Event =
    | Mount(creationFails: bool)
    | SocketOpen(socket: nat)
    | SocketClose(socket: nat)
    | SocketError(socket: nat)
    | TimerFire(timer: nat, creationFails: bool)
    | Teardown

  /** A freshly rendered hook: disconnected, no socket and no timer recorded. */
  function Init(): (s: HookState)
    ensures !s.isConnected && s.wsRef.None? && s.reconnectTimeoutRef.None?
    ensures s.sockets == [] && s.pending == map[]
  {
    HookState(false, None, None, [], map[], 0)
  }

  /**
   * `connect`: a socket is created and recorded as the current one; if its
   * creation throws, the flag drops and the recorded socket stays as it was.
   */
  function AfterConnect(s: HookState, creationFails: bool): (r: HookState)
    ensures creationFails ==> !r.isConnected && r.wsRef == s.wsRef && r.sockets == s.sockets
    ensures !creationFails ==> r.wsRef == Some(|s.sockets|) && r.sockets == s.sockets + [Connecting] && r.isConnected == s.isConnected
    ensures r.pending == s.pending && r.reconnectTimeoutRef == s.reconnectTimeoutRef && r.timersIssued == s.timersIssued
  {
    if creationFails then
      s.(isConnected := false)
    else
      s.(wsRef := Some(|s.sockets|), sockets := s.sockets + [Connecting])
  }

  /** Sets the status of socket `k`, if the hook created it. */
  function SetStatus(sockets: seq<SocketStatus>, k: nat, status: SocketStatus): seq<SocketStatus> {
    if k < |sockets| then sockets[k := status] else sockets
  }

  /** Whether `close()` on a socket in this status starts closing it. */
  predicate Closable(status: SocketStatus) {
    status == Connecting || status == Open
  }

  /**
   * The effect of one event on the state. The flag moves exactly as
   * `FlagEffect` says, and only a close schedules a timer.
   */
  function Step(s: HookState, e: Event): (r: HookState)
    ensures FlagEffect(e).Some? ==> r.isConnected == FlagEffect(e).value
    ensures FlagEffect(e).None? ==> r.isConnected == s.isConnected
    ensures !e.SocketClose? ==> r.pending.Keys <= s.pending.Keys && r.reconnectTimeoutRef == s.reconnectTimeoutRef
  {
    match e
    case Mount(fails) =>
      AfterConnect(s, fails)
    case SocketOpen(k) =>
      s.(isConnected := true, sockets := SetStatus(s.sockets, k, Open))
    case SocketClose(k) =>
      // the handler schedules a timer and overwrites the ref, unguarded
      s.(isConnected := false,
         sockets := SetStatus(s.sockets, k, Closed),
         pending := s.pending[s.timersIssued := ReconnectDelayMs],
         reconnectTimeoutRef := Some(s.timersIssued),
         timersIssued := s.timersIssued + 1)
    case SocketError(k) =>
      s.(isConnected := false)
    case TimerFire(t, fails) =>
      // the ref keeps naming the fired timer: nothing resets it
      AfterConnect(s.(pending := s.pending - {t}), fails)
    case Teardown =>
      var cleared :=
        if s.reconnectTimeoutRef.Some? then s.(pending := s.pending - {s.reconnectTimeoutRef.value}) else s;
      if s.wsRef.Some? && s.wsRef.value < |s.sockets| && Closable(s.sockets[s.wsRef.value]) then
        cleared.(sockets := s.sockets[s.wsRef.value := Closing])
      else
        cleared
  }

  /**
   * When the browser or React can deliver an event: the effect runs on a
   * fresh hook, a socket opens only while connecting, it errors or closes
   * only before it is closed, and only a pending timer fires.
   */
  predicate Enabled(s: HookState, e: Event) {
    match e
    case Mount(_) => s == Init()
    case SocketOpen(k) => k < |s.sockets| && s.sockets[k] == Connecting
    case SocketClose(k) => k < |s.sockets| && s.sockets[k] != Closed
    case SocketError(k) => k < |s.sockets| && s.sockets[k] != Closed
    case TimerFire(t, _) => t in s.pending
    case Teardown => true
  }

  /** The state after a sequence of events. */
  function Run(s: HookState, events: seq<Event>): HookState
    decreases |events|
  {
    if events == [] then s else Step(Run(s, events[..|events| - 1]), events[|events| - 1])
  }

  /** Every event of the sequence is deliverable when it happens. */
  predicate Runs(s: HookState, events: seq<Event>)
    decreases |events|
  {
    events == [] ||
    (Runs(s, events[..|events| - 1]) && Enabled(Run(s, events[..|events| - 1]), events[|events| - 1]))
  }

  /** The sockets not yet closed. */
  function LiveSockets(s: HookState): set<nat> {
    set i | 0 <= i < |s.sockets| && s.sockets[i] != Closed
  }

  /**
   * What holds between events during one mount: only the recorded socket
   * can be alive, only the recorded timer can be pending, a pending timer and
   * a live socket never coexist, and every pending timer waits 5000 ms.
   */
  predicate Inv(s: HookState) {
    && (s.wsRef.Some? ==> s.wsRef.value < |s.sockets|)
    && (forall i :: 0 <= i < |s.sockets| && s.sockets[i] != Closed ==> s.wsRef == Some(i))
    && (forall t :: t in s.pending ==> s.reconnectTimeoutRef == Some(t) && t < s.timersIssued)
    && (forall t :: t in s.pending ==> s.pending[t] == ReconnectDelayMs)
    && (s.pending != map[] ==> forall i :: 0 <= i < |s.sockets| ==> s.sockets[i] == Closed)
  }

  /** Which way an event moves the connection flag, if it moves it at all. */
  function FlagEffect(e: Event): Option<bool> {
    match e
    case SocketOpen(_) => Some(true)
    case SocketClose(_) => Some(false)
    case SocketError(_) => Some(false)
    case Mount(fails) => if fails then Some(false) else None
    case TimerFire(_, fails) => if fails then Some(false) else None
    case Teardown => None
  }

  /** The effect on the flag of the most recent event that has one. */
  function LastFlagEffect(events: seq<Event>): Option<bool>
    decreases |events|
  {
    if events == [] then None
    else if FlagEffect(events[|events| - 1]).Some? then FlagEffect(events[|events| - 1])
    else LastFlagEffect(events[..|events| - 1])
  }

  /**
   * `connect` either records a socket that did not exist before, leaving the
   * flag and the timers alone, or, when creation throws, lowers the flag and
   * keeps the recorded socket.
   */
  lemma ConnectRecordsNewSocket(s: HookState, creationFails: bool)
    ensures var r := AfterConnect(s, creationFails);
      && (creationFails ==> !r.isConnected && r.wsRef == s.wsRef && r.sockets == s.sockets)
      && (!creationFails ==>
            && r.wsRef.Some? && r.wsRef.value == |s.sockets|
            && r.sockets[..|s.sockets|] == s.sockets && r.sockets[r.wsRef.value] == Connecting
            && r.isConnected == s.isConnected)
      && r.pending == s.pending && r.reconnectTimeoutRef == s.reconnectTimeoutRef
  {
  }

  /** An open event raises the flag and leaves the timers alone. */
  lemma OpenRaisesFlag(s: HookState, k: nat)
    ensures Step(s, SocketOpen(k)).isConnected
    ensures Step(s, SocketOpen(k)).reconnectTimeoutRef == s.reconnectTimeoutRef
    ensures Step(s, SocketOpen(k)).pending == s.pending
  {
  }

  /** An error event lowers the flag and schedules nothing. */
  lemma ErrorLowersFlag(s: HookState, k: nat)
    ensures !Step(s, SocketError(k)).isConnected
    ensures Step(s, SocketError(k)).reconnectTimeoutRef == s.reconnectTimeoutRef
    ensures Step(s, SocketError(k)).pending == s.pending
  {
  }

  /**
   * A close event lowers the flag and schedules exactly one new 5000 ms
   * timer, which the ref now names whatever it named before.
   */
  lemma CloseSchedulesOneTimer(s: HookState, k: nat)
    requires Inv(s)
    ensures var r := Step(s, SocketClose(k));
      && !r.isConnected
      && s.timersIssued !in s.pending
      && r.pending.Keys == s.pending.Keys + {s.timersIssued}
      && r.pending[s.timersIssued] == ReconnectDelayMs
      && r.reconnectTimeoutRef == Some(s.timersIssued)
  {
  }

  /**
   * A timer firing consumes it and calls `connect`: unless creation throws,
   * the current-socket ref moves to a new socket that is connecting.
   */
  lemma TimerFireReconnects(s: HookState, t: nat, creationFails: bool)
    requires Inv(s)
    ensures var r := Step(s, TimerFire(t, creationFails));
      && r.pending.Keys == s.pending.Keys - {t}
      && (creationFails ==> !r.isConnected && r.wsRef == s.wsRef)
      && (!creationFails ==>
            && r.wsRef == Some(|s.sockets|)
            && r.wsRef != s.wsRef
            && r.sockets == s.sockets + [Connecting])
  {
  }

  /** Cleanup cancels the recorded timer and starts closing the recorded socket. */
  lemma TeardownReleasesRecorded(s: HookState)
    requires Inv(s)
    ensures var r := Step(s, Teardown);
      && (s.reconnectTimeoutRef.Some? ==> s.reconnectTimeoutRef.value !in r.pending)
      && (s.wsRef.Some? ==> !Closable(r.sockets[s.wsRef.value]))
      && r.pending == map[]
  {
  }

  /** Every deliverable event keeps the invariant. */
  lemma StepKeepsInv(s: HookState, e: Event)
    requires Inv(s) && Enabled(s, e)
    ensures Inv(Step(s, e))
  {
    var r := Step(s, e);
    match e
    case Mount(fails) =>
    case SocketOpen(k) =>
    case SocketClose(k) =>
      forall i | 0 <= i < |r.sockets|
        ensures r.sockets[i] == Closed
      {
        if i != k {
          assert s.sockets[i] == r.sockets[i];
          assert s.sockets[k] != Closed;
        }
      }
    case SocketError(k) =>
    case TimerFire(t, fails) =>
      assert r.pending == map[];
    case Teardown =>
      assert r.pending == map[];
  }

  /** Every run of deliverable events from a fresh hook keeps the invariant. */
  lemma {:induction false} RunKeepsInv(events: seq<Event>)
    requires Runs(Init(), events)
    ensures Inv(Run(Init(), events))
    decreases |events|
  {
    if events != [] {
      var prefix := events[..|events| - 1];
      RunKeepsInv(prefix);
      StepKeepsInv(Run(Init(), prefix), events[|events| - 1]);
    }
  }

  /** Under the invariant at most one socket is alive and at most one timer is pending. */
  lemma InvBoundsResources(s: HookState)
    requires Inv(s)
    ensures |LiveSockets(s)| <= 1
    ensures |s.pending| <= 1
    ensures |s.pending| == 1 ==> LiveSockets(s) == {}
  {
    if s.wsRef.Some? {
      assert LiveSockets(s) <= {s.wsRef.value};
      SubsetOfSingleton(LiveSockets(s), s.wsRef.value);
    } else {
      assert LiveSockets(s) == {};
    }
    if s.reconnectTimeoutRef.Some? {
      assert s.pending.Keys <= {s.reconnectTimeoutRef.value};
      SubsetOfSingleton(s.pending.Keys, s.reconnectTimeoutRef.value);
    } else {
      assert s.pending.Keys == {};
    }
    assert |s.pending| == |s.pending.Keys|;
    if |s.pending| == 1 {
      assert s.pending != map[];
    }
  }

  lemma SubsetOfSingleton(a: set<nat>, x: nat)
    requires a <= {x}
    ensures |a| <= 1
  {
    if a != {} {
      assert a == {x};
    }
  }

  /**
   * Whatever happens during one mount, at most one socket is alive and at
   * most one reconnect timer is pending, so overwriting the timer ref never
   * loses a pending timer.
   */
  lemma AtMostOneTimerPending(events: seq<Event>)
    requires Runs(Init(), events)
    ensures |Run(Init(), events).pending| <= 1
    ensures |LiveSockets(Run(Init(), events))| <= 1
  {
    RunKeepsInv(events);
    InvBoundsResources(Run(Init(), events));
  }

  /**
   * The flag is exactly the effect of the most recent event that moves it:
   * it is true if and only if that event was an open.
   */
  lemma {:induction false} FlagFollowsLastEvent(s: HookState, events: seq<Event>)
    ensures Run(s, events).isConnected ==
      (if LastFlagEffect(events).Some? then LastFlagEffect(events).value else s.isConnected)
    decreases |events|
  {
    if events != [] {
      FlagFollowsLastEvent(s, events[..|events| - 1]);
    }
  }

  /** From a fresh hook the flag is up only if the last flag-moving event was an open. */
  lemma ConnectedOnlyAfterOpen(events: seq<Event>)
    ensures Run(Init(), events).isConnected <==> LastFlagEffect(events) == Some(true)
  {
    FlagFollowsLastEvent(Init(), events);
  }

  /**
   * Cleanup does not end reconnection: the socket it closes still delivers
   * its close event, whose handler schedules a new timer, and that timer
   * opens a new socket after the hook has been torn down.
   */
  lemma TeardownDoesNotStopReconnect(s: HookState)
    requires Inv(s)
    requires s.wsRef.Some? && Closable(s.sockets[s.wsRef.value])
    ensures var k := s.wsRef.value;
      var afterCleanup := Step(s, Teardown);
      var afterClose := Step(afterCleanup, SocketClose(k));
      var afterFire := Step(afterClose, TimerFire(s.timersIssued, false));
      && afterCleanup.pending == map[]
      && Enabled(afterCleanup, SocketClose(k))
      && afterClose.pending.Keys == {s.timersIssued}
      && Enabled(afterClose, TimerFire(s.timersIssued, false))
      && afterFire.wsRef == Some(|s.sockets|)
      && afterFire.sockets[|s.sockets|] == Connecting
  {
  }

  /**
   * The hook itself: the two refs and the flag, with the browser's sockets
   * and timers beside them. Each method is one handler.
   */
  class Hook {
    var isConnected: bool
    var wsRef: Option<nat>
    var reconnectTimeoutRef: Option<nat>
    var sockets: seq<SocketStatus>
    var pending: map<nat, nat>
    var timersIssued: nat

    function State(): HookState
      reads this
    {
      HookState(isConnected, wsRef, reconnectTimeoutRef, sockets, pending, timersIssued)
    }

    /** The first render: `useState(false)` and two `useRef(null)`. */
    constructor ()
      ensures State() == Init()
    {
      isConnected, wsRef, reconnectTimeoutRef := false, None, None;
      sockets, pending, timersIssued := [], map[], 0;
    }

    /** `connect`: create a socket, install the handlers, record it. */
    method Connect(creationFails: bool)
      modifies this
      ensures State() == AfterConnect(old(State()), creationFails)
    {
      if creationFails {
        isConnected := false;
      } else {
        var ws := |sockets|;
        sockets := sockets + [Connecting];
        wsRef := Some(ws);
      }
    }

    /** The effect: connect once on mount. */
    method Mount(creationFails: bool)
      requires State() == Init()
      modifies this
      ensures State() == Step(old(State()), Event.Mount(creationFails))
      ensures Inv(State())
    {
      StepKeepsInv(State(), Event.Mount(creationFails));
      Connect(creationFails);
    }

    /** `onopen`. */
    method OnOpen(k: nat)
      requires Inv(State()) && Enabled(State(), SocketOpen(k))
      modifies this
      ensures State() == Step(old(State()), SocketOpen(k))
      ensures Inv(State())
    {
      StepKeepsInv(State(), SocketOpen(k));
      isConnected := true;
      sockets := sockets[k := Open];
    }

    /** `onclose`: drop the flag and schedule a reconnect, overwriting the timer ref. */
    method OnClose(k: nat)
      requires Inv(State()) && Enabled(State(), SocketClose(k))
      modifies this
      ensures State() == Step(old(State()), SocketClose(k))
      ensures Inv(State())
    {
      StepKeepsInv(State(), SocketClose(k));
      isConnected := false;
      sockets := sockets[k := Closed];
      var timer := timersIssued;
      pending := pending[timer := ReconnectDelayMs];
      timersIssued := timersIssued + 1;
      reconnectTimeoutRef := Some(timer);
    }

    /** `onerror`: drop the flag. */
    method OnError(k: nat)
      requires Inv(State()) && Enabled(State(), SocketError(k))
      modifies this
      ensures State() == Step(old(State()), SocketError(k))
      ensures Inv(State())
    {
      StepKeepsInv(State(), SocketError(k));
      isConnected := false;
    }

    /** The reconnect timer's callback: `connect()`. */
    method OnTimer(t: nat, creationFails: bool)
      requires Inv(State()) && Enabled(State(), TimerFire(t, creationFails))
      modifies this
      ensures State() == Step(old(State()), TimerFire(t, creationFails))
      ensures Inv(State())
    {
      StepKeepsInv(State(), TimerFire(t, creationFails));
      pending := pending - {t};
      Connect(creationFails);
    }

    /** The effect's cleanup: clear the recorded timer, then close the recorded socket. */
    method Cleanup()
      requires Inv(State())
      modifies this
      ensures State() == Step(old(State()), Teardown)
      ensures Inv(State())
    {
      StepKeepsInv(State(), Teardown);
      if reconnectTimeoutRef.Some? {
        pending := pending - {reconnectTimeoutRef.value};
      }
      if wsRef.Some? && wsRef.value < |sockets| && Closable(sockets[wsRef.value]) {
        sockets := sockets[wsRef.value := Closing];
      }
    }
  }

  /** A mount, a drop and the reconnect it schedules, then cleanup. */
  method ReconnectScenario()
  {
    var hook := new Hook();
    hook.Mount(false);
    assert hook.wsRef == Some(0);
    hook.OnOpen(0);
    assert hook.isConnected;
    hook.OnClose(0);
    assert !hook.isConnected && hook.pending.Keys == {0} && hook.pending[0] == 5000;
    hook.OnTimer(0, false);
    assert hook.wsRef == Some(1) && hook.pending == map[];
    hook.Cleanup();
    assert hook.sockets[1] == Closing;
  }
}
