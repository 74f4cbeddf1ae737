/** The alert store behind `useSocket()`: whether the push channel is
    connected, and the single most recent scan alert. The socket.io client is
    reduced to the events it delivers; a token change runs React's cleanup of
    the previous effect, then the effect again with the new token. */
module SocketStore {
  import opened Wrappers
  import opened Api

  /** The payload of a `scan` event. */
  datatype ScanAlert = ScanAlert(childId: string, parentId: string, childName: string, log: ScanLog)

  /** `token` is the value the effect last ran with; `socket` stands for
      `socketRef.current`, naming a socket by the order of its creation;
      `created` counts the sockets created so far. */
  datatype Store = Store(
    token: Option<string>,
    socket: Option<nat>,
    created: nat,
    connected: bool,
    lastScan: Option<ScanAlert>)

  datatype Event =
    | TokenChanged(token: Option<string>)
    | Connect
    | Disconnect
    | Scan(alert: ScanAlert)
    | ClearLastScan

  /** The provider just after mounting: both state cells at their initial
      values, and the first effect run with the initial null token. */
  function Init(): (s: Store)
    ensures !s.connected && s.lastScan.None? && s.socket.None?
    ensures Valid(s)
  {
    Store(None, None, 0, false, None)
  }

  /** The store's invariant: a socket exists exactly while the token is
      truthy, the channel is only connected through an existing socket, and
      the existing socket is always the one created last. */
  ghost predicate Valid(s: Store) {
    && (s.socket.Some? <==> Truthy(s.token))
    && (s.connected ==> s.socket.Some?)
    && (s.socket.Some? ==> s.socket.value + 1 == s.created)
  }

  /** The cleanup returned by the previous effect run; only a run that made
      a socket returned one. */
  function Teardown(s: Store): Store {
    if Truthy(s.token) then s.(socket := None, connected := false) else s
  }

  /** One run of the effect with token `t`. */
  function Effect(s: Store, t: Option<string>): Store {
    if !Truthy(t) then s.(token := t, socket := None, connected := false)
    else s.(token := t, socket := Some(s.created), created := s.created + 1)
  }

  /** How the store reacts to one event. Socket events come from the live
      socket, so without one there is nothing to deliver them. */
  function Step(s: Store, e: Event): (r: Store)
    ensures e.TokenChanged? ==> r.lastScan == s.lastScan && r.token == e.token
    ensures e.TokenChanged? && e.token == s.token ==> r == s
    ensures Valid(s) && e.TokenChanged? && e.token != s.token ==> !r.connected
    ensures e.TokenChanged? && e.token != s.token && Truthy(e.token) ==>
      r.socket == Some(s.created) && r.created == s.created + 1
    ensures e.TokenChanged? && e.token != s.token && !Truthy(e.token) ==> r.socket.None?
    ensures e.Scan? && s.socket.Some? ==> r == s.(lastScan := Some(e.alert))
    ensures e.ClearLastScan? ==> r == s.(lastScan := None)
    ensures e.Connect? && s.socket.Some? ==> r == s.(connected := true)
    ensures (e.Connect? || e.Scan?) && s.socket.None? ==> r == s
    ensures e.Disconnect? ==> r == s.(connected := false)
    ensures r.created >= s.created
  {
    match e
    case TokenChanged(t) => if t == s.token then s else Effect(Teardown(s), t)
    case Connect => if s.socket.Some? then s.(connected := true) else s
    case Disconnect => s.(connected := false)
    case Scan(a) => if s.socket.Some? then s.(lastScan := Some(a)) else s
    case ClearLastScan => s.(lastScan := None)
  }

  /** Every event keeps the invariant. */
  lemma StepKeepsValid(s: Store, e: Event)
    requires Valid(s)
    ensures Valid(Step(s, e))
  {
  }

  /** A logged-out store holds no socket and is not connected, whatever the
      token was before. */
  lemma TokenAbsentTearsDown(s: Store, t: Option<string>)
    requires Valid(s)
    requires !Truthy(t)
    ensures Step(s, TokenChanged(t)).socket.None?
    ensures !Step(s, TokenChanged(t)).connected
  {
  }

  function Run(s: Store, events: seq<Event>): Store
    decreases |events|
  {
    if events == [] then s else Run(Step(s, events[0]), events[1..])
  }

  lemma {:induction false} RunKeepsValid(s: Store, events: seq<Event>)
    requires Valid(s)
    ensures Valid(Run(s, events))
    decreases |events|
  {
    if events != [] {
      StepKeepsValid(s, events[0]);
      RunKeepsValid(Step(s, events[0]), events[1..]);
    }
  }

  lemma {:induction false} RunAppend(s: Store, events: seq<Event>, e: Event)
    ensures Run(s, events + [e]) == Step(Run(s, events), e)
    decreases |events|
  {
    if events != [] {
      assert (events + [e])[1..] == events[1..] + [e];
      RunAppend(Step(s, events[0]), events[1..], e);
    }
  }

  /** Delivering the same alert twice leaves the same state as once. */
  lemma ScanIdempotent(s: Store, a: ScanAlert)
    ensures Step(Step(s, Scan(a)), Scan(a)) == Step(s, Scan(a))
  {
  }

  /** Whatever happened before, the alert delivered last is the only one
      kept: two alerts in a row leave just the second. */
  lemma LatestAlertWins(s: Store, events: seq<Event>, a: ScanAlert)
    requires Run(s, events).socket.Some?
    ensures Run(s, events + [Scan(a)]).lastScan == Some(a)
  {
    RunAppend(s, events, Scan(a));
  }

  /** Single slot, replace only: after any run the alert is absent, the one
      held at the start, or the payload of one of the delivered scan events. */
  lemma {:induction false} AlertComesFromAnEvent(s: Store, events: seq<Event>)
    ensures var r := Run(s, events).lastScan;
      r.None? || r == s.lastScan || exists i :: 0 <= i < |events| && events[i] == Scan(r.value)
    decreases |events|
  {
    if events != [] {
      var t := Step(s, events[0]);
      AlertComesFromAnEvent(t, events[1..]);
      var r := Run(s, events).lastScan;
      assert Run(s, events) == Run(t, events[1..]);
      if r.Some? && r != s.lastScan {
        if r == t.lastScan {
          assert events[0] == Scan(r.value);
        } else {
          var i :| 0 <= i < |events[1..]| && events[1..][i] == Scan(r.value);
          assert events[i + 1] == Scan(r.value);
        }
      }
    }
  }

  /** Token changes, logout included, never touch the alert: an alert from
      one session is still held after logging in again. */
  lemma {:induction false} TokenChangesKeepAlert(s: Store, events: seq<Event>)
    requires forall i :: 0 <= i < |events| ==> events[i].TokenChanged?
    ensures Run(s, events).lastScan == s.lastScan
    decreases |events|
  {
    if events != [] {
      TokenChangesKeepAlert(Step(s, events[0]), events[1..]);
    }
  }

  /** A new session always gets a socket never used before, and starts
      disconnected until that socket reports `connect`. */
  lemma {:induction false} NewTokenNewSocket(s: Store, events: seq<Event>, t: Option<string>)
    requires Valid(s)
    requires Truthy(t) && t != Run(s, events).token
    ensures var before := Run(s, events);
      var r := Run(s, events + [TokenChanged(t)]);
      && r.socket == Some(before.created) && r.socket.value >= s.created && !r.connected
      && (before.socket.Some? ==> before.socket.value < r.socket.value)
  {
    RunAppend(s, events, TokenChanged(t));
    RunCreatedGrows(s, events);
    RunKeepsValid(s, events);
  }

  lemma {:induction false} RunCreatedGrows(s: Store, events: seq<Event>)
    ensures Run(s, events).created >= s.created
    decreases |events|
  {
    if events != [] {
      RunCreatedGrows(Step(s, events[0]), events[1..]);
    }
  }
}
