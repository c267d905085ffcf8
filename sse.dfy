/** The live-update client (`useSimpleSSE`, src/pages/users/hooks/useSseUsers.tsx): a
    state machine over the connection status, the last message, the retry counter and its
    ref copy, one event-source handle and the reconnect timers. The event source and the
    timers are environment events; every closure the hook creates is kept with the values
    it captured. */
module Sse {
  import opened Wrappers

  datatype Status = Connecting | Connected | Disconnected

  /** A message, already parsed from the event's JSON data. */
  datatype Message = Message(from: string, to: string, content: string)

  /** An observable callback invocation. */
  datatype Call = OnConnect | OnUpdate(message: Message) | OnError

  /** The options: which callbacks are given, `autoReconnect` and `maxRetries`. They are
      taken as fixed for the life of the hook. */
  datatype Options = Options(hasOnUpdate: bool, hasOnConnect: bool, hasOnError: bool, autoReconnect: Option<bool>, maxRetries: Option<int>)

  /** `options.maxRetries ?? 5` (useSseUsers.tsx:26). */
  function MaxAttempts(o: Options): (m: int)
    ensures o.maxRetries.None? ==> m == 5
    ensures o.maxRetries.Some? ==> m == o.maxRetries.value
  {
    o.maxRetries.GetOr(5)
  }

  /** The options the users page passes (src/pages/users/Users.tsx:100-112): all three
      callbacks, no `autoReconnect`, no `maxRetries`. */
  const UsersPageOptions: Options := Options(true, true, true, None, None)

  /** The users page therefore reconnects, at most while the counter is below five. */
  lemma UsersPageDefaults()
    ensures MaxAttempts(UsersPageOptions) == 5 && AutoReconnect(UsersPageOptions)
  {
  }

  /** Reconnection is on unless `autoReconnect` is exactly `false` (useSseUsers.tsx:77). */
  predicate AutoReconnect(o: Options)
  {
    o.autoReconnect != Some(false)
  }

  /** The values a `connect` closure captured from the render that created it: that
      render's `url` and its `retryCount` state. The handlers and timers it creates share
      them. */
  datatype Closure = Closure(url: string, retryCount: nat)

  /** An event source, with the closure that opened it. */
  datatype Source = Source(id: nat, closure: Closure)

  /** A scheduled reconnect: its delay and the closure whose `connect` it calls. */
  datatype Timer = Timer(delay: nat, closure: Closure)

  /** The hook's state. `retryCount` is the state variable, `retryCountRef` its ref copy;
      `source` is `eventSourceRef.current`, `retryTimeout` is `retryTimeoutRef.current` (the
      last timer scheduled; clearing a timer does not null it). `live` holds the ids of the
      sources opened and not closed, `pending` the timers scheduled and not yet fired or
      cleared. */
  datatype State = State(
    status: Status,
    lastMessage: Option<Message>,
    retryCount: nat,
    retryCountRef: nat,
    url: string,
    source: Option<Source>,
    live: set<nat>,
    nextSource: nat,
    retryTimeout: Option<nat>,
    pending: map<nat, Timer>,
    nextTimer: nat,
    calls: seq<Call>)

  /** 2 to the power n. */
  function Pow2(n: nat): (p: nat)
    ensures p >= 1
  {
    if n == 0 then 1 else 2 * Pow2(n - 1)
  }

  /** `Math.min(1000 * Math.pow(2, n), 30000)` (useSseUsers.tsx:80). For large n the power
      is a float that overflows to Infinity, which the minimum also caps to 30000. */
  function BackoffDelay(n: nat): (d: nat)
    ensures d <= 30000 && d <= 1000 * Pow2(n)
    ensures d == 30000 || d == 1000 * Pow2(n)
  {
    if 1000 * Pow2(n) < 30000 then 1000 * Pow2(n) else 30000
  }

  /** The delay is between one second and thirty seconds. */
  lemma BackoffBounds(n: nat)
    ensures 1000 <= BackoffDelay(n) <= 30000
  {
  }

  /** Below the cap, the delay doubles with each attempt. */
  lemma BackoffDoubles(n: nat)
    requires n < 4
    ensures BackoffDelay(n + 1) == 2 * BackoffDelay(n)
  {
    assert Pow2(n + 1) == 2 * Pow2(n);
    if n == 3 {
      assert Pow2(3) == 8;
    } else if n == 2 {
      assert Pow2(2) == 4;
    } else if n == 1 {
      assert Pow2(1) == 2;
    }
  }

  /** From the fifth attempt on, the delay is the cap. */
  lemma {:induction false} BackoffCapped(n: nat)
    requires n >= 5
    ensures BackoffDelay(n) == 30000
  {
    PowGrows(n);
    assert Pow2(5) == 32;
  }

  /** 2^n grows with n. */
  lemma {:induction false} PowGrows(n: nat)
    requires n >= 5
    ensures Pow2(n) >= 32
  {
    if n > 5 {
      PowGrows(n - 1);
    } else {
      assert Pow2(5) == 32;
    }
  }

  /** The state of the first render (useSseUsers.tsx:18-25). */
  function Init(url: string): (s: State)
    ensures s.status == Connecting && s.lastMessage == None && s.retryCount == 0 && s.retryCountRef == 0
    ensures s.source == None && s.live == {} && s.pending == map[] && s.retryTimeout == None && s.calls == []
  {
    State(Connecting, None, 0, 0, url, None, {}, 0, None, map[], 0, [])
  }

  /** The well-formedness every reachable state keeps: the handle in the ref is the only
      source not closed, and every handle and timer id was handed out. */
  predicate Valid(s: State)
  {
    && s.live == (if s.source.Some? then {s.source.value.id} else {})
    && (s.source.Some? ==> s.source.value.id < s.nextSource)
    && (forall t :: t in s.pending ==> t < s.nextTimer)
    && (s.retryTimeout.Some? ==> s.retryTimeout.value < s.nextTimer)
  }

  /** At most one source is open in a valid state. */
  lemma AtMostOneSource(s: State)
    requires Valid(s)
    ensures |s.live| <= 1
  {
  }

  /** `clearTimeout(retryTimeoutRef.current)` when the ref is set. */
  function ClearTracked(s: State): State
  {
    if s.retryTimeout.Some? then s.(pending := s.pending - {s.retryTimeout.value}) else s
  }

  /** Close the source in the ref, if any, and null the ref. */
  function CloseSource(s: State): State
  {
    if s.source.Some? then s.(source := None, live := s.live - {s.source.value.id}) else s
  }

  /** `connect` of closure `c` (useSseUsers.tsx:38-90): cancel the tracked timer, close the
      current source, and open a new one only while the ref counter is below the maximum. */
  function Connect(s: State, c: Closure, max: int): (r: State)
    ensures s.retryTimeout.Some? ==> s.retryTimeout.value !in r.pending
    ensures r.pending == if s.retryTimeout.Some? then s.pending - {s.retryTimeout.value} else s.pending
    ensures Valid(s) && s.source.Some? ==> s.source.value.id !in r.live
    ensures r.source.Some? <==> s.retryCountRef < max
    ensures r.source.Some? ==> r.source.value == Source(s.nextSource, c) && r.nextSource == s.nextSource + 1
    ensures r.status == s.status && r.lastMessage == s.lastMessage && r.retryCount == s.retryCount
    ensures r.retryCountRef == s.retryCountRef && r.calls == s.calls && r.retryTimeout == s.retryTimeout
    ensures r.url == s.url && r.nextTimer == s.nextTimer
    ensures r.source.None? ==> r.nextSource == s.nextSource
    ensures r.live == (if s.source.Some? then s.live - {s.source.value.id} else s.live)
      + (if r.source.Some? then {s.nextSource} else {})
  {
    var t := CloseSource(ClearTracked(s));
    if t.retryCountRef < max then
      t.(source := Some(Source(t.nextSource, c)), live := t.live + {t.nextSource}, nextSource := t.nextSource + 1)
    else t
  }

  /** `connect` keeps the state valid. */
  lemma ConnectValid(s: State, c: Closure, max: int)
    requires Valid(s)
    ensures Valid(Connect(s, c, max))
  {
  }

  /** The mount effect (useSseUsers.tsx:92-94): status `connecting`, then `connect` of the
      first render's closure. */
  function Mount(s: State, o: Options): (r: State)
    ensures r.status == Connecting && r.retryCount == s.retryCount && r.retryCountRef == s.retryCountRef
    ensures r.source.Some? <==> s.retryCountRef < MaxAttempts(o)
    ensures r.source.Some? ==> r.source.value.closure == Closure(s.url, s.retryCount)
    ensures Valid(s) ==> Valid(r)
  {
    Connect(s.(status := Connecting), Closure(s.url, s.retryCount), MaxAttempts(o))
  }

  /** `onopen` (useSseUsers.tsx:53-57): connected, counter reset, `onConnect` once. */
  function Opened(s: State, o: Options): (r: State)
    ensures s.source.Some? ==> r.status == Connected && r.retryCount == 0
    ensures s.source.Some? ==> r.calls == s.calls + (if o.hasOnConnect then [OnConnect] else [])
    ensures s.source.Some? ==> r == s.(status := Connected, retryCount := 0, calls := r.calls)
    ensures s.source.None? ==> r == s
  {
    if s.source.None? then s
    else s.(status := Connected, retryCount := 0, calls := s.calls + if o.hasOnConnect then [OnConnect] else [])
  }

  /** A `connected` event (useSseUsers.tsx:59-62): the message is stored, no callback. */
  function ConnectedEvent(s: State, m: Message): (r: State)
    ensures s.source.Some? ==> r == s.(lastMessage := Some(m))
    ensures s.source.None? ==> r == s
  {
    if s.source.None? then s else s.(lastMessage := Some(m))
  }

  /** An `update` event (useSseUsers.tsx:64-68): the message is stored and handed to
      `onUpdate`. */
  function UpdateEvent(s: State, o: Options, m: Message): (r: State)
    ensures s.source.Some? ==> r.lastMessage == Some(m)
    ensures s.source.Some? ==> r.calls == s.calls + (if o.hasOnUpdate then [OnUpdate(m)] else [])
    ensures s.source.Some? ==> r == s.(lastMessage := Some(m), calls := r.calls)
    ensures s.source.None? ==> r == s
  {
    if s.source.None? then s
    else s.(lastMessage := Some(m), calls := s.calls + if o.hasOnUpdate then [OnUpdate(m)] else [])
  }

  /** `onerror` (useSseUsers.tsx:72-88): disconnected and `onError`; with reconnection on,
      the counter goes up by one and exactly one new timer is scheduled, whose delay comes
      from the `retryCount` the source's closure captured, not from the current counter. */
  function Errored(s: State, o: Options): (r: State)
    requires Valid(s)
    ensures s.source.Some? ==> r.status == Disconnected
    ensures s.source.Some? ==> r.calls == s.calls + (if o.hasOnError then [OnError] else [])
    ensures s.source.Some? && AutoReconnect(o) ==>
      && r.retryCount == s.retryCount + 1
      && s.nextTimer !in s.pending
      && r.pending == s.pending[s.nextTimer := Timer(BackoffDelay(s.source.value.closure.retryCount), s.source.value.closure)]
      && r.retryTimeout == Some(s.nextTimer)
      && r.nextTimer == s.nextTimer + 1
    ensures s.source.Some? && !AutoReconnect(o) ==> r == s.(status := Disconnected, calls := r.calls)
    ensures r.source == s.source && r.live == s.live && r.retryCountRef == s.retryCountRef && r.lastMessage == s.lastMessage
    ensures s.source.None? ==> r == s
  {
    if s.source.None? then s
    else
      var t := s.(status := Disconnected, calls := s.calls + if o.hasOnError then [OnError] else []);
      if AutoReconnect(o) then
        var c := s.source.value.closure;
        t.(retryCount := t.retryCount + 1,
           pending := t.pending[t.nextTimer := Timer(BackoffDelay(c.retryCount), c)],
           retryTimeout := Some(t.nextTimer),
           nextTimer := t.nextTimer + 1)
      else t
  }

  /** A pending timer fires (useSseUsers.tsx:84-86) and calls its closure's `connect`; a
      timer that is not pending does nothing. The status is not set to `connecting`. */
  function TimerFired(s: State, o: Options, id: nat): (r: State)
    ensures id in s.pending ==> id !in r.pending
    ensures id in s.pending ==> (r.source.Some? <==> s.retryCountRef < MaxAttempts(o))
    ensures id in s.pending && r.source.Some? ==> r.source.value.closure == s.pending[id].closure
    ensures r.status == s.status && r.retryCount == s.retryCount && r.calls == s.calls
    ensures id !in s.pending ==> r == s
  {
    if id in s.pending then Connect(s.(pending := s.pending - {id}), s.pending[id].closure, MaxAttempts(o)) else s
  }

  /** The effect cleanup (useSseUsers.tsx:96-105): clear the tracked timer, close and null
      the source, status `disconnected`. Timers scheduled before the tracked one are not
      cleared. */
  function Teardown(s: State): (r: State)
    ensures r.source == None && r.status == Disconnected
    ensures s.source.Some? ==> s.source.value.id !in r.live
    ensures r.pending == if s.retryTimeout.Some? then s.pending - {s.retryTimeout.value} else s.pending
    ensures r.retryCount == s.retryCount && r.retryCountRef == s.retryCountRef && r.calls == s.calls
  {
    CloseSource(ClearTracked(s)).(status := Disconnected)
  }

  /** Tearing down twice is the same as tearing down once. */
  lemma TeardownIdempotent(s: State)
    ensures Teardown(Teardown(s)) == Teardown(s)
  {
  }

  /** A commit after `retryCount` changed: the effect at useSseUsers.tsx:34-36 copies it
      into the ref. */
  function Commit(s: State): (r: State)
    ensures r.retryCountRef == s.retryCount
    ensures r.(retryCountRef := s.retryCountRef) == s
    ensures Valid(s) ==> Valid(r)
  {
    s.(retryCountRef := s.retryCount)
  }

  /** A new `url` (useSseUsers.tsx:92-106): the old effect's cleanup, the ref copy, then the
      new effect: status `connecting` and `connect` with the new render's closure. The
      counter is not reset. */
  function UrlChanged(s: State, o: Options, url: string): (r: State)
    ensures r.status == Connecting && r.url == url && r.retryCount == s.retryCount && r.retryCountRef == s.retryCount
    ensures Valid(s) && s.source.Some? ==> s.source.value.id !in r.live
    ensures s.retryTimeout.Some? ==> s.retryTimeout.value !in r.pending
    ensures r.source.Some? <==> s.retryCount < MaxAttempts(o)
    ensures r.source.Some? ==> r.source.value.closure == Closure(url, s.retryCount)
  {
    var t := Teardown(s).(url := url, retryCountRef := s.retryCount, status := Connecting);
    Connect(t, Closure(url, t.retryCount), MaxAttempts(o))
  }

  /** The returned `reconnect` of the latest render: its `connect`, with the current
      counter captured. */
  function Reconnect(s: State, o: Options): (r: State)
    ensures r.retryCount == s.retryCount && r.retryCountRef == s.retryCountRef
    ensures r.source.Some? <==> s.retryCountRef < MaxAttempts(o)
    ensures r.source.Some? ==> r.source.value.closure == Closure(s.url, s.retryCount)
    ensures Valid(s) ==> Valid(r)
  {
    Connect(s, Closure(s.url, s.retryCount), MaxAttempts(o))
  }

  /** Everything that can happen to the hook after it mounted. */
  datatype Event =
    | OpenEvent
    | ConnectedMessage(m: Message)
    | UpdateMessage(m: Message)
    | HeartbeatEvent
    | ErrorEvent
    | TimerEvent(id: nat)
    | CommitEvent
    | UrlChange(url: string)
    | ReconnectCall
    | Unmount

  function Step(s: State, o: Options, e: Event): State
    requires Valid(s)
  {
    match e
    case OpenEvent => Opened(s, o)
    case ConnectedMessage(m) => ConnectedEvent(s, m)
    case UpdateMessage(m) => UpdateEvent(s, o, m)
    case HeartbeatEvent => s
    case ErrorEvent => Errored(s, o)
    case TimerEvent(id) => TimerFired(s, o, id)
    case CommitEvent => Commit(s)
    case UrlChange(url) => UrlChanged(s, o, url)
    case ReconnectCall => Reconnect(s, o)
    case Unmount => Teardown(s)
  }

  /** Every event keeps the state valid. */
  lemma StepValid(s: State, o: Options, e: Event)
    requires Valid(s)
    ensures Valid(Step(s, o, e))
  {
    match e
    case TimerEvent(id) =>
      if id in s.pending {
        ConnectValid(s.(pending := s.pending - {id}), s.pending[id].closure, MaxAttempts(o));
      }
    case UrlChange(url) =>
      ConnectValid(Teardown(s).(url := url, retryCountRef := s.retryCount, status := Connecting), Closure(url, s.retryCount), MaxAttempts(o));
    case ReconnectCall =>
      ConnectValid(s, Closure(s.url, s.retryCount), MaxAttempts(o));
    case _ =>
  }

  /** The state after a sequence of events. */
  function Run(s: State, o: Options, es: seq<Event>): (r: State)
    requires Valid(s)
    ensures Valid(r)
    decreases |es|
  {
    if |es| == 0 then s
    else
      StepValid(s, o, es[0]);
      Run(Step(s, o, es[0]), o, es[1..])
  }

  /** After mounting and any sequence of events, at most one event source is open. */
  lemma AtMostOneSourceEver(url: string, o: Options, es: seq<Event>)
    ensures Valid(Mount(Init(url), o))
    ensures |Run(Mount(Init(url), o), o, es).live| <= 1
  {
    ConnectValid(Init(url).(status := Connecting), Closure(url, 0), MaxAttempts(o));
    AtMostOneSource(Run(Mount(Init(url), o), o, es));
  }

  /** Every closure in the state, the source's and the timers', captured the count `c`. */
  predicate AllCaptured(s: State, c: nat)
  {
    && (s.source.Some? ==> s.source.value.closure.retryCount == c)
    && (forall t :: t in s.pending ==> s.pending[t].closure.retryCount == c)
  }

  /** Events that create no new closure: every timer-driven reconnect reuses the closure of
      the `connect` that scheduled it. */
  predicate SameClosures(e: Event)
  {
    !e.UrlChange? && !e.ReconnectCall?
  }

  /** Such events keep the captured count, and every timer they schedule has the delay of
      that count, whatever the counter has grown to. */
  lemma StepKeepsCapturedCount(s: State, o: Options, e: Event, c: nat)
    requires Valid(s) && AllCaptured(s, c) && SameClosures(e)
    ensures AllCaptured(Step(s, o, e), c)
    ensures forall t :: t in Step(s, o, e).pending ==> Step(s, o, e).pending[t].closure.retryCount == c
    ensures e.ErrorEvent? && s.source.Some? && AutoReconnect(o) ==> Step(s, o, e).pending[s.nextTimer].delay == BackoffDelay(c)
  {
  }

  /** So from the mount, as long as the URL stays and `reconnect` is not called, every
      reconnect timer ever scheduled waits `BackoffDelay(0)`, one second: the delay never
      backs off (useSseUsers.tsx:80 reads the mount render's `retryCount`). */
  lemma {:induction false} DelayNeverBacksOff(s: State, o: Options, es: seq<Event>)
    requires Valid(s) && AllCaptured(s, 0)
    requires forall i :: 0 <= i < |es| ==> SameClosures(es[i])
    requires forall t :: t in s.pending ==> s.pending[t].delay == 1000
    ensures AllCaptured(Run(s, o, es), 0)
    ensures forall t :: t in Run(s, o, es).pending ==> Run(s, o, es).pending[t].delay == 1000
    decreases |es|
  {
    if |es| > 0 {
      var n := Step(s, o, es[0]);
      StepValid(s, o, es[0]);
      StepKeepsCapturedCount(s, o, es[0], 0);
      StepKeepsDelays(s, o, es[0]);
      assert forall i :: 0 <= i < |es[1..]| ==> SameClosures(es[1..][i]) by {
        forall i | 0 <= i < |es[1..]| ensures SameClosures(es[1..][i]) {
          assert es[1..][i] == es[i + 1];
        }
      }
      DelayNeverBacksOff(n, o, es[1..]);
      assert Run(s, o, es) == Run(n, o, es[1..]);
    }
  }

  /** One step from a state whose closures captured 0 adds only one-second timers. */
  lemma StepKeepsDelays(s: State, o: Options, e: Event)
    requires Valid(s) && AllCaptured(s, 0) && SameClosures(e)
    requires forall t :: t in s.pending ==> s.pending[t].delay == 1000
    ensures forall t :: t in Step(s, o, e).pending ==> Step(s, o, e).pending[t].delay == 1000
  {
    assert BackoffDelay(0) == 1000;
  }

  /** The mount state's closures captured 0. */
  lemma MountCapturesZero(url: string, o: Options)
    ensures Valid(Mount(Init(url), o)) && AllCaptured(Mount(Init(url), o), 0)
    ensures Mount(Init(url), o).pending == map[]
  {
    ConnectValid(Init(url).(status := Connecting), Closure(url, 0), MaxAttempts(o));
  }

  /** Two errors in a row with the default options: after the first timer has reconnected,
      the counter is at 2 but the second timer again waits one second, not two. */
  lemma TwoErrorsSameDelay(url: string)
    ensures var o := Options(false, false, false, None, None);
      var s1 := Errored(Mount(Init(url), o), o);
      var s2 := Errored(TimerFired(Commit(s1), o, 0), o);
      Valid(s1) && s2.retryCount == 2 && 1 in s2.pending && s2.pending[1].delay == 1000 && BackoffDelay(1) == 2000
  {
    var o := Options(false, false, false, None, None);
    MountCapturesZero(url, o);
    var s0 := Mount(Init(url), o);
    assert s0.source == Some(Source(0, Closure(url, 0)));
    var s1 := Errored(s0, o);
    assert s1.pending == map[0 := Timer(1000, Closure(url, 0))];
    var s2 := TimerFired(Commit(s1), o, 0);
    ConnectValid(Commit(s1).(pending := map[]), Closure(url, 0), 5);
    assert s2.source == Some(Source(1, Closure(url, 0)));
  }

  /** Teardown cancels every reconnect when, as after one error, only the tracked timer is
      pending: no later timer event reopens a source. */
  lemma TeardownStopsTrackedRetry(s: State, o: Options, id: nat)
    requires forall t :: t in s.pending ==> Some(t) == s.retryTimeout
    ensures Teardown(s).pending == map[]
    ensures TimerFired(Teardown(s), o, id) == Teardown(s)
  {
  }

  /** Two errors on one source (the event source reports an error on each of its own failed
      reconnects) schedule two timers; teardown clears only the second, and the first one,
      still pending, opens a source after the teardown. */
  lemma LeakedTimerReopensAfterTeardown(url: string)
    ensures var o := Options(false, false, false, None, None);
      var s := Errored(Errored(Mount(Init(url), o), o), o);
      var down := Teardown(Commit(s));
      Valid(s) && 0 in down.pending && down.source == None && TimerFired(down, o, 0).source.Some?
  {
    var o := Options(false, false, false, None, None);
    MountCapturesZero(url, o);
    var s0 := Mount(Init(url), o);
    var s1 := Errored(s0, o);
    var s := Errored(s1, o);
    assert s.pending == map[0 := Timer(1000, Closure(url, 0)), 1 := Timer(1000, Closure(url, 0))];
    var down := Teardown(Commit(s));
    assert down.pending == map[0 := Timer(1000, Closure(url, 0))];
    assert down.retryCountRef == 2;
  }

  /** Once the committed counter reaches the maximum, a firing timer opens nothing: the
      client stays without a source. */
  lemma ExhaustedRetriesOpenNothing(s: State, o: Options, id: nat)
    requires s.retryCount >= MaxAttempts(o)
    ensures id in s.pending ==> TimerFired(Commit(s), o, id).source == None
  {
  }

  /** Once the retry budget is spent, both in the counter and in its ref, and no source is
      open, no sequence of events opens one again: the stream stays closed. A URL change
      does not help, since it does not reset the counter. */
  lemma {:induction false} ExhaustedStaysClosed(s: State, o: Options, es: seq<Event>)
    requires Valid(s) && s.source.None?
    requires s.retryCountRef >= MaxAttempts(o) && s.retryCount >= MaxAttempts(o)
    ensures Run(s, o, es).source.None?
    ensures Run(s, o, es).retryCountRef >= MaxAttempts(o) && Run(s, o, es).retryCount >= MaxAttempts(o)
    decreases |es|
  {
    if |es| > 0 {
      StepValid(s, o, es[0]);
      ExhaustedStaysClosed(Step(s, o, es[0]), o, es[1..]);
    }
  }

  /** The counter is not bounded by the maximum: with at most one attempt, two errors on
      the mount's source leave the counter at 2, since `onerror` never reads the maximum. */
  lemma CounterPassesMax(url: string)
    ensures var o := Options(false, false, false, None, Some(1));
      Errored(Errored(Mount(Init(url), o), o), o).retryCount == 2 > MaxAttempts(o)
  {
    var o := Options(false, false, false, None, Some(1));
    ConnectValid(Init(url).(status := Connecting), Closure(url, 0), 1);
  }

  /** The hook as an object. Its fields are the hook's state and refs; each method is one
      event. */
  class SseClient {
    const options: Options
    var status: Status
    var lastMessage: Option<Message>
    var retryCount: nat
    var retryCountRef: nat
    var url: string
    var source: Option<Source>
    var live: set<nat>
    var nextSource: nat
    var retryTimeout: Option<nat>
    var pending: map<nat, Timer>
    var nextTimer: nat
    var calls: seq<Call>

    function Current(): State
      reads this
    {
      State(status, lastMessage, retryCount, retryCountRef, url, source, live, nextSource, retryTimeout, pending, nextTimer, calls)
    }

    predicate WellFormed()
      reads this
    {
      Valid(Current())
    }

    /** The first render, then the mount effect. */
    constructor (url: string, options: Options)
      ensures this.options == options
      ensures Current() == Mount(Init(url), options) && WellFormed()
    {
      this.options := options;
      status, lastMessage, retryCount, retryCountRef := Connecting, None, 0, 0;
      this.url := url;
      source, live, nextSource := None, {}, 0;
      retryTimeout, pending, nextTimer, calls := None, map[], 0, [];
      new;
      status := Connecting;
      ConnectTo(Closure(url, retryCount));
      MountCapturesZero(url, options);
    }

    /** `connect` of closure `c`. */
    method ConnectTo(c: Closure)
      requires WellFormed()
      modifies this
      ensures Current() == Connect(old(Current()), c, MaxAttempts(options))
      ensures WellFormed()
    {
      if retryTimeout.Some? {
        pending := pending - {retryTimeout.value};
      }
      if source.Some? {
        live := live - {source.value.id};
        source := None;
      }
      if retryCountRef < MaxAttempts(options) {
        source := Some(Source(nextSource, c));
        live := live + {nextSource};
        nextSource := nextSource + 1;
      }
    }

    method Open()
      requires WellFormed()
      modifies this
      ensures Current() == Opened(old(Current()), options)
      ensures WellFormed()
    {
      if source.Some? {
        status := Connected;
        retryCount := 0;
        if options.hasOnConnect {
          calls := calls + [OnConnect];
        }
      }
    }

    method ReceiveConnected(m: Message)
      requires WellFormed()
      modifies this
      ensures Current() == ConnectedEvent(old(Current()), m)
      ensures WellFormed()
    {
      if source.Some? {
        lastMessage := Some(m);
      }
    }

    method ReceiveUpdate(m: Message)
      requires WellFormed()
      modifies this
      ensures Current() == UpdateEvent(old(Current()), options, m)
      ensures WellFormed()
    {
      if source.Some? {
        lastMessage := Some(m);
        if options.hasOnUpdate {
          calls := calls + [OnUpdate(m)];
        }
      }
    }

    /** `heartbeat` changes nothing. */
    method ReceiveHeartbeat()
      requires WellFormed()
      ensures Current() == old(Current())
      ensures WellFormed()
    {
    }

    method Fail()
      requires WellFormed()
      modifies this
      ensures Current() == Errored(old(Current()), options)
      ensures WellFormed()
    {
      if source.Some? {
        status := Disconnected;
        if options.hasOnError {
          calls := calls + [OnError];
        }
        if AutoReconnect(options) {
          ScheduleRetry(source.value.closure);
        }
      }
    }

    /** The reconnect branch of `onerror` (useSseUsers.tsx:80-86): count one more retry and
        schedule a timer with the capped delay of the count the closure captured. */
    method ScheduleRetry(c: Closure)
      requires WellFormed()
      modifies this
      ensures Current() == old(Current()).(retryCount := old(retryCount) + 1,
        pending := old(pending)[old(nextTimer) := Timer(BackoffDelay(c.retryCount), c)],
        retryTimeout := Some(old(nextTimer)), nextTimer := old(nextTimer) + 1)
      ensures WellFormed()
    {
      var delay := BackoffDelay(c.retryCount);
      retryCount := retryCount + 1;
      pending := pending[nextTimer := Timer(delay, c)];
      retryTimeout := Some(nextTimer);
      nextTimer := nextTimer + 1;
    }

    method FireTimer(id: nat)
      requires WellFormed()
      modifies this
      ensures Current() == TimerFired(old(Current()), options, id)
      ensures WellFormed()
    {
      if id in pending {
        var c := pending[id].closure;
        pending := pending - {id};
        ConnectTo(c);
      }
    }

    method CommitRender()
      requires WellFormed()
      modifies this
      ensures Current() == Commit(old(Current()))
      ensures WellFormed()
    {
      retryCountRef := retryCount;
    }

    method TearDown()
      requires WellFormed()
      modifies this
      ensures Current() == Teardown(old(Current()))
      ensures WellFormed()
    {
      if retryTimeout.Some? {
        pending := pending - {retryTimeout.value};
      }
      if source.Some? {
        live := live - {source.value.id};
        source := None;
      }
      status := Disconnected;
    }

    method ChangeUrl(newUrl: string)
      requires WellFormed()
      modifies this
      ensures Current() == UrlChanged(old(Current()), options, newUrl)
      ensures WellFormed()
    {
      TearDown();
      url := newUrl;
      retryCountRef := retryCount;
      status := Connecting;
      ConnectTo(Closure(newUrl, retryCount));
    }

    method CallReconnect()
      requires WellFormed()
      modifies this
      ensures Current() == Reconnect(old(Current()), options)
      ensures WellFormed()
    {
      ConnectTo(Closure(url, retryCount));
    }
  }
}
