/**
 The proxy server: `Serve` starts a listener for every configuration, `Close` closes those it
 finds. Listeners are seen from outside only: when they start to listen, and when a call of
 their `Close` returns.
 */
module Server {
  import opened Wrappers
  import opened Runs

  datatype ServePc =
    | CheckFlag          // about to read stopFlag
    | WantLock
    | Start              // in the loop over the configurations, holding lmu
    | Unlock
    | Select
    | Returned(ok: bool) // ok: Serve returned nil

  /** The goroutine that waits for all listeners and then closes `waitChan`. */
  datatype NotifyPc = NotStarted | Waiting | Closing | Finished

  datatype ClosePc = Want | Swap | Spawn | WaitAll | CloseStop | Release | Done

  datatype Owner = ByServe | ByCloser(c: nat)

  datatype Listener = Listener(listening: bool, seen: bool, closeCalled: bool, closeReturned: bool)

  datatype State = State(
    serve: ServePc,
    notify: NotifyPc,
    lmu: Option<Owner>,
    stopFlag: bool,
    stopped: bool,             // stopChan is closed
    ready: bool,               // waitChan is closed
    listeners: seq<Listener>,  // those started so far
    lwg: int,
    closers: seq<ClosePc>,
    winner: Option<nat>,       // the closer that set stopFlag
    overtaken: bool,           // Close took lmu before Serve did, but after Serve's check
    panicked: bool)

  const INIT := State(CheckFlag, NotStarted, None, false, false, false, [], 0, [], None, false, false)

  const NEW := Listener(false, false, false, false)

  datatype Action =
    | ServeStep(failed: bool)   // failed: in the select, a listener's error is received
    | NotifyStep
    | ListenerUp(i: nat)
    | SeenUp(i: nat)            // the goroutine waiting for one listener is done
    | ListenerClosed(i: nat)    // a Close call on the listener returns
    | CallClose
    | CloseStep(c: nat)

  predicate AllReturned(ls: seq<Listener>) {
    forall i :: 0 <= i < |ls| ==> ls[i].closeReturned
  }

  /** `n` is the number of configurations. */
  predicate Enabled(n: nat, s: State, a: Action) {
    match a
    case ServeStep(failed) =>
      && !s.serve.Returned?
      && (s.serve.WantLock? ==> s.lmu.None?)
      && (s.serve.Select? ==> failed || s.stopped)
    case NotifyStep => s.notify.Closing? || (s.notify.Waiting? && s.lwg == 0)
    case ListenerUp(i) => i < |s.listeners|
    case SeenUp(i) => i < |s.listeners| && s.listeners[i].listening && !s.listeners[i].seen
    case ListenerClosed(i) => i < |s.listeners| && s.listeners[i].closeCalled
    case CallClose => true
    case CloseStep(c) =>
      && c < |s.closers| && !s.closers[c].Done?
      && (s.closers[c].Want? ==> s.lmu.None?)
      && (s.closers[c].WaitAll? ==> AllReturned(s.listeners))
  }

  function Do(n: nat, s: State, a: Action): State
    requires Enabled(n, s, a)
  {
    match a
    case ServeStep(failed) => DoServe(n, s, failed)
    case NotifyStep =>
      s.(notify := if s.notify.Waiting? then Closing else Finished,
         ready := s.ready || s.notify.Closing?,
         panicked := s.panicked || (s.notify.Closing? && s.ready))
    case ListenerUp(i) => s.(listeners := s.listeners[i := s.listeners[i].(listening := true)])
    case SeenUp(i) =>
      s.(listeners := s.listeners[i := s.listeners[i].(seen := true)], lwg := s.lwg - 1,
         panicked := s.panicked || s.lwg <= 0)
    case ListenerClosed(i) => s.(listeners := s.listeners[i := s.listeners[i].(closeReturned := true)])
    case CallClose => s.(closers := s.closers + [Want])
    case CloseStep(c) => DoClose(s, c)
  }

  function NextServe(n: nat, s: State, failed: bool): ServePc {
    match s.serve
    case CheckFlag => if s.stopFlag then Returned(false) else WantLock
    case WantLock => Start
    case Start => if |s.listeners| < n then Start else Unlock
    case Unlock => Select
    case Select => Returned(!failed)
    case Returned(ok) => Returned(ok)
  }

  /** One pass of the loop starts a listener and adds to the wait group. */
  function DoServe(n: nat, s: State, failed: bool): State
    requires Enabled(n, s, ServeStep(failed))
  {
    var starts := s.serve.Start? && |s.listeners| < n;
    s.(serve := NextServe(n, s, failed),
       notify := if s.serve.Unlock? then Waiting else s.notify,
       lmu := if s.serve.WantLock? then Some(ByServe) else if s.serve.Unlock? then None else s.lmu,
       listeners := if starts then s.listeners + [NEW] else s.listeners,
       lwg := if starts then s.lwg + 1 else s.lwg,
       overtaken := s.overtaken || (s.serve.WantLock? && s.winner.Some?))
  }

  function NextPc(pc: ClosePc, flag: bool): ClosePc {
    match pc
    case Want => Swap
    case Swap => if flag then Release else Spawn
    case Spawn => WaitAll
    case WaitAll => CloseStop
    case CloseStop => Release
    case Release => Done
    case Done => Done
  }

  predicate Critical(pc: ClosePc) {
    !pc.Want? && !pc.Done?
  }

  function AllCalled(ls: seq<Listener>): (r: seq<Listener>)
    ensures |r| == |ls|
    ensures forall i :: 0 <= i < |ls| ==> r[i] == ls[i].(closeCalled := true)
  {
    seq(|ls|, i requires 0 <= i < |ls| => ls[i].(closeCalled := true))
  }

  function DoClose(s: State, c: nat): State
    requires c < |s.closers|
  {
    var pc := s.closers[c];
    var next := NextPc(pc, s.stopFlag);
    s.(closers := s.closers[c := next],
       lmu := if pc.Want? then Some(ByCloser(c)) else if pc.Release? then None else s.lmu,
       stopFlag := s.stopFlag || pc.Swap?,
       winner := if pc.Swap? && !s.stopFlag then Some(c) else s.winner,
       listeners := if pc.Spawn? then AllCalled(s.listeners) else s.listeners,
       stopped := s.stopped || pc.CloseStop?,
       panicked := s.panicked || (pc.CloseStop? && s.stopped))
  }

  ghost predicate Next(n: nat, s: State, t: State) {
    exists a :: Enabled(n, s, a) && t == Do(n, s, a)
  }

  ghost predicate Run(n: nat, ss: seq<State>) {
    |ss| > 0 && ss[0] == INIT && forall i :: 0 <= i < |ss| - 1 ==> Next(n, ss[i], ss[i + 1])
  }

  /******* The invariant *******/

  /** Listeners whose waiting goroutine is not done. */
  function Unseen(ls: seq<Listener>): nat {
    if ls == [] then 0 else Unseen(ls[..|ls| - 1]) + (if ls[|ls| - 1].seen then 0 else 1)
  }

  lemma {:induction false} UnseenUpdate(ls: seq<Listener>, i: nat, x: Listener)
    requires i < |ls|
    ensures Unseen(ls[i := x]) + (if ls[i].seen then 0 else 1) == Unseen(ls) + (if x.seen then 0 else 1)
  {
    var m := |ls| - 1;
    if i < m {
      UnseenUpdate(ls[..m], i, x);
      assert ls[i := x][..m] == ls[..m][i := x];
    } else {
      assert ls[i := x][..m] == ls[..m];
    }
  }

  lemma {:induction false} UnseenZero(ls: seq<Listener>)
    ensures Unseen(ls) == 0 <==> forall i :: 0 <= i < |ls| ==> ls[i].seen
  {
    if ls != [] {
      var m := |ls| - 1;
      UnseenZero(ls[..m]);
      assert forall i :: 0 <= i < m ==> ls[..m][i] == ls[i];
    }
  }

  function WinnerPc(s: State): ClosePc {
    if s.winner.Some? && s.winner.value < |s.closers| then s.closers[s.winner.value] else Want
  }

  predicate Leaving(pc: ClosePc) {
    pc.Release? || pc.Done?
  }

  predicate HoldsAsServe(pc: ServePc) {
    pc.Start? || pc.Unlock?
  }

  predicate LockInv(s: State) {
    && (HoldsAsServe(s.serve) <==> s.lmu == Some(ByServe))
    && (forall c :: 0 <= c < |s.closers| ==> (Critical(s.closers[c]) <==> s.lmu == Some(ByCloser(c))))
    && (s.lmu.Some? && s.lmu.value.ByCloser? ==> s.lmu.value.c < |s.closers|)
  }

  predicate WinnerInv(s: State) {
    && (s.stopFlag <==> s.winner.Some?)
    && (s.winner.Some? ==> s.winner.value < |s.closers| && !WinnerPc(s).Want? && !WinnerPc(s).Swap?)
    && (forall c :: 0 <= c < |s.closers| && s.winner != Some(c) ==>
          && (s.closers[c].Want? || s.closers[c].Swap? || Leaving(s.closers[c]))
          && (Leaving(s.closers[c]) ==> WinnerPc(s).Done?))
    && (s.stopped <==> Leaving(WinnerPc(s)))
  }

  predicate PastSpawn(pc: ClosePc) {
    pc.WaitAll? || pc.CloseStop? || Leaving(pc)
  }

  /** Either Close came first and saw no listener, or it came after the loop and saw them all. */
  predicate ListenersInv(n: nat, s: State) {
    && |s.listeners| <= n
    && (s.serve.CheckFlag? || s.serve.WantLock? ==> s.listeners == [] && !s.overtaken)
    && (s.serve.Unlock? || s.serve.Select? || s.serve == Returned(true) ==> |s.listeners| == n)
    && (s.serve == Returned(true) ==> s.stopped)
    && (s.overtaken ==> WinnerPc(s).Done?)
    && (HoldsAsServe(s.serve) && !s.overtaken ==> s.winner.None?)
    && (s.overtaken || s.winner.None? ==> forall i :: 0 <= i < |s.listeners| ==> !s.listeners[i].closeCalled)
    && (!s.overtaken && PastSpawn(WinnerPc(s)) ==> forall i :: 0 <= i < |s.listeners| ==> s.listeners[i].closeCalled)
    && (!s.overtaken && (WinnerPc(s).CloseStop? || Leaving(WinnerPc(s))) ==> AllReturned(s.listeners))
    && (forall i :: 0 <= i < |s.listeners| && s.listeners[i].closeReturned ==> s.listeners[i].closeCalled)
  }

  predicate ReadyInv(n: nat, s: State) {
    && s.lwg == Unseen(s.listeners)
    && (forall i :: 0 <= i < |s.listeners| && s.listeners[i].seen ==> s.listeners[i].listening)
    && (!s.notify.NotStarted? ==> |s.listeners| == n && (s.serve.Select? || s.serve.Returned?))
    && (s.notify.Closing? || s.notify.Finished? ==> s.lwg == 0)
    && (s.ready <==> s.notify.Finished?)
  }

  predicate Inv(n: nat, s: State) {
    LockInv(s) && WinnerInv(s) && ListenersInv(n, s) && ReadyInv(n, s) && !s.panicked
  }

  lemma LockKept(n: nat, s: State, a: Action)
    requires LockInv(s) && Enabled(n, s, a)
    ensures LockInv(Do(n, s, a))
  {
    match a
    case ServeStep(_) =>
    case CloseStep(_) =>
    case _ =>
  }

  lemma WinnerKept(n: nat, s: State, a: Action)
    requires LockInv(s) && WinnerInv(s) && Enabled(n, s, a)
    ensures WinnerInv(Do(n, s, a))
  {
    match a
    case ServeStep(_) =>
    case CloseStep(_) =>
    case _ =>
  }

  lemma ListenersServe(n: nat, s: State, failed: bool)
    requires LockInv(s) && WinnerInv(s) && ListenersInv(n, s) && Enabled(n, s, ServeStep(failed))
    ensures ListenersInv(n, DoServe(n, s, failed))
  {
    var t := DoServe(n, s, failed);
    assert WinnerPc(t) == WinnerPc(s);
  }

  lemma ListenersClose(n: nat, s: State, c: nat)
    requires LockInv(s) && WinnerInv(s) && ListenersInv(n, s) && Enabled(n, s, CloseStep(c))
    ensures ListenersInv(n, DoClose(s, c))
  {
  }

  lemma ListenersRest(n: nat, s: State, a: Action)
    requires WinnerInv(s) && ListenersInv(n, s) && Enabled(n, s, a) && !a.ServeStep? && !a.CloseStep?
    ensures ListenersInv(n, Do(n, s, a))
  {
    assert WinnerPc(Do(n, s, a)) == WinnerPc(s);
  }

  lemma ReadyServe(n: nat, s: State, failed: bool)
    requires ListenersInv(n, s) && ReadyInv(n, s) && Enabled(n, s, ServeStep(failed))
    ensures ReadyInv(n, DoServe(n, s, failed))
  {
    assert (s.listeners + [NEW])[..|s.listeners|] == s.listeners;
  }

  lemma {:induction false} UnseenCalled(ls: seq<Listener>)
    ensures Unseen(AllCalled(ls)) == Unseen(ls)
  {
    if ls != [] {
      var m := |ls| - 1;
      UnseenCalled(ls[..m]);
      assert AllCalled(ls)[..m] == AllCalled(ls[..m]);
    }
  }

  lemma ReadyOne(n: nat, s: State, a: Action)
    requires ReadyInv(n, s) && Enabled(n, s, a)
    requires a.ListenerUp? || a.SeenUp? || a.ListenerClosed?
    ensures ReadyInv(n, Do(n, s, a))
  {
    UnseenZero(s.listeners);
    UnseenUpdate(s.listeners, a.i, Do(n, s, a).listeners[a.i]);
  }

  lemma ReadyRest(n: nat, s: State, a: Action)
    requires ReadyInv(n, s) && Enabled(n, s, a)
    requires a.NotifyStep? || a.CallClose? || a.CloseStep?
    ensures ReadyInv(n, Do(n, s, a))
  {
    UnseenCalled(s.listeners);
  }

  lemma NoPanic(n: nat, s: State, a: Action)
    requires Inv(n, s) && Enabled(n, s, a)
    ensures !Do(n, s, a).panicked
  {
    UnseenZero(s.listeners);
  }

  lemma InvKept(n: nat, s: State, a: Action)
    requires Inv(n, s) && Enabled(n, s, a)
    ensures Inv(n, Do(n, s, a))
  {
    NoPanic(n, s, a);
    LockKept(n, s, a);
    WinnerKept(n, s, a);
    hide LockInv, WinnerInv, ListenersInv, ReadyInv, DoServe, DoClose, Enabled;
    match a
    case ServeStep(failed) => ListenersServe(n, s, failed); ReadyServe(n, s, failed);
    case CloseStep(c) => ListenersClose(n, s, c); ReadyRest(n, s, a);
    case NotifyStep => ListenersRest(n, s, a); ReadyRest(n, s, a);
    case CallClose => ListenersRest(n, s, a); ReadyRest(n, s, a);
    case _ => ListenersRest(n, s, a); ReadyOne(n, s, a);
  }

  lemma {:induction false} RunInv(n: nat, ss: seq<State>, i: nat)
    requires Run(n, ss) && i < |ss|
    ensures Inv(n, ss[i])
  {
    if i > 0 {
      hide Inv;
      RunInv(n, ss, i - 1);
      assert Next(n, ss[i - 1], ss[i]);
      var a :| Enabled(n, ss[i - 1], a) && ss[i] == Do(n, ss[i - 1], a);
      InvKept(n, ss[i - 1], a);
    }
  }

  /******* Readiness and shutdown *******/

  /** `waitChan` is closed, once, only after every configured listener listens. */
  lemma ReadyMeansListening(n: nat, ss: seq<State>, i: nat)
    requires Run(n, ss) && i < |ss|
    ensures !ss[i].panicked
    ensures ss[i].ready ==> |ss[i].listeners| == n && forall k :: 0 <= k < n ==> ss[i].listeners[k].listening
  {
    RunInv(n, ss, i);
    UnseenZero(ss[i].listeners);
  }

  /**
   When `Serve` returns nil, every listener's `Close` has returned, except when `Close` took
   `lmu` first: then the server calls no listener's `Close`, now or later.
   */
  lemma ServeReturnsNil(n: nat, ss: seq<State>, i: nat)
    requires Run(n, ss) && i < |ss| && ss[i].serve == Returned(true)
    ensures |ss[i].listeners| == n && ss[i].stopped
    ensures AllReturned(ss[i].listeners) <==> !ss[i].overtaken || n == 0
    ensures ss[i].overtaken ==> forall k :: 0 <= k < n ==> !ss[i].listeners[k].closeCalled
  {
    RunInv(n, ss, i);
  }

  lemma {:induction false} OvertakenForever(n: nat, ss: seq<State>, i: nat, j: nat)
    requires Run(n, ss) && i <= j < |ss| && ss[i].overtaken
    ensures ss[j].overtaken && forall k :: 0 <= k < |ss[j].listeners| ==> !ss[j].listeners[k].closeCalled
  {
    RunInv(n, ss, j);
    if i < j {
      hide Inv, Next;
      OvertakenForever(n, ss, i, j - 1);
      assert Next(n, ss[j - 1], ss[j]);
      OvertakenKept(n, ss[j - 1], ss[j]);
    }
  }

  lemma OvertakenKept(n: nat, s: State, t: State)
    requires Next(n, s, t) && s.overtaken
    ensures t.overtaken
  {
  }

  /**
   Every `Close` that has returned has done so after the one that closes the listeners, and after
   `stopChan` was closed.
   */
  lemma CloseReturnsLast(n: nat, ss: seq<State>, i: nat, c: nat)
    requires Run(n, ss) && i < |ss| && c < |ss[i].closers| && ss[i].closers[c] == Done
    ensures ss[i].winner.Some? && WinnerPc(ss[i]) == Done && ss[i].stopped
    ensures !ss[i].overtaken ==> AllReturned(ss[i].listeners)
  {
    RunInv(n, ss, i);
  }

  lemma Extend(n: nat, ss: seq<State>, a: Action) returns (tt: seq<State>)
    requires Run(n, ss) && Enabled(n, Last(ss), a)
    ensures Run(n, tt) && Last(tt) == Do(n, Last(ss), a)
  {
    tt := ss + [Do(n, Last(ss), a)];
    forall i | 0 <= i < |tt| - 1 ensures Next(n, tt[i], tt[i + 1]) {
      if i < |ss| - 1 {
        assert Next(n, ss[i], ss[i + 1]);
      }
    }
  }

  /** `Serve` can return nil with a listener that nobody closes. */
  lemma OvertakenHappens() returns (ss: seq<State>)
    ensures Run(1, ss) && Last(ss).serve == Returned(true) && Last(ss).overtaken && |Last(ss).listeners| == 1
  {
    ss := [INIT];
    ss := Extend(1, ss, ServeStep(false));
    ss := Extend(1, ss, CallClose);
    ss := CloseFully(ss);
    ss := Extend(1, ss, ServeStep(false));
    ss := Extend(1, ss, ServeStep(false));
    ss := Extend(1, ss, ServeStep(false));
    ss := Extend(1, ss, ServeStep(false));
    ss := Extend(1, ss, ServeStep(false));
  }

  lemma CloseFully(ss: seq<State>) returns (tt: seq<State>)
    requires Run(1, ss)
    requires
      var s := Last(ss);
      s.closers == [Want] && s.lmu.None? && !s.stopFlag && s.listeners == []
    ensures Run(1, tt)
    ensures
      var s, t := Last(ss), Last(tt);
      t.closers == [Done] && t.lmu.None? && t.winner == Some(0) && t.listeners == [] && t.stopped && t.serve == s.serve
      && t.overtaken == s.overtaken
  {
    tt := Extend(1, ss, CloseStep(0));
    tt := Extend(1, tt, CloseStep(0));
    tt := Extend(1, tt, CloseStep(0));
    tt := Extend(1, tt, CloseStep(0));
    tt := Extend(1, tt, CloseStep(0));
    tt := Extend(1, tt, CloseStep(0));
  }

  /** A `Serve` that reads the flag after `Close` has set it starts no listener and does not return nil. */
  lemma {:induction false} ServeAfterClose(n: nat, ss: seq<State>, i: nat, j: nat)
    requires Run(n, ss) && i <= j < |ss| && ss[i].serve.CheckFlag? && ss[i].stopFlag
    ensures ss[j].stopFlag && ss[j].listeners == [] && (ss[j].serve.CheckFlag? || ss[j].serve == Returned(false))
  {
    hide Inv, Next;
    if i == j {
      RunInv(n, ss, i);
      NothingStarted(n, ss[i]);
    } else {
      ServeAfterClose(n, ss, i, j - 1);
      assert Next(n, ss[j - 1], ss[j]);
      NotServingKept(n, ss[j - 1], ss[j]);
    }
  }

  lemma NothingStarted(n: nat, s: State)
    requires Inv(n, s) && s.serve.CheckFlag?
    ensures s.listeners == []
  {
  }

  lemma NotServingKept(n: nat, s: State, t: State)
    requires Next(n, s, t) && s.stopFlag && s.listeners == [] && (s.serve.CheckFlag? || s.serve == Returned(false))
    ensures t.stopFlag && t.listeners == [] && (t.serve.CheckFlag? || t.serve == Returned(false))
  {
  }

  /** With one listener that comes up the server gets ready. */
  lemma ReadyHappens() returns (ss: seq<State>)
    ensures Run(1, ss)
    ensures
      var s := Last(ss);
      && s.ready && s.serve == Select && s.lmu.None? && !s.stopFlag && s.winner.None? && !s.stopped && !s.overtaken
      && s.closers == [] && |s.listeners| == 1
  {
    ss := [INIT];
    ss := Extend(1, ss, ServeStep(false));
    ss := Extend(1, ss, ServeStep(false));
    ss := Extend(1, ss, ServeStep(false));
    ss := Extend(1, ss, ServeStep(false));
    ss := Extend(1, ss, ServeStep(false));
    ss := ListenerComesUp(ss);
  }

  lemma ListenerComesUp(ss: seq<State>) returns (tt: seq<State>)
    requires Run(1, ss)
    requires
      var s := Last(ss);
      && s.serve == Select && s.lmu.None? && !s.stopFlag && s.winner.None? && !s.stopped && !s.overtaken
      && s.closers == [] && s.listeners == [NEW] && s.lwg == 1 && s.notify == Waiting
    ensures Run(1, tt)
    ensures
      var s := Last(tt);
      && s.ready && s.serve == Select && s.lmu.None? && !s.stopFlag && s.winner.None? && !s.stopped && !s.overtaken
      && s.closers == [] && |s.listeners| == 1
  {
    tt := Extend(1, ss, ListenerUp(0));
    tt := Extend(1, tt, SeenUp(0));
    tt := Extend(1, tt, NotifyStep);
    tt := Extend(1, tt, NotifyStep);
  }

  /** And an ordinary `Close` then closes the listener and lets `Serve` return nil. */
  lemma ShutdownHappens() returns (ss: seq<State>)
    ensures Run(1, ss)
    ensures
      var s := Last(ss);
      && s.ready && s.serve == Returned(true) && s.closers == [Done] && !s.overtaken
      && |s.listeners| == 1 && s.listeners[0].closeReturned
  {
    ss := ReadyHappens();
    ss := Extend(1, ss, CallClose);
    ss := Extend(1, ss, CloseStep(0));
    ss := Extend(1, ss, CloseStep(0));
    ss := Extend(1, ss, CloseStep(0));
    ss := Extend(1, ss, ListenerClosed(0));
    ss := ReleaseAndReturn(ss);
  }

  lemma ReleaseAndReturn(ss: seq<State>) returns (tt: seq<State>)
    requires Run(1, ss)
    requires
      var s := Last(ss);
      && s.ready && s.serve == Select && s.closers == [WaitAll] && !s.overtaken
      && |s.listeners| == 1 && s.listeners[0].closeReturned
    ensures Run(1, tt)
    ensures
      var s := Last(tt);
      && s.ready && s.serve == Returned(true) && s.closers == [Done] && !s.overtaken
      && |s.listeners| == 1 && s.listeners[0].closeReturned
  {
    tt := Extend(1, ss, CloseStep(0));
    tt := Extend(1, tt, CloseStep(0));
    tt := Extend(1, tt, CloseStep(0));
    tt := Extend(1, tt, ServeStep(false));
  }

  /** A listener that fails makes `Serve` return an error, with or without a `Close`. */
  lemma FailureReturnsError(n: nat, ss: seq<State>) returns (tt: seq<State>)
    requires Run(n, ss) && Last(ss).serve == Select
    ensures Run(n, tt) && Last(tt) == Last(ss).(serve := Returned(false))
  {
    tt := Extend(n, ss, ServeStep(true));
  }
}
