/** What `Close` achieves, exactly when it cannot return, and what it leaves open. */
module ListenerClosing {
  import opened Wrappers
  import opened Runs
  import opened Listener
  import opened ListenerSafety

  /******* Safety over all runs *******/

  lemma {:induction false} RunInv(ss: seq<State>, i: nat)
    requires Run(ss) && i < |ss|
    ensures Inv(ss[i])
  {
    hide Inv;
    if i == 0 {
      InitInv();
    } else {
      RunInv(ss, i - 1);
      assert Next(ss[i - 1], ss[i]);
      var a :| Enabled(ss[i - 1], a) && ss[i] == Do(ss[i - 1], a);
      InvKept(ss[i - 1], a);
    }
  }

  /**
   In every state of every run the wait group counts exactly the unfinished handlers. Nothing
   but a misuse of the wait group can have panicked, and that needs a connection left uncounted
   when `Close` shut the listener, or a listener it missed.
   */
  lemma ChannelSafety(ss: seq<State>, i: nat)
    requires Run(ss) && i < |ss|
    ensures ss[i].connWG == Live(ss[i].handlers) >= 0
    ensures ss[i].errors <= ERR_BUF_SIZE
    ensures ss[i].panicked ==>
              && (AddMeetsWake(ss[i]) || ReusedInWait(ss[i]))
              && PastShut(ss[i]) && (ss[i].missed || ss[i].handed)
  {
    RunInv(ss, i);
    if ss[i].panicked {
      RunInv(ss, i - 1);
      assert Next(ss[i - 1], ss[i]);
      PanickedBy(ss[i - 1], ss[i]);
      MisuseNeedsUncounted(ss[i]);
    }
  }

  lemma PanickedBy(s: State, t: State)
    requires Inv(s) && Next(s, t) && t.panicked
    ensures t == s.(panicked := true) && (AddMeetsWake(t) || ReusedInWait(t))
  {
    hide Inv, Panics;
    var a :| Enabled(s, a) && t == Do(s, a);
    PanicsExactly(s, a);
    if !Panics(s, a) {
      AdvanceIsCalm(s, a);
    }
  }

  lemma AdvanceIsCalm(s: State, a: Action)
    requires Enabled(s, a)
    ensures !Advance(s, a).panicked
  {
  }

  /** The states in which the next step may panic, and the step that does. */
  lemma PanicPossible(ss: seq<State>, i: nat)
    requires Run(ss) && i < |ss| && !ss[i].panicked
    ensures (exists a :: Enabled(ss[i], a) && Panics(ss[i], a)) <==> AddMeetsWake(ss[i]) || ReusedInWait(ss[i])
    ensures forall a :: Enabled(ss[i], a) ==> (Panics(ss[i], a) <==> Misuse(ss[i], a))
  {
    hide Inv, Panics;
    var s := ss[i];
    RunInv(ss, i);
    forall a | Enabled(s, a) ensures Panics(s, a) <==> Misuse(s, a) {
      PanicsExactly(s, a);
    }
    if AddMeetsWake(s) {
      assert Enabled(s, ServeStep(true)) && Misuse(s, ServeStep(true));
    }
    if ReusedInWait(s) {
      assert Enabled(s, CloseStep(s.winner.value)) && Misuse(s, CloseStep(s.winner.value));
    }
  }

  predicate BothClosed(x: Handler) {
    x.pc.Finished? && !x.srcOpen && !x.dstOpen
  }

  /** When the wait of `Close` ends, every connection counted so far is finished and closed at both ends. */
  lemma WaitEnds(s: State, c: nat)
    requires Inv(s) && Enabled(s, CloseStep(c)) && (s.closers[c] == Wait || s.closers[c] == Blocked)
    requires Do(s, CloseStep(c)).closers[c] == Release
    ensures forall h :: 0 <= h < |s.handlers| ==> BothClosed(s.handlers[h])
  {
    SumIsZero(s.handlers, LIVE);
    assert forall h :: 0 <= h < |s.handlers| ==> LIVE(s.handlers[h]) == 0;
  }

  /**
   Once some `Close` has returned, the one that does the work has, and every connection is
   closed except those counted after it shut the listener: none, or one that `Serve` held at
   that moment, unless it found no listener to shut.
   */
  lemma Conservation(ss: seq<State>, i: nat, c: nat)
    requires Run(ss) && i < |ss| && c < |ss[i].closers| && ss[i].closers[c] == Returned
    ensures
      var s := ss[i];
      && s.winner.Some? && WinnerPc(s) == Returned
      && (forall h :: 0 <= h < |s.handlers| && !s.handlers[h].late ==> BothClosed(s.handlers[h]))
      && (!s.missed ==> Lates(s.handlers) <= (if s.handed then 1 else 0) && s.socket == Closed)
  {
    RunInv(ss, i);
  }

  /******* The listener that Close misses *******/

  /** What is recorded about `Close` is not taken back. */
  lemma RecordKept(s: State, a: Action)
    requires Enabled(s, a)
    ensures s.missed ==> Do(s, a).missed
    ensures (a.CloseStep? && s.closers[a.c].Swap?) || Do(s, a).winner == s.winner
  {
    hide Advance, Panics, Ready;
    RecordKeptByAdvance(s, a);
  }

  lemma RecordKeptByAdvance(s: State, a: Action)
    requires Enabled(s, a)
    ensures s.missed ==> Advance(s, a).missed
    ensures (a.CloseStep? && s.closers[a.c].Swap?) || Advance(s, a).winner == s.winner
  {
    hide NextServe, NextPc, NextHandler, NextCopier, Handover, PastShut, Critical, HoldsAsHandler, HoldsAsCopier;
    match a
    case ServeStep(_) =>
    case CloseStep(_) =>
    case HandlerStep(_, _) =>
    case CopierStep(_, _) =>
    case _ =>
  }

  /** A listener that `Close` found unpublished is never closed. */
  lemma {:induction false} MissedForever(ss: seq<State>, i: nat, j: nat)
    requires Run(ss) && i <= j < |ss| && ss[i].missed
    ensures ss[j].missed && !ss[j].socket.Closed?
  {
    hide Inv, Do, Enabled;
    RunInv(ss, j);
    if i < j {
      MissedForever(ss, i, j - 1);
      RunInv(ss, j - 1);
      assert Next(ss[j - 1], ss[j]);
      var a :| Enabled(ss[j - 1], a) && ss[j] == Do(ss[j - 1], a);
      RecordKept(ss[j - 1], a);
    }
    MissedMeans(ss[j]);
  }

  lemma MissedMeans(s: State)
    requires Inv(s) && s.missed
    ensures !s.socket.Closed?
  {
  }

  /** After `Close` has shut the listener, the socket stays open exactly if it was opened and missed. */
  lemma SocketAfterClose(ss: seq<State>, i: nat)
    requires Run(ss) && i < |ss| && PastShut(ss[i])
    ensures ss[i].socket == Open <==> ss[i].missed && ss[i].socket != NotOpened
    ensures ss[i].socket == Closed <==> !ss[i].missed
  {
    RunInv(ss, i);
  }

  lemma Extend(ss: seq<State>, a: Action) returns (tt: seq<State>)
    requires Run(ss) && Enabled(Last(ss), a)
    ensures Run(tt) && Last(tt) == Do(Last(ss), a)
  {
    tt := ss + [Do(Last(ss), a)];
    forall i | 0 <= i < |tt| - 1 ensures Next(tt[i], tt[i + 1]) {
      if i < |ss| - 1 {
        assert Next(ss[i], ss[i + 1]);
      }
    }
  }

  /** A run goes on without panic if the step does not misuse the wait group. */
  lemma Calmly(ss: seq<State>, a: Action) returns (tt: seq<State>)
    requires Run(ss) && Enabled(Last(ss), a) && !Misuse(Last(ss), a)
    ensures Run(tt) && Last(tt) == Advance(Last(ss), a)
  {
    hide Inv, Panics;
    RunInv(ss, |ss| - 1);
    PanicsExactly(Last(ss), a);
    tt := Extend(ss, a);
  }

  /** `Close` can return between the check of `stopFlag` and the opening of the socket, which then leaks. */
  lemma LeakHappens() returns (ss: seq<State>)
    ensures Run(ss) && WinnerPc(Last(ss)) == Returned && Last(ss).socket == Open && Last(ss).missed
  {
    ss := [INIT];
    ss := Calmly(ss, ServeStep(true));
    ss := Calmly(ss, CallClose);
    ss := CloseFully(ss);
    ss := Calmly(ss, ServeStep(true));
  }

  /** A lone `Close` that meets no unfinished handler runs to its end. */
  lemma CloseFully(ss: seq<State>) returns (tt: seq<State>)
    requires Run(ss) && Last(ss).closers == [WantLock] && Last(ss).connWG == 0
    requires !Last(ss).stopFlag && Last(ss).stopLock.None? && !Last(ss).panicked
    ensures Run(tt)
    ensures
      var s, t := Last(ss), Last(tt);
      && t.closers == [Returned] && t.winner == Some(0) && t.stopFlag && t.stopped && !t.panicked
      && t.serve == s.serve && t.handlers == s.handlers && t.connWG == s.connWG
      && t.waiters == s.waiters && t.waking == s.waking && t.published == s.published
      && t.missed == (s.missed || !s.published)
      && t.socket == if s.published then Closed else s.socket
  {
    tt := ReachWait(ss);
    tt := Calmly(tt, CloseStep(0));
    tt := Calmly(tt, CloseStep(0));
  }

  lemma ReachWait(ss: seq<State>) returns (tt: seq<State>)
    requires Run(ss) && Last(ss).closers == [WantLock]
    requires !Last(ss).stopFlag && Last(ss).stopLock.None? && !Last(ss).panicked
    ensures Run(tt)
    ensures
      var s, t := Last(ss), Last(tt);
      && t.closers == [Wait] && t.winner == Some(0) && t.stopFlag && t.stopped && !t.panicked
      && t.serve == s.serve && t.handlers == s.handlers && t.connWG == s.connWG
      && t.waiters == s.waiters && t.waking == s.waking && t.published == s.published
      && t.missed == (s.missed || !s.published)
      && t.socket == if s.published then Closed else s.socket
  {
    tt := Calmly(ss, CloseStep(0));
    tt := Calmly(tt, CloseStep(0));
    tt := Calmly(tt, CloseStep(0));
    tt := Calmly(tt, CloseStep(0));
    tt := Calmly(tt, CloseStep(0));
  }

  /** A listener that has accepted one connection and not counted it yet. */
  lemma AcceptOne() returns (ss: seq<State>)
    ensures Run(ss)
    ensures
      var s := Last(ss);
      && s.serve == Accepted && s.socket == Open && s.published && !s.missed && s.handlers == [] && s.connWG == 0
      && s.closers == [] && !s.stopFlag && s.stopLock.None? && s.waiters == 0 && !s.waking && !s.panicked
  {
    ss := [INIT];
    ss := Calmly(ss, ServeStep(true));
    ss := Calmly(ss, ServeStep(true));
    ss := Calmly(ss, ServeStep(true));
    ss := Calmly(ss, ServeStep(true));
    ss := Calmly(ss, ServeStep(true));
  }

  /** The one late connection is possible: it is counted, and open, after `Close` has returned. */
  lemma LateHappens() returns (ss: seq<State>)
    ensures Run(ss) && WinnerPc(Last(ss)) == Returned && !Last(ss).missed
    ensures Last(ss).connWG == 1 && |Last(ss).handlers| == 1 && Last(ss).handlers[0].srcOpen
  {
    ss := AcceptOne();
    ss := Calmly(ss, CallClose);
    ss := CloseFully(ss);
    ss := Calmly(ss, ServeStep(true));
  }

  /******* Panics that happen *******/

  /** A closer is asleep, one handler is counted, and `Serve` holds another connection. */
  lemma AsleepWithOne() returns (ss: seq<State>)
    ensures Run(ss)
    ensures
      var s := Last(ss);
      && s.serve == Accepted && s.closers == [Blocked] && s.winner == Some(0) && !s.missed
      && s.waiters == 1 && s.connWG == 1 && s.handlers == [NewHandler(false)] && s.stopped && !s.waking && !s.panicked
  {
    ss := AcceptOne();
    ss := Calmly(ss, ServeStep(true));
    ss := Calmly(ss, ServeStep(true));
    ss := Calmly(ss, CallClose);
    ss := ReachWait(ss);
    ss := Calmly(ss, CloseStep(0));
  }

  /** The handler has dialled, been told to stop and closed its connection. */
  lemma AsleepWithOneClosed() returns (ss: seq<State>)
    ensures Run(ss)
    ensures
      var s := Last(ss);
      && s.serve == Accepted && s.closers == [Blocked] && s.winner == Some(0) && !s.missed
      && s.waiters == 1 && s.connWG == 1 && !s.waking && !s.panicked
      && |s.handlers| == 1 && s.handlers[0].pc == CloseSrc
  {
    ss := AsleepWithOne();
    ss := Calmly(ss, HandlerStep(0, true));
    ss := Calmly(ss, HandlerStep(0, true));
    ss := Calmly(ss, HandlerStep(0, true));
  }

  /** It has signalled too. */
  lemma AboutToWake() returns (ss: seq<State>)
    ensures Run(ss)
    ensures
      var s := Last(ss);
      && s.serve == Accepted && s.closers == [Blocked] && s.winner == Some(0) && !s.missed
      && s.waking && s.waiters == 1 && s.connWG == 0 && !s.panicked
  {
    ss := AsleepWithOneClosed();
    ss := Calmly(ss, HandlerStep(0, true));
    ss := Calmly(ss, HandlerStep(0, true));
  }

  /** Counting the connection now panics in `Serve`. */
  lemma AddPanics() returns (ss: seq<State>)
    ensures Run(ss) && Last(ss).panicked && AddMeetsWake(Last(ss)) && !Last(ss).missed
  {
    ss := AboutToWake();
    ss := Extend(ss, ServeStep(true));
  }

  /** Counting it a little later lets `Close` panic when it wakes up. */
  lemma WaitPanics() returns (ss: seq<State>)
    ensures Run(ss) && Last(ss).panicked && ReusedInWait(Last(ss)) && !Last(ss).missed
  {
    ss := AboutToWake();
    ss := Calmly(ss, Wake);
    ss := Calmly(ss, ServeStep(true));
    ss := Extend(ss, CloseStep(0));
  }

  /******* Close that cannot return *******/

  /** `Close` waits for a handler that waits for the lock `Close` holds. */
  predicate Doomed(s: State, h: nat) {
    InWait(s) && h < |s.handlers| && s.handlers[h].pc == Failing(Want)
  }

  lemma DoomedHappens() returns (ss: seq<State>)
    ensures Run(ss) && Doomed(Last(ss), 0)
  {
    ss := AcceptOne();
    ss := Extend(ss, ServeStep(true));
    ss := Extend(ss, CallClose);
    ss := ReachWait(ss);
    ss := Extend(ss, HandlerStep(0, false));
  }

  lemma WaitHoldsLock(s: State)
    requires Inv(s) && InWait(s)
    ensures s.stopLock == Some(ByCloser(s.winner.value))
    ensures forall h :: 0 <= h < |s.handlers| && s.handlers[h].pc.Failing? ==> s.handlers[h].pc == Failing(Want)
  {
    assert s.winner.value < |s.closers| && Critical(s.closers[s.winner.value]);
    forall h | 0 <= h < |s.handlers| && s.handlers[h].pc.Failing? ensures s.handlers[h].pc == Failing(Want) {
      assert !HoldsAsHandler(s.handlers[h]);
    }
  }

  lemma DoomedKept(s: State, h: nat, a: Action)
    requires Inv(s) && Doomed(s, h) && Enabled(s, a)
    ensures Doomed(Do(s, a), h)
  {
    PanicsExactly(s, a);
    WaitHoldsLock(s);
    SumAtLeast(s.handlers, h, LIVE);
    assert s.connWG > 0;
    hide LockInv, HandlersInv, SocketInv, ChannelInv, WaitInv, Panics, Ready, DoServe, DoClose, DoHandler, DoCopier;
    match a
    case ServeStep(ok) => ServeKeepsWinner(s, ok); DoomedByServe(s, h, ok);
    case CloseStep(c) =>
      OnlyWinnerMoves(s, c);
      if !Misuse(s, a) {
        DoomedByClose(s, h, c);
      }
    case HandlerStep(j, ok) => DoomedByHandler(s, h, j, ok);
    case CopierStep(j, failed) => DoomedByCopier(s, h, j, failed);
    case _ =>
  }

  lemma DoomedByServe(s: State, h: nat, ok: bool)
    requires h < |s.handlers| && Enabled(s, ServeStep(ok))
    ensures h < |DoServe(s, ok).handlers| && DoServe(s, ok).handlers[h] == s.handlers[h]
  {
    hide NextServe, PastShut;
  }

  lemma DoomedByClose(s: State, h: nat, c: nat)
    requires Doomed(s, h) && s.connWG > 0 && s.winner == Some(c) && Enabled(s, CloseStep(c))
    requires !Misuse(s, CloseStep(c))
    ensures Doomed(DoClose(s, c), h)
  {
  }

  lemma DoomedByHandler(s: State, h: nat, j: nat, ok: bool)
    requires Doomed(s, h) && s.stopLock.Some? && Enabled(s, HandlerStep(j, ok))
    ensures Doomed(DoHandler(s, j, ok), h)
  {
    hide NextHandler;
  }

  lemma DoomedByCopier(s: State, h: nat, j: nat, failed: bool)
    requires Doomed(s, h) && Enabled(s, CopierStep(j, failed))
    ensures Doomed(DoCopier(s, j, failed), h)
  {
    hide NextCopierPc;
  }

  lemma DoomedMeans(s: State, h: nat)
    requires Inv(s) && Doomed(s, h)
    ensures h < |s.handlers| && WinnerPc(s) != Returned && s.handlers[h].srcOpen && s.connWG > 0
  {
    SumAtLeast(s.handlers, h, LIVE);
  }

  lemma DoomedNext(s: State, t: State, h: nat)
    requires Inv(s) && Doomed(s, h) && Next(s, t)
    ensures Doomed(t, h)
  {
    hide Inv;
    var a :| Enabled(s, a) && t == Do(s, a);
    DoomedKept(s, h, a);
  }

  /** From then on neither `Close` returns nor does the handler finish: its connection stays open for ever. */
  lemma {:induction false} DoomedForever(ss: seq<State>, i: nat, j: nat, h: nat)
    requires Run(ss) && i <= j < |ss| && Doomed(ss[i], h)
    ensures Doomed(ss[j], h)
    ensures WinnerPc(ss[j]) != Returned && h < |ss[j].handlers| && ss[j].handlers[h].srcOpen && ss[j].connWG > 0
  {
    hide Inv, Next, Doomed;
    RunInv(ss, j);
    if i < j {
      RunInv(ss, j - 1);
      DoomedForever(ss, i, j - 1, h);
      DoomedNext(ss[j - 1], ss[j], h);
    }
    DoomedMeans(ss[j], h);
  }

  /** Whatever `Close` waits for can move, unless it is dialling or doomed. */
  lemma MovesOrDoomed(s: State, h: nat)
    requires Inv(s) && InWait(s) && !s.panicked && h < |s.handlers| && !s.handlers[h].pc.Finished?
    ensures Doomed(s, h) <==> !Enabled(s, HandlerStep(h, true))
    ensures s.connWG > 0
  {
    WaitHoldsLock(s);
    SumAtLeast(s.handlers, h, LIVE);
  }

  /**
   The states in which `Close` is stuck: if it waits and no handler is dialling, either it can
   go on or be woken, or some handler can step, or every unfinished handler is doomed.
   */
  lemma StuckStates(ss: seq<State>, i: nat)
    requires Run(ss) && i < |ss| && InWait(ss[i]) && !ss[i].panicked
    requires forall h :: 0 <= h < |ss[i].handlers| ==> !ss[i].handlers[h].pc.Dialing?
    ensures
      var s := ss[i];
      || Enabled(s, CloseStep(s.winner.value))
      || Enabled(s, Wake)
      || (exists h: nat :: h < |s.handlers| && Enabled(s, HandlerStep(h, true)))
      || (s.connWG > 0 && forall h: nat :: h < |s.handlers| && !s.handlers[h].pc.Finished? ==> Doomed(s, h))
  {
    RunInv(ss, i);
    var s := ss[i];
    forall h: nat | h < |s.handlers| && !s.handlers[h].pc.Finished?
      ensures Doomed(s, h) || Enabled(s, HandlerStep(h, true))
    {
      MovesOrDoomed(s, h);
    }
    NobodyLeft(s);
  }

  /******* Close that returns *******/

  /** How many steps a handler still has to take, if its dial succeeds. */
  function Rank(pc: HandlerPc): nat {
    match pc
    case Dialing => 5
    case Failing(_) => 5
    case Select => 4
    case CloseConn => 3
    case CloseSrc => 2
    case Signal => 1
    case Finished => 0
  }

  const RANK: Handler -> nat := (x: Handler) => Rank(x.pc)

  function Remaining(s: State): nat {
    Sum(s.handlers, RANK)
  }

  ghost predicate Path(ss: seq<State>) {
    |ss| > 0 && forall i :: 0 <= i < |ss| - 1 ==> Next(ss[i], ss[i + 1])
  }

  lemma Prepend(s: State, a: Action, ss: seq<State>)
    requires Enabled(s, a) && Path(ss) && ss[0] == Do(s, a)
    ensures Path([s] + ss)
  {
    assert Next(s, ss[0]);
    var tt := [s] + ss;
    forall i | 0 <= i < |tt| - 1 ensures Next(tt[i], tt[i + 1]) {
      if i > 0 {
        assert Next(ss[i - 1], ss[i]);
      }
    }
  }

  predicate NoneDoomed(s: State) {
    InWait(s) && !s.panicked && forall h :: 0 <= h < |s.handlers| ==> s.handlers[h].pc != Failing(Want)
  }

  lemma RankDrops(x: Handler, ok: bool, flag: bool)
    requires !x.pc.Failing? && !x.pc.Finished? && (x.pc.Dialing? ==> ok)
    ensures
      var y := NextHandler(x, ok, flag);
      RANK(y) == RANK(x) - 1 && !y.pc.Dialing? && !y.pc.Failing?
  {
  }

  lemma NotFailing(s: State, h: nat)
    requires Inv(s) && NoneDoomed(s) && h < |s.handlers|
    ensures !s.handlers[h].pc.Failing?
    ensures !s.handlers[h].pc.Finished? ==> s.connWG > 0
  {
    WaitHoldsLock(s);
    SumAtLeast(s.handlers, h, LIVE);
  }

  /** A handler that is not about to fail comes one step nearer to its end. */
  lemma HandlerNearer(s: State, h: nat, ok: bool)
    requires Inv(s) && NoneDoomed(s) && Enabled(s, HandlerStep(h, ok)) && (s.handlers[h].pc.Dialing? ==> ok)
    ensures
      var t := DoHandler(s, h, ok);
      && NoneDoomed(t) && Remaining(t) == Remaining(s) - 1
      && t.handlers == s.handlers[h := t.handlers[h]] && !t.handlers[h].pc.Dialing?
      && s.connWG > 0
  {
    hide Inv, NextHandler, NextHandlerPc, Rank, Handover, HoldsAsHandler;
    NotFailing(s, h);
    var x := s.handlers[h];
    var y := NextHandler(x, ok, s.stopFlag);
    RankDrops(x, ok, s.stopFlag);
    SumUpdate(s.handlers, h, y, RANK);
  }

  lemma HandlerProgress(s: State, h: nat)
    requires Inv(s) && NoneDoomed(s) && h < |s.handlers| && !s.handlers[h].pc.Finished?
    ensures Enabled(s, HandlerStep(h, true))
    ensures
      var t := Do(s, HandlerStep(h, true));
      Inv(t) && NoneDoomed(t) && Remaining(t) == Remaining(s) - 1
  {
    MovesOrDoomed(s, h);
    InvKept(s, HandlerStep(h, true));
    PanicsExactly(s, HandlerStep(h, true));
    hide Inv, Panics, Ready, DoHandler, Remaining;
    HandlerNearer(s, h, true);
  }

  lemma NobodyLeft(s: State)
    requires Inv(s)
    ensures s.connWG == 0 <==> forall h: nat :: h < |s.handlers| ==> s.handlers[h].pc.Finished?
  {
    SumIsZero(s.handlers, LIVE);
  }

  /** A `Close` that finds the count at zero has two steps left, which nothing holds up. */
  lemma LeavePath(s: State) returns (ss: seq<State>)
    requires Inv(s) && InWait(s) && s.connWG == 0 && s.waiters == 0 && !s.panicked
    ensures Path(ss) && ss[0] == s && WinnerPc(Last(ss)) == Returned
  {
    hide LockInv, ChannelInv, HandlersInv, SocketInv;
    var w := s.winner.value;
    var t := Do(s, CloseStep(w));
    var u := Do(t, CloseStep(w));
    Prepend(t, CloseStep(w), [u]);
    Prepend(s, CloseStep(w), [t] + [u]);
    ss := [s] + ([t] + [u]);
  }

  /** If it was asleep when the count became zero it is woken first. */
  lemma WakePath(s: State) returns (ss: seq<State>)
    requires Inv(s) && InWait(s) && s.connWG == 0 && !s.panicked
    ensures Path(ss) && ss[0] == s && WinnerPc(Last(ss)) == Returned
  {
    hide LockInv, ChannelInv, HandlersInv, SocketInv, WinnerInv;
    if s.waiters == 0 {
      ss := LeavePath(s);
    } else {
      InvKept(s, Wake);
      ss := LeavePath(Do(s, Wake));
      Prepend(s, Wake, ss);
      ss := [s] + ss;
    }
  }

  lemma {:induction false} FinishPath(s: State) returns (ss: seq<State>)
    requires Inv(s) && NoneDoomed(s)
    ensures Path(ss) && ss[0] == s && WinnerPc(Last(ss)) == Returned
    decreases Remaining(s)
  {
    NobodyLeft(s);
    hide Inv, Do, Enabled;
    if h: nat :| h < |s.handlers| && !s.handlers[h].pc.Finished? {
      HandlerProgress(s, h);
      ss := FinishPath(Do(s, HandlerStep(h, true)));
      Prepend(s, HandlerStep(h, true), ss);
      ss := [s] + ss;
    } else {
      ss := WakePath(s);
    }
  }

  lemma {:induction false} DoomedPath(ss: seq<State>, j: nat, h: nat)
    requires Path(ss) && Inv(ss[0]) && Doomed(ss[0], h) && j < |ss|
    ensures Inv(ss[j]) && Doomed(ss[j], h)
  {
    if j > 0 {
      DoomedPath(ss, j - 1, h);
      assert Next(ss[j - 1], ss[j]);
      var a :| Enabled(ss[j - 1], a) && ss[j] == Do(ss[j - 1], a);
      DoomedKept(ss[j - 1], h, a);
      InvKept(ss[j - 1], a);
    }
  }

  /** A `Close` that waits can still return exactly if no handler waits for its lock after a failed dial. */
  lemma CloseCanReturn(run: seq<State>, i: nat)
    requires Run(run) && i < |run| && InWait(run[i]) && !run[i].panicked
    ensures (exists ss :: Path(ss) && ss[0] == run[i] && WinnerPc(Last(ss)) == Returned)
            <==> forall h :: 0 <= h < |run[i].handlers| ==> run[i].handlers[h].pc != Failing(Want)
  {
    hide Inv;
    RunInv(run, i);
    var s := run[i];
    if forall h :: 0 <= h < |s.handlers| ==> s.handlers[h].pc != Failing(Want) {
      var ss := FinishPath(s);
    }
    if ss :| Path(ss) && ss[0] == s && WinnerPc(Last(ss)) == Returned {
      forall h | 0 <= h < |s.handlers| ensures s.handlers[h].pc != Failing(Want) {
        if s.handlers[h].pc == Failing(Want) {
          DoomedPath(ss, |ss| - 1, h);
        }
      }
    }
  }

  /** No more connections will come while `Close` waits. */
  predicate Sealed(s: State) {
    && InWait(s) && !s.panicked && !s.missed && !s.serve.Accepted?
    && (Woken(s) ==> s.connWG == 0)
  }

  /** And nobody is doomed: only the handlers' own steps are left. */
  predicate Draining(s: State) {
    Sealed(s) && NoneDoomed(s)
  }

  predicate DialFails(s: State, a: Action)
    requires Enabled(s, a)
  {
    a.HandlerStep? && !a.ok && s.handlers[a.h].pc.Dialing?
  }

  /**
   While draining no step panics, and the wait ends only when all handlers are done. Every handler
   step brings that one step nearer and no other step puts it off, but a dial that fails dooms its
   handler.
   */
  lemma DrainStep(s: State, a: Action)
    requires Inv(s) && Draining(s) && Enabled(s, a)
    ensures !Panics(s, a)
    ensures if a == CloseStep(s.winner.value) && WinnerPc(Do(s, a)) == Release then s.connWG == 0
            else if DialFails(s, a) then Sealed(Do(s, a)) && Doomed(Do(s, a), a.h)
            else Draining(Do(s, a)) && Remaining(Do(s, a)) == Remaining(s) - (if a.HandlerStep? then 1 else 0)
  {
    PanicsExactly(s, a);
    hide Panics, DoServe, DoClose, DoHandler, DoCopier;
    match a
    case ServeStep(ok) => DrainServe(s, ok);
    case CallClose =>
    case CloseStep(c) => DrainClose(s, c);
    case HandlerStep(h, ok) =>
      if DialFails(s, a) {
        DrainFails(s, h);
      } else {
        DrainHandler(s, h, ok);
      }
    case CopierStep(h, failed) => DrainCopier(s, h, failed);
    case OtherStep(h) => SumUpdate(s.handlers, h, CloseBoth(s.handlers[h]).(otherCopying := false), RANK);
    case Wake =>
    case Drain =>
  }

  lemma DrainServe(s: State, ok: bool)
    requires Inv(s) && Draining(s) && Enabled(s, ServeStep(ok))
    ensures Draining(DoServe(s, ok)) && Remaining(DoServe(s, ok)) == Remaining(s)
  {
    ServeKeepsWinner(s, ok);
  }

  /** While one closer waits the others cannot move. */
  lemma OnlyWinnerMoves(s: State, c: nat)
    requires Inv(s) && InWait(s) && Enabled(s, CloseStep(c))
    ensures c == s.winner.value
  {
    WaitHoldsLock(s);
  }

  lemma DrainClose(s: State, c: nat)
    requires Inv(s) && Draining(s) && Enabled(s, CloseStep(c)) && !Misuse(s, CloseStep(c))
    ensures
      var t := DoClose(s, c);
      && c == s.winner.value
      && if WinnerPc(t) == Release then s.connWG == 0 else Draining(t) && Remaining(t) == Remaining(s)
  {
    OnlyWinnerMoves(s, c);
  }

  lemma DrainHandler(s: State, h: nat, ok: bool)
    requires Inv(s) && Draining(s) && Enabled(s, HandlerStep(h, ok)) && !DialFails(s, HandlerStep(h, ok))
    ensures Draining(DoHandler(s, h, ok)) && Remaining(DoHandler(s, h, ok)) == Remaining(s) - 1
  {
    HandlerNearer(s, h, ok);
    hide Inv, Remaining, NextHandler, Handover, Ready;
  }

  lemma DrainFails(s: State, h: nat)
    requires Inv(s) && Sealed(s) && Enabled(s, HandlerStep(h, false)) && s.handlers[h].pc.Dialing?
    ensures Sealed(DoHandler(s, h, false)) && Doomed(DoHandler(s, h, false), h)
  {
    hide Inv;
  }

  lemma DrainCopier(s: State, h: nat, failed: bool)
    requires Inv(s) && Draining(s) && Enabled(s, CopierStep(h, failed))
    ensures Draining(DoCopier(s, h, failed)) && Remaining(DoCopier(s, h, failed)) == Remaining(s)
  {
    WaitHoldsLock(s);
    SumUpdate(s.handlers, h, NextCopier(s.handlers[h], failed, s.stopFlag), RANK);
  }

  /** A run by actions, and how many of them are handler steps. */
  predicate Acts(s: State, acts: seq<Action>, t: State)
    decreases |acts|
  {
    if acts == [] then s == t else Enabled(s, acts[0]) && Acts(Do(s, acts[0]), acts[1..], t)
  }

  function HandlerSteps(acts: seq<Action>): nat {
    if acts == [] then 0 else (if acts[0].HandlerStep? then 1 else 0) + HandlerSteps(acts[1..])
  }

  /**
   However the threads are scheduled and whatever the dials in progress come to, nothing panics.
   Either some dial fails and its handler is doomed, or a draining `Close` waits for exactly as many
   handler steps as remain: until then some handler can always step, and after the last one `Close`
   can go on, or be woken.
   */
  lemma {:induction false} DrainBound(s: State, acts: seq<Action>, t: State)
    requires Inv(s) && Draining(s) && Acts(s, acts, t)
    ensures Inv(t) && !t.panicked && t.winner == s.winner
    ensures || Leaving(WinnerPc(t))
            || (Sealed(t) && exists h :: Doomed(t, h))
            || (Draining(t) && HandlerSteps(acts) + Remaining(t) == Remaining(s))
    ensures Draining(t) ==>
              if Remaining(t) == 0 then Enabled(t, CloseStep(t.winner.value)) || Enabled(t, Wake)
              else exists h: nat :: h < |t.handlers| && Enabled(t, HandlerStep(h, true))
    decreases |acts|
  {
    if acts == [] {
      DrainedOrMoving(s);
    } else {
      var a, u := acts[0], Do(s, acts[0]);
      DrainStep(s, a);
      InvKept(s, a);
      WinnerStays(s, a);
      AdvanceIsCalm(s, a);
      if Draining(u) {
        hide Inv, Draining, Sealed, Doomed, Leaving;
        DrainBound(u, acts[1..], t);
      } else if DialFails(s, a) {
        hide Inv, Sealed, Doomed;
        DoomedStays(u, acts[1..], t, a.h);
      } else {
        hide Inv;
        LeftForGood(u, acts[1..], t);
      }
    }
  }

  lemma SealedStep(s: State, h: nat, a: Action)
    requires Inv(s) && Sealed(s) && Doomed(s, h) && Enabled(s, a)
    ensures Sealed(Do(s, a))
  {
    DoomedMeans(s, h);
    DoomedKept(s, h, a);
    PanicsExactly(s, a);
    RecordKept(s, a);
    hide LockInv, HandlersInv, Panics, NextHandler, NextCopier, Handover;
    match a
    case ServeStep(_) =>
    case CloseStep(c) => OnlyWinnerMoves(s, c);
    case HandlerStep(_, _) =>
    case CopierStep(_, _) =>
    case _ =>
  }

  /** A doomed handler stays, and nothing panics. */
  lemma {:induction false} DoomedStays(s: State, acts: seq<Action>, t: State, h: nat)
    requires Inv(s) && Sealed(s) && Doomed(s, h) && Acts(s, acts, t)
    ensures Inv(t) && t.winner == s.winner && Sealed(t) && Doomed(t, h) && !t.panicked
    decreases |acts|
  {
    if acts != [] {
      WinnerStays(s, acts[0]);
      hide Inv, Doomed;
      InvKept(s, acts[0]);
      DoomedKept(s, h, acts[0]);
      SealedStep(s, h, acts[0]);
      DoomedStays(Do(s, acts[0]), acts[1..], t, h);
    }
  }

  lemma LeavingStays(s: State, a: Action)
    requires Inv(s) && Leaving(WinnerPc(s)) && Enabled(s, a)
    ensures Leaving(WinnerPc(Do(s, a))) && Do(s, a).winner == s.winner && !Do(s, a).panicked
  {
    PanicsExactly(s, a);
    AdvanceIsCalm(s, a);
    hide Panics, LockInv, ChannelInv, HandlersInv, SocketInv, WaitInv;
  }

  /** A `Close` past its wait never waits again. */
  lemma {:induction false} LeftForGood(s: State, acts: seq<Action>, t: State)
    requires Inv(s) && Leaving(WinnerPc(s)) && !s.panicked && Acts(s, acts, t)
    ensures Inv(t) && !t.panicked && t.winner == s.winner && Leaving(WinnerPc(t))
    decreases |acts|
  {
    if acts != [] {
      hide Inv, Leaving;
      InvKept(s, acts[0]);
      LeavingStays(s, acts[0]);
      LeftForGood(Do(s, acts[0]), acts[1..], t);
    }
  }

  lemma WinnerStays(s: State, a: Action)
    requires Inv(s) && InWait(s) && Enabled(s, a)
    ensures Do(s, a).winner == s.winner
  {
    hide Inv, Do;
    RecordKept(s, a);
    if a.CloseStep? {
      OnlyWinnerMoves(s, a.c);
    }
  }

  lemma DrainedOrMoving(s: State)
    requires Inv(s) && Draining(s)
    ensures if Remaining(s) == 0 then Enabled(s, CloseStep(s.winner.value)) || Enabled(s, Wake)
            else exists h: nat :: h < |s.handlers| && Enabled(s, HandlerStep(h, true))
  {
    SumIsZero(s.handlers, RANK);
    NobodyLeft(s);
    if Remaining(s) > 0 {
      var h: nat :| h < |s.handlers| && !s.handlers[h].pc.Finished?;
      MovesOrDoomed(s, h);
    }
  }

  /******* Connections closed on purpose report no error *******/

  /** The connection is being closed and its copier has no error on the way. */
  predicate Hushed(x: Handler) {
    && x.stopping
    && (x.copier.Copying? || x.copier.Checking? || x.copier == Closing(false) || x.copier.Stop? || x.copier.Gone?)
  }

  lemma HushedSteps(x: Handler, ok: bool, failed: bool, flag: bool)
    requires HandlerOk(x) && Hushed(x)
    ensures Hushed(NextHandler(x, ok, flag)) && Hushed(NextCopier(x, failed, flag))
    ensures Hushed(CloseBoth(x).(otherCopying := false))
  {
  }

  lemma HushedByHandler(s: State, h: nat, j: nat, ok: bool)
    requires h < |s.handlers| && HandlerOk(s.handlers[h]) && Hushed(s.handlers[h]) && Enabled(s, HandlerStep(j, ok))
    ensures h < |DoHandler(s, j, ok).handlers| && Hushed(DoHandler(s, j, ok).handlers[h])
  {
    hide Hushed, HandlerOk, NextHandler;
    HushedSteps(s.handlers[h], ok, false, s.stopFlag);
  }

  lemma HushedByCopier(s: State, h: nat, j: nat, failed: bool)
    requires h < |s.handlers| && HandlerOk(s.handlers[h]) && Hushed(s.handlers[h]) && Enabled(s, CopierStep(j, failed))
    ensures h < |DoCopier(s, j, failed).handlers| && Hushed(DoCopier(s, j, failed).handlers[h])
  {
    hide Hushed, HandlerOk, NextCopier;
    HushedSteps(s.handlers[h], true, failed, s.stopFlag);
  }

  lemma HushedByRest(s: State, h: nat, a: Action)
    requires h < |s.handlers| && Enabled(s, a) && !a.HandlerStep? && !a.CopierStep? && !a.OtherStep?
    ensures h < |Advance(s, a).handlers| && Advance(s, a).handlers[h] == s.handlers[h]
  {
    hide NextServe, PastShut, NextPc, Critical, Handover, DoHandler, DoCopier, NewHandler, Ready;
    match a
    case ServeStep(_) =>
    case CloseStep(_) =>
    case _ =>
  }

  lemma HushedAdvance(s: State, h: nat, a: Action)
    requires h < |s.handlers| && HandlerOk(s.handlers[h]) && Hushed(s.handlers[h]) && Enabled(s, a)
    ensures h < |Advance(s, a).handlers| && Hushed(Advance(s, a).handlers[h])
  {
    hide Hushed, HandlerOk, DoHandler, DoCopier, DoServe, DoClose;
    match a
    case HandlerStep(j, ok) => HushedByHandler(s, h, j, ok);
    case CopierStep(j, failed) => HushedByCopier(s, h, j, failed);
    case OtherStep(j) => HushedSteps(s.handlers[h], true, false, s.stopFlag);
    case _ => HushedByRest(s, h, a);
  }

  lemma HushedKept(s: State, h: nat, a: Action)
    requires h < |s.handlers| && HandlerOk(s.handlers[h]) && Hushed(s.handlers[h]) && Enabled(s, a)
    ensures h < |Do(s, a).handlers| && Hushed(Do(s, a).handlers[h])
  {
    hide Hushed, HandlerOk, Advance, Panics, Ready;
    HushedAdvance(s, h, a);
  }

  lemma InvHandler(s: State, h: nat)
    requires Inv(s) && h < |s.handlers|
    ensures HandlerOk(s.handlers[h])
  {
  }

  /** Once a connection is closed while it copies, its copier never reports an error. */
  lemma {:induction false} ClosingIsSilent(ss: seq<State>, i: nat, j: nat, h: nat)
    requires Run(ss) && i <= j < |ss| && h < |ss[i].handlers| && Hushed(ss[i].handlers[h])
    ensures h < |ss[j].handlers| && Hushed(ss[j].handlers[h]) && !ss[j].handlers[h].copier.Reporting?
  {
    hide Inv, Do, Enabled, HandlerOk;
    if i < j {
      ClosingIsSilent(ss, i, j - 1, h);
      assert Next(ss[j - 1], ss[j]);
      var a :| Enabled(ss[j - 1], a) && ss[j] == Do(ss[j - 1], a);
      RunInv(ss, j - 1);
      InvHandler(ss[j - 1], h);
      HushedKept(ss[j - 1], h, a);
    }
  }
}
