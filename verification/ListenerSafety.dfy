/** What every interleaving of the listener's threads keeps. */
module ListenerSafety {
  import opened Wrappers
  import opened Listener

  /******* Counting *******/

  function Sum(hs: seq<Handler>, f: Handler -> nat): nat {
    if hs == [] then 0 else Sum(hs[..|hs| - 1], f) + f(hs[|hs| - 1])
  }

  lemma {:induction false} SumUpdate(hs: seq<Handler>, i: nat, x: Handler, f: Handler -> nat)
    requires i < |hs|
    ensures Sum(hs[i := x], f) + f(hs[i]) == Sum(hs, f) + f(x)
  {
    var n := |hs| - 1;
    if i < n {
      SumUpdate(hs[..n], i, x, f);
      assert hs[i := x][..n] == hs[..n][i := x];
    } else {
      assert hs[i := x][..n] == hs[..n];
    }
  }

  lemma SumAppend(hs: seq<Handler>, x: Handler, f: Handler -> nat)
    ensures Sum(hs + [x], f) == Sum(hs, f) + f(x)
  {
    assert (hs + [x])[..|hs|] == hs;
  }

  lemma {:induction false} SumIsZero(hs: seq<Handler>, f: Handler -> nat)
    ensures Sum(hs, f) == 0 <==> forall h :: 0 <= h < |hs| ==> f(hs[h]) == 0
  {
    if hs != [] {
      var n := |hs| - 1;
      SumIsZero(hs[..n], f);
      assert forall h :: 0 <= h < n ==> hs[..n][h] == hs[h];
    }
  }

  lemma {:induction false} SumAtLeast(hs: seq<Handler>, i: nat, f: Handler -> nat)
    requires i < |hs|
    ensures Sum(hs, f) >= f(hs[i])
  {
    if i < |hs| - 1 {
      SumAtLeast(hs[..|hs| - 1], i, f);
    }
  }

  const LIVE: Handler -> nat := (x: Handler) => if x.pc.Finished? then 0 else 1
  const LATE: Handler -> nat := (x: Handler) => if x.late then 1 else 0

  /** Handlers that are counted and have not signalled. */
  function Live(hs: seq<Handler>): nat {
    Sum(hs, LIVE)
  }

  function Lates(hs: seq<Handler>): nat {
    Sum(hs, LATE)
  }

  /******* The invariant *******/

  /** `stopLock` is held by exactly the thread that is inside its critical section. */
  predicate LockInv(s: State) {
    && (forall c :: 0 <= c < |s.closers| ==> (Critical(s.closers[c]) <==> s.stopLock == Some(ByCloser(c))))
    && (forall h :: 0 <= h < |s.handlers| ==> (HoldsAsHandler(s.handlers[h]) <==> s.stopLock == Some(ByHandler(h))))
    && (forall h :: 0 <= h < |s.handlers| ==> (HoldsAsCopier(s.handlers[h]) <==> s.stopLock == Some(ByCopier(h))))
    && (match s.stopLock
        case None => true
        case Some(ByCloser(c)) => c < |s.closers|
        case Some(ByHandler(h)) => h < |s.handlers|
        case Some(ByCopier(h)) => h < |s.handlers|)
  }

  predicate Leaving(pc: ClosePc) {
    pc.Release? || pc.Returned?
  }

  predicate BeforePublish(pc: ServePc) {
    pc.CheckFlag? || pc.Listen? || pc.Publish?
  }

  /** Where the closer that set the flag has got to; `WantLock` if there is none. */
  function WinnerPc(s: State): ClosePc {
    if s.winner.Some? && s.winner.value < |s.closers| then s.closers[s.winner.value] else WantLock
  }

  /** One closer does the work; the others get through only after it is done. */
  predicate WinnerInv(s: State) {
    && (s.stopFlag <==> s.winner.Some?)
    && (s.winner.Some? ==> s.winner.value < |s.closers| && WinnerPc(s) != WantLock && WinnerPc(s) != Swap)
    && (forall c :: 0 <= c < |s.closers| && s.winner != Some(c) ==>
          && (s.closers[c].WantLock? || s.closers[c].Swap? || Leaving(s.closers[c]))
          && (Leaving(s.closers[c]) ==> WinnerPc(s).Returned?))
  }

  /** The closer that does the work is in `connWG.Wait`, or about to call it. */
  predicate InWait(s: State) {
    WinnerPc(s).Wait? || WinnerPc(s).Blocked?
  }

  /** It was asleep, and the count has been zero since. */
  predicate Woken(s: State) {
    WinnerPc(s).Blocked? && s.waiters == 0
  }

  predicate ChannelInv(s: State) {
    && (s.stopped <==> WinnerPc(s).CloseErr? || InWait(s) || Leaving(WinnerPc(s)))
    && (s.errClosed <==> InWait(s) || Leaving(WinnerPc(s)))
    && (s.listening ==> !BeforePublish(s.serve) && !s.serve.Announce?)
    && (forall h :: 0 <= h < |s.handlers| && s.handlers[h].pc == Failing(Send) ==> !s.stopFlag)
    && (forall h :: 0 <= h < |s.handlers| && s.handlers[h].copier == Reporting(Send) ==> !s.stopFlag)
    && s.errors <= ERR_BUF_SIZE
  }

  /** One of the two goroutines that copy has left its deferred close behind. */
  predicate Ended(x: Handler) {
    x.dialed && (!x.otherCopying || x.copier.Reporting? || x.copier.Stop? || x.copier.Gone?)
  }

  /** One handler: what is dialled, what is still open, and which threads exist. */
  predicate HandlerOk(x: Handler) {
    && (x.dialed <==> !x.copier.Absent?)
    && (!x.dialed ==> !x.otherCopying && !x.dstOpen)
    && (x.pc.Select? || x.pc.CloseConn? ==> x.dialed)
    && (x.pc.Dialing? || x.pc.Failing? ==> !x.dialed && x.srcOpen)
    && (x.pc.CloseSrc? || x.pc.Signal? || x.pc.Finished? ==> !x.dstOpen && (x.dialed ==> x.stopping))
    && (x.pc.Signal? || x.pc.Finished? ==> !x.srcOpen)
    && (x.connStop <==> x.copier.Gone?)
    && (Ended(x) ==> x.stopping && !x.srcOpen && !x.dstOpen)
  }

  predicate HandlersInv(s: State) {
    && s.connWG == Live(s.handlers)
    && (forall h :: 0 <= h < |s.handlers| ==> HandlerOk(s.handlers[h]))
    && (Leaving(WinnerPc(s)) || Woken(s) ==>
          forall h :: 0 <= h < |s.handlers| && !s.handlers[h].pc.Finished? ==> s.handlers[h].late)
  }

  /** At most one closer sleeps, until a `Done` finds the count at zero. */
  predicate WaitInv(s: State) {
    && s.waiters <= 1
    && (s.waiters > 0 ==> WinnerPc(s).Blocked?)
    && (s.waking <==> s.waiters > 0 && s.connWG == 0)
  }

  predicate SocketInv(s: State) {
    && (s.published ==> !s.socket.NotOpened? && !BeforePublish(s.serve))
    && (s.serve.Publish? ==> s.socket.Open?)
    && (s.socket.Closed? ==> s.published)
    && (s.socket.Open? && !s.published ==> s.serve.Publish?)
    && (s.serve.Announce? || s.serve.Accept? || s.serve.Accepted? || s.serve.AcceptFailed? ==> s.published)
    && (s.socket == Closed <==> PastShut(s) && !s.missed)
    && (s.missed ==> PastShut(s))
    && (!PastShut(s) ==> Lates(s.handlers) == 0 && !s.handed)
    && (PastShut(s) && !s.missed ==>
          Lates(s.handlers) + (if s.serve.Accepted? then 1 else 0) == (if s.handed then 1 else 0))
  }

  /** `Serve` has announced the listener before it accepts, and leaves through a `Close` of its own. */
  predicate ServeInv(s: State) {
    && (s.serve.Accept? || s.serve.Accepted? || s.serve.AcceptFailed? ==> s.listening)
    && (s.listening ==> s.published)
    && (s.serve.Deferred? ==> s.serve.closer < |s.closers|)
    && (s.serve.Deferred? && s.serve.ok ==> s.listening && s.stopFlag)
  }

  predicate Inv(s: State) {
    && ServeInv(s)
    && LockInv(s) && WinnerInv(s) && ChannelInv(s) && HandlersInv(s) && WaitInv(s) && SocketInv(s)
  }

  lemma InitInv()
    ensures Inv(INIT)
  {
  }

  /******* Each part is kept by every step *******/

  lemma LockServe(s: State, ok: bool)
    requires LockInv(s) && Enabled(s, ServeStep(ok))
    ensures LockInv(DoServe(s, ok))
  {
  }

  lemma WinnerServe(s: State, ok: bool)
    requires LockInv(s) && WinnerInv(s) && Enabled(s, ServeStep(ok))
    ensures WinnerInv(DoServe(s, ok))
  {
  }

  lemma ChannelServe(s: State, ok: bool)
    requires LockInv(s) && WinnerInv(s) && ChannelInv(s) && Enabled(s, ServeStep(ok))
    ensures ChannelInv(DoServe(s, ok))
  {
  }

  lemma ServeKept(s: State, a: Action)
    requires ServeInv(s) && SocketInv(s) && Enabled(s, a)
    ensures ServeInv(Advance(s, a))
  {
    hide NextPc, NextHandler, NextCopier, Handover, Critical, HoldsAsHandler, HoldsAsCopier, NewHandler;
    match a
    case ServeStep(_) =>
    case CloseStep(_) =>
    case HandlerStep(_, _) =>
    case CopierStep(_, _) =>
    case _ =>
  }

  lemma LockClose(s: State, c: nat)
    requires LockInv(s) && Enabled(s, CloseStep(c))
    ensures LockInv(DoClose(s, c))
  {
  }

  lemma WinnerClose(s: State, c: nat)
    requires LockInv(s) && WinnerInv(s) && Enabled(s, CloseStep(c))
    ensures WinnerInv(DoClose(s, c))
  {
  }

  lemma ChannelClose(s: State, c: nat)
    requires LockInv(s) && WinnerInv(s) && ChannelInv(s) && Enabled(s, CloseStep(c))
    ensures ChannelInv(DoClose(s, c))
  {
  }

  lemma LockHandler(s: State, h: nat, ok: bool)
    requires LockInv(s) && HandlersInv(s) && Enabled(s, HandlerStep(h, ok))
    ensures LockInv(DoHandler(s, h, ok))
  {
  }

  lemma WinnerHandler(s: State, h: nat, ok: bool)
    requires LockInv(s) && WinnerInv(s) && Enabled(s, HandlerStep(h, ok))
    ensures WinnerInv(DoHandler(s, h, ok))
  {
  }

  lemma ChannelHandler(s: State, h: nat, ok: bool)
    requires LockInv(s) && WinnerInv(s) && ChannelInv(s) && Enabled(s, HandlerStep(h, ok))
    ensures ChannelInv(DoHandler(s, h, ok))
  {
  }

  lemma LockCopier(s: State, h: nat, failed: bool)
    requires LockInv(s) && Enabled(s, CopierStep(h, failed))
    ensures LockInv(DoCopier(s, h, failed))
  {
  }

  lemma WinnerCopier(s: State, h: nat, failed: bool)
    requires LockInv(s) && WinnerInv(s) && Enabled(s, CopierStep(h, failed))
    ensures WinnerInv(DoCopier(s, h, failed))
  {
  }

  lemma ChannelCopier(s: State, h: nat, failed: bool)
    requires LockInv(s) && WinnerInv(s) && ChannelInv(s) && Enabled(s, CopierStep(h, failed))
    ensures ChannelInv(DoCopier(s, h, failed))
  {
  }

  lemma HandlerOkHandler(x: Handler, ok: bool, flag: bool)
    requires HandlerOk(x) && !x.pc.Finished?
    ensures HandlerOk(NextHandler(x, ok, flag))
  {
  }

  lemma HandlerCounted(x: Handler, ok: bool, flag: bool)
    requires !x.pc.Finished?
    ensures NextHandler(x, ok, flag).late == x.late
    ensures NextHandler(x, ok, flag).pc.Finished? <==> x.pc.Signal?
  {
  }

  lemma HandlerOkCopier(x: Handler, failed: bool, flag: bool)
    requires HandlerOk(x)
    ensures HandlerOk(NextCopier(x, failed, flag))
  {
  }

  lemma CopierCounted(x: Handler, failed: bool, flag: bool)
    ensures NextCopier(x, failed, flag).late == x.late
    ensures NextCopier(x, failed, flag).pc == x.pc
  {
  }

  lemma ServeKeepsWinner(s: State, ok: bool)
    requires WinnerInv(s) && Enabled(s, ServeStep(ok))
    ensures WinnerPc(DoServe(s, ok)) == WinnerPc(s)
    ensures PastShut(DoServe(s, ok)) == PastShut(s)
    ensures Leaving(WinnerPc(s)) ==> PastShut(s)
  {
  }

  /** What `Serve` does to the handlers: nothing, or one more that is counted. */
  lemma ServeHandlers(s: State, ok: bool)
    requires Enabled(s, ServeStep(ok))
    ensures
      var t := DoServe(s, ok);
      if s.serve.Accepted?
      then t.handlers == s.handlers + [NewHandler(PastShut(s))] && t.connWG == s.connWG + 1
      else t.handlers == s.handlers && t.connWG == s.connWG
  {
    hide NextServe, PastShut, NewHandler;
  }

  lemma HandlersServe(s: State, ok: bool)
    requires HandlersInv(s) && WinnerInv(s) && Enabled(s, ServeStep(ok))
    ensures HandlersInv(DoServe(s, ok))
  {
    ServeKeepsWinner(s, ok);
    ServeHandlers(s, ok);
    LivesServe(s, ok);
    assert Woken(DoServe(s, ok)) ==> Woken(s) && PastShut(s);
    hide WinnerPc, PastShut, DoServe, Ready, WinnerInv, Live, HandlerOk;
    NewIsOk(PastShut(s));
  }

  lemma NewIsOk(late: bool)
    ensures HandlerOk(NewHandler(late)) && NewHandler(late).late == late
  {
  }

  lemma LivesServe(s: State, ok: bool)
    requires Enabled(s, ServeStep(ok))
    ensures Live(DoServe(s, ok).handlers) == Live(s.handlers) + if s.serve.Accepted? then 1 else 0
  {
    ServeHandlers(s, ok);
    hide PastShut, DoServe, Ready;
    SumAppend(s.handlers, NewHandler(PastShut(s)), LIVE);
  }

  lemma SocketServe(s: State, ok: bool)
    requires SocketInv(s) && WinnerInv(s) && Enabled(s, ServeStep(ok))
    ensures SocketInv(DoServe(s, ok))
  {
    ServeKeepsWinner(s, ok);
    LatesServe(s, ok);
    hide WinnerPc, PastShut, Lates, WinnerInv, NewHandler;
  }

  lemma LatesServe(s: State, ok: bool)
    requires Enabled(s, ServeStep(ok))
    ensures Lates(DoServe(s, ok).handlers)
         == Lates(s.handlers) + if s.serve.Accepted? && PastShut(s) then 1 else 0
  {
    ServeHandlers(s, ok);
    hide PastShut, DoServe, Ready;
    SumAppend(s.handlers, NewHandler(PastShut(s)), LATE);
  }

  lemma HandlersClose(s: State, c: nat)
    requires HandlersInv(s) && WinnerInv(s) && WaitInv(s) && Enabled(s, CloseStep(c)) && !Panics(s, CloseStep(c))
    ensures HandlersInv(DoClose(s, c))
  {
    SumIsZero(s.handlers, LIVE);
  }

  lemma SocketClose(s: State, c: nat)
    requires LockInv(s) && WinnerInv(s) && SocketInv(s) && Enabled(s, CloseStep(c))
    ensures SocketInv(DoClose(s, c))
  {
  }

  lemma WaitServe(s: State, ok: bool)
    requires WinnerInv(s) && HandlersInv(s) && WaitInv(s) && Enabled(s, ServeStep(ok)) && !Panics(s, ServeStep(ok))
    ensures WaitInv(DoServe(s, ok))
  {
    ServeKeepsWinner(s, ok);
  }

  lemma WaitClose(s: State, c: nat)
    requires LockInv(s) && WinnerInv(s) && WaitInv(s) && Enabled(s, CloseStep(c)) && !Panics(s, CloseStep(c))
    ensures WaitInv(DoClose(s, c))
  {
  }

  lemma WaitHandler(s: State, h: nat, ok: bool)
    requires HandlersInv(s) && WaitInv(s) && Enabled(s, HandlerStep(h, ok))
    ensures WaitInv(DoHandler(s, h, ok))
  {
    SumAtLeast(s.handlers, h, LIVE);
  }

  lemma WaitCopier(s: State, h: nat, failed: bool)
    requires WaitInv(s) && Enabled(s, CopierStep(h, failed))
    ensures WaitInv(DoCopier(s, h, failed))
  {
  }

  lemma HandlersHandler(s: State, h: nat, ok: bool)
    requires HandlersInv(s) && Enabled(s, HandlerStep(h, ok))
    ensures HandlersInv(DoHandler(s, h, ok))
  {
    hide NextHandler, HandlerOk;
    HandlerOkHandler(s.handlers[h], ok, s.stopFlag);
    HandlerCounted(s.handlers[h], ok, s.stopFlag);
    SumUpdate(s.handlers, h, NextHandler(s.handlers[h], ok, s.stopFlag), LIVE);
  }

  lemma SocketHandler(s: State, h: nat, ok: bool)
    requires SocketInv(s) && Enabled(s, HandlerStep(h, ok))
    ensures SocketInv(DoHandler(s, h, ok))
  {
    hide NextHandler;
    HandlerCounted(s.handlers[h], ok, s.stopFlag);
    SumUpdate(s.handlers, h, NextHandler(s.handlers[h], ok, s.stopFlag), LATE);
  }

  lemma HandlersCopier(s: State, h: nat, failed: bool)
    requires HandlersInv(s) && Enabled(s, CopierStep(h, failed))
    ensures HandlersInv(DoCopier(s, h, failed))
  {
    hide NextCopier, HandlerOk;
    HandlerOkCopier(s.handlers[h], failed, s.stopFlag);
    CopierCounted(s.handlers[h], failed, s.stopFlag);
    SumUpdate(s.handlers, h, NextCopier(s.handlers[h], failed, s.stopFlag), LIVE);
  }

  lemma SocketCopier(s: State, h: nat, failed: bool)
    requires SocketInv(s) && Enabled(s, CopierStep(h, failed))
    ensures SocketInv(DoCopier(s, h, failed))
  {
    hide NextCopier;
    CopierCounted(s.handlers[h], failed, s.stopFlag);
    SumUpdate(s.handlers, h, NextCopier(s.handlers[h], failed, s.stopFlag), LATE);
  }

  /** The second copying goroutine only closes both ends of its connection. */
  lemma OtherKept(s: State, h: nat)
    requires Inv(s) && Enabled(s, OtherStep(h))
    ensures Inv(Advance(s, OtherStep(h)))
  {
    hide LockInv, WinnerInv, ChannelInv, HandlersInv, WaitInv, SocketInv;
    OtherLocks(s, h);
    OtherCounts(s, h);
  }

  lemma OtherLocks(s: State, h: nat)
    requires Inv(s) && Enabled(s, OtherStep(h))
    ensures
      var t := Advance(s, OtherStep(h));
      LockInv(t) && WinnerInv(t) && ChannelInv(t) && WaitInv(t)
  {
  }

  lemma OtherCounts(s: State, h: nat)
    requires Inv(s) && Enabled(s, OtherStep(h))
    ensures HandlersInv(Advance(s, OtherStep(h))) && SocketInv(Advance(s, OtherStep(h)))
  {
    hide LockInv, WinnerInv, ChannelInv, WaitInv;
    var y := CloseBoth(s.handlers[h]).(otherCopying := false);
    SumUpdate(s.handlers, h, y, LIVE);
    SumUpdate(s.handlers, h, y, LATE);
  }

  lemma CallKept(s: State)
    requires Inv(s) && Enabled(s, CallClose)
    ensures Inv(Advance(s, CallClose))
  {
  }

  lemma DrainKept(s: State)
    requires Inv(s) && Enabled(s, Drain)
    ensures Inv(Advance(s, Drain))
  {
  }

  lemma WakeKept(s: State)
    requires Inv(s) && Enabled(s, Wake)
    ensures Inv(Advance(s, Wake))
  {
    SumIsZero(s.handlers, LIVE);
  }

  lemma AdvanceKept(s: State, a: Action)
    requires Inv(s) && Enabled(s, a) && !Panics(s, a)
    ensures Inv(Advance(s, a))
  {
    ServeKept(s, a);
    hide ServeInv, LockInv, WinnerInv, ChannelInv, HandlersInv, WaitInv, SocketInv, DoServe, DoClose, DoHandler,
      DoCopier, Panics;
    match a
    case ServeStep(ok) =>
      LockServe(s, ok); WinnerServe(s, ok); ChannelServe(s, ok);
      HandlersServe(s, ok); WaitServe(s, ok); SocketServe(s, ok);
    case CallClose => CallKept(s);
    case CloseStep(c) =>
      LockClose(s, c); WinnerClose(s, c); ChannelClose(s, c);
      HandlersClose(s, c); WaitClose(s, c); SocketClose(s, c);
    case HandlerStep(h, ok) =>
      LockHandler(s, h, ok); WinnerHandler(s, h, ok); ChannelHandler(s, h, ok);
      HandlersHandler(s, h, ok); WaitHandler(s, h, ok); SocketHandler(s, h, ok);
    case CopierStep(h, failed) =>
      LockCopier(s, h, failed); WinnerCopier(s, h, failed); ChannelCopier(s, h, failed);
      HandlersCopier(s, h, failed); WaitCopier(s, h, failed); SocketCopier(s, h, failed);
    case OtherStep(h) => OtherKept(s, h);
    case Wake => WakeKept(s);
    case Drain => DrainKept(s);
  }

  lemma PanicKept(s: State)
    requires Inv(s)
    ensures Inv(s.(panicked := true))
  {
  }

  lemma InvKept(s: State, a: Action)
    requires Inv(s) && Enabled(s, a)
    ensures Inv(Do(s, a))
  {
    hide Inv, Panics, Advance;
    if Panics(s, a) {
      PanicKept(s);
    } else {
      AdvanceKept(s, a);
    }
  }

  /******* What panics *******/

  /** `Serve` is about to count a connection while a `Done` is about to wake the sleeping `Close`. */
  predicate AddMeetsWake(s: State) {
    s.serve.Accepted? && s.waking
  }

  /** `Close` has been woken and the wait group is in use again. */
  predicate ReusedInWait(s: State) {
    Woken(s) && s.connWG > 0
  }

  predicate Misuse(s: State, a: Action) {
    || (a.ServeStep? && AddMeetsWake(s))
    || (s.winner.Some? && a == CloseStep(s.winner.value) && ReusedInWait(s))
  }

  lemma ServePanics(s: State, ok: bool)
    requires Inv(s) && Enabled(s, ServeStep(ok))
    ensures Panics(s, ServeStep(ok)) <==> AddMeetsWake(s)
  {
  }

  lemma ClosePanics(s: State, c: nat)
    requires Inv(s) && Enabled(s, CloseStep(c))
    ensures Panics(s, CloseStep(c)) <==> s.winner == Some(c) && ReusedInWait(s)
  {
  }

  lemma HandlerCalm(s: State, h: nat, ok: bool)
    requires Inv(s) && Enabled(s, HandlerStep(h, ok))
    ensures !Panics(s, HandlerStep(h, ok))
  {
    SumAtLeast(s.handlers, h, LIVE);
  }

  lemma CopierCalm(s: State, h: nat, failed: bool)
    requires Inv(s) && Enabled(s, CopierStep(h, failed))
    ensures !Panics(s, CopierStep(h, failed))
  {
  }

  /**
   A step panics exactly if it misuses the wait group in one of two ways. No channel is closed
   twice, nothing is sent on a closed one, and the count never falls below zero.
   */
  lemma PanicsExactly(s: State, a: Action)
    requires Inv(s) && Enabled(s, a)
    ensures Panics(s, a) <==> Misuse(s, a)
  {
    match a
    case ServeStep(ok) => ServePanics(s, ok);
    case CloseStep(c) => ClosePanics(s, c);
    case HandlerStep(h, ok) => HandlerCalm(s, h, ok);
    case CopierStep(h, failed) => CopierCalm(s, h, failed);
    case _ =>
  }

  /** Both need a connection that was left uncounted when `Close` shut the listener, or a listener it missed. */
  lemma MisuseNeedsUncounted(s: State)
    requires Inv(s) && (AddMeetsWake(s) || ReusedInWait(s))
    ensures PastShut(s) && (s.missed || s.handed)
  {
    SumIsZero(s.handlers, LIVE);
    if ReusedInWait(s) && !s.missed {
      var h: nat :| h < |s.handlers| && !s.handlers[h].pc.Finished?;
      SumAtLeast(s.handlers, h, LATE);
    }
  }
}
