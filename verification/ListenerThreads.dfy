/**
 What single threads of the listener bring about by their own steps: errors that are reported,
 connections that end, and the result of `Serve`.
 */
module ListenerThreads {
  import opened Wrappers
  import opened Runs
  import opened Listener
  import opened ListenerSafety
  import opened ListenerClosing

  /******* Over runs *******/

  /**
   Once one of its two copying goroutines has ended, a connection is closed at both ends, on a
   listener that is open as on one that is closed.
   */
  lemma EndedIsClosed(ss: seq<State>, i: nat, h: nat)
    requires Run(ss) && i < |ss| && h < |ss[i].handlers| && ss[i].handlers[h].dialed
    requires !ss[i].handlers[h].otherCopying || ss[i].handlers[h].connStop
    ensures !ss[i].handlers[h].srcOpen && !ss[i].handlers[h].dstOpen && ss[i].handlers[h].stopping
  {
    RunInv(ss, i);
    hide LockInv, WinnerInv, ChannelInv, SocketInv, WaitInv, ServeInv;
    InvHandler(ss[i], h);
  }

  /** `Serve` returns nil only if it has announced its listener, and `Close` has been called since. */
  lemma ServeResult(ss: seq<State>, i: nat)
    requires Run(ss) && i < |ss| && ss[i].serve.Deferred?
    ensures ss[i].serve.closer < |ss[i].closers|
    ensures ss[i].serve.ok ==> ss[i].listening && ss[i].published && ss[i].stopFlag
    ensures ss[i].closers[ss[i].serve.closer] == Returned ==> WinnerPc(ss[i]) == Returned
  {
    RunInv(ss, i);
    hide LockInv, HandlersInv, ChannelInv, SocketInv, WaitInv;
  }

  /** After an ordinary `Close` the failing `Accept` makes `Serve` return nil. */
  lemma ServeReturnsNilHappens() returns (ss: seq<State>)
    ensures Run(ss) && Last(ss).serve.Deferred? && Last(ss).serve.ok && Last(ss).socket == Closed
  {
    ss := AcceptOne();
    ss := Calmly(ss, ServeStep(true));
    ss := Calmly(ss, CallClose);
    ss := ReachWait(ss);
    ss := Calmly(ss, ServeStep(false));
    ss := Calmly(ss, ServeStep(false));
  }

  /** Whenever `Accept` has failed, `Serve` returns nil exactly if the flag is set when it looks. */
  lemma ServeLooks(s: State, ok: bool)
    requires Inv(s) && s.serve.AcceptFailed? && !s.panicked
    ensures Enabled(s, ServeStep(ok)) && Do(s, ServeStep(ok)).serve.Deferred?
    ensures Do(s, ServeStep(ok)).serve.ok <==> s.stopFlag
  {
    hide LockInv, WinnerInv, HandlersInv, ChannelInv, WaitInv, SocketInv, ServeInv;
  }

  /** Before the flag is read, or after it was read as set and nothing was opened. */
  predicate NotServing(s: State) {
    s.stopFlag && s.socket.NotOpened? && (s.serve.CheckFlag? || (s.serve.Deferred? && !s.serve.ok))
  }

  lemma NotServingKept(s: State, a: Action)
    requires NotServing(s) && !s.published && Enabled(s, a)
    ensures NotServing(Do(s, a)) && !Do(s, a).published
  {
    hide Panics;
    NotServingAdvance(s, a);
    hide Advance;
  }

  lemma NotServingAdvance(s: State, a: Action)
    requires NotServing(s) && !s.published && Enabled(s, a)
    ensures NotServing(Advance(s, a)) && !Advance(s, a).published
  {
    hide NextPc, NextHandler, NextCopier, Handover, Critical, HoldsAsHandler, HoldsAsCopier, NewHandler, PastShut;
    match a
    case ServeStep(_) =>
    case CloseStep(_) =>
    case HandlerStep(_, _) =>
    case CopierStep(_, _) =>
    case _ =>
  }

  lemma NotServingYet(s: State)
    requires Inv(s) && s.serve.CheckFlag? && s.stopFlag
    ensures NotServing(s) && !s.published
  {
  }

  /** A `Serve` that reads the flag after `Close` has set it opens nothing and does not return nil. */
  lemma {:induction false} ServeAfterClose(ss: seq<State>, i: nat, j: nat)
    requires Run(ss) && i <= j < |ss| && ss[i].serve.CheckFlag? && ss[i].stopFlag
    ensures NotServing(ss[j]) && !ss[j].published
  {
    hide NotServing, Do, Enabled, Inv;
    if i == j {
      RunInv(ss, i);
      NotServingYet(ss[i]);
    } else {
      ServeAfterClose(ss, i, j - 1);
      assert Next(ss[j - 1], ss[j]);
      var a :| Enabled(ss[j - 1], a) && ss[j] == Do(ss[j - 1], a);
      NotServingKept(ss[j - 1], a);
    }
  }

  /******* Steps of one thread *******/

  /** The same action, a number of times. */
  predicate Repeated(s: State, a: Action, n: nat, t: State)
    decreases n
  {
    if n == 0 then s == t else Enabled(s, a) && Repeated(Do(s, a), a, n - 1, t)
  }

  /** What a report leaves in the channel: one error more, unless it is full or the listener is closing. */
  function Reported(s: State): nat {
    if s.stopFlag || s.errors >= 5 then s.errors else s.errors + 1
  }

  /** One step of a handler, as far as reports go. */
  lemma HandlerGoes(s: State, h: nat, ok: bool) returns (t: State)
    requires Inv(s) && Enabled(s, HandlerStep(h, ok))
    ensures t == Do(s, HandlerStep(h, ok)) && Inv(t) && !t.panicked
    ensures
      var x := s.handlers[h];
      && |t.handlers| == |s.handlers| && t.stopFlag == s.stopFlag
      && t.handlers[h] == NextHandler(x, ok, s.stopFlag)
      && t.errors == (if x.pc == Failing(Send) then if s.errors >= 5 then s.errors else s.errors + 1 else s.errors)
      && t.stopLock == (if x.pc == Failing(Want) then Some(ByHandler(h))
                        else if x.pc == Failing(Unlock) then None else s.stopLock)
      && t.connWG == (if x.pc.Signal? then s.connWG - 1 else s.connWG)
  {
    HandlerCalm(s, h, ok);
    InvKept(s, HandlerStep(h, ok));
    hide Inv, Panics, NextServe, NextPc;
    t := DoHandler(s, h, ok);
  }

  /** One step of a copying goroutine. */
  lemma CopierGoes(s: State, h: nat, failed: bool) returns (t: State)
    requires Inv(s) && Enabled(s, CopierStep(h, failed))
    ensures t == Do(s, CopierStep(h, failed)) && Inv(t) && !t.panicked
    ensures
      var x := s.handlers[h];
      && |t.handlers| == |s.handlers| && t.stopFlag == s.stopFlag
      && t.handlers[h] == NextCopier(x, failed, s.stopFlag)
      && t.errors == (if x.copier == Reporting(Send) then if s.errors >= 5 then s.errors else s.errors + 1
          else s.errors)
      && t.stopLock == (if x.copier == Reporting(Want) then Some(ByCopier(h))
                        else if x.copier == Reporting(Unlock) then None else s.stopLock)
      && t.connWG == s.connWG
  {
    CopierCalm(s, h, failed);
    InvKept(s, CopierStep(h, failed));
    hide Inv, Panics, NextServe, NextPc;
    t := DoCopier(s, h, failed);
  }

  lemma Once(s: State, a: Action, n: nat, t: State)
    requires Enabled(s, a) && Repeated(Do(s, a), a, n, t)
    ensures Repeated(s, a, n + 1, t)
  {
  }

  /** A handler that wants the lock to report an error, and gets it, reports it and closes its connection. */
  lemma HandlerReports(s: State, h: nat) returns (t: State)
    requires Inv(s) && !s.panicked && h < |s.handlers| && s.handlers[h].pc == Failing(Want) && s.stopLock.None?
    ensures Repeated(s, HandlerStep(h, false), if s.stopFlag then 3 else 4, t)
    ensures t.errors == Reported(s) && |t.handlers| == |s.handlers| && t.handlers[h].pc == CloseSrc
    ensures t.stopLock.None? && t.stopFlag == s.stopFlag
  {
    hide Inv, Do, Repeated;
    var a := HandlerStep(h, false);
    var s1 := HandlerGoes(s, h, false);
    var s2 := HandlerGoes(s1, h, false);
    var s3 := HandlerGoes(s2, h, false);
    t := s3;
    if !s.stopFlag {
      t := HandlerGoes(s3, h, false);
      Nothing(t, a);
      Once(s3, a, 0, t);
    } else {
      Nothing(t, a);
    }
    var n := if s.stopFlag then 0 else 1;
    Once(s2, a, n, t);
    Once(s1, a, n + 1, t);
    Once(s, a, n + 2, t);
  }

  lemma Nothing(s: State, a: Action)
    ensures Repeated(s, a, 0, s)
  {
  }

  /** A dial that fails is reported. */
  lemma DialIsReported(s: State, h: nat) returns (t: State)
    requires Inv(s) && !s.panicked && h < |s.handlers| && s.handlers[h].pc == Dialing && s.stopLock.None?
    ensures Repeated(s, HandlerStep(h, false), if s.stopFlag then 4 else 5, t)
    ensures t.errors == Reported(s) && h < |t.handlers| && t.handlers[h].pc == CloseSrc
  {
    hide Inv, Do, Repeated;
    var s1 := HandlerGoes(s, h, false);
    t := HandlerReports(s1, h);
    Once(s, HandlerStep(h, false), if s.stopFlag then 3 else 4, t);
  }

  /** A copying goroutine that wants the lock to report an error, and gets it, reports it and tells the handler. */
  lemma CopierReports(s: State, h: nat) returns (t: State)
    requires Inv(s) && !s.panicked && h < |s.handlers| && s.handlers[h].copier == Reporting(Want) && s.stopLock.None?
    ensures Repeated(s, CopierStep(h, true), if s.stopFlag then 4 else 5, t)
    ensures t.errors == Reported(s) && |t.handlers| == |s.handlers| && t.handlers[h].connStop
    ensures t.handlers[h].pc == s.handlers[h].pc && t.stopFlag == s.stopFlag
  {
    hide Inv, Do, Repeated;
    var a := CopierStep(h, true);
    var s1 := CopierGoes(s, h, true);
    var s2 := CopierGoes(s1, h, true);
    var s3 := CopierGoes(s2, h, true);
    var s4 := CopierGoes(s3, h, true);
    t := s4;
    if !s.stopFlag {
      t := CopierGoes(s4, h, true);
      Nothing(t, a);
      Once(s4, a, 0, t);
    } else {
      Nothing(t, a);
    }
    var n := if s.stopFlag then 0 else 1;
    Once(s3, a, n, t);
    Once(s2, a, n + 1, t);
    Once(s1, a, n + 2, t);
    Once(s, a, n + 3, t);
  }

  /** A copy that ends with an error is reported, unless somebody has begun to close the connection. */
  lemma CopyIsReported(s: State, h: nat) returns (t: State, n: nat)
    requires Inv(s) && !s.panicked && h < |s.handlers| && s.handlers[h].copier == Checking(true) && s.stopLock.None?
    ensures Repeated(s, CopierStep(h, true), n, t) && h < |t.handlers| && t.handlers[h].connStop
    ensures t.errors == if s.handlers[h].stopping then s.errors else Reported(s)
  {
    hide Inv, Do, Repeated;
    var a := CopierStep(h, true);
    var s1 := CopierGoes(s, h, true);
    var s2 := CopierGoes(s1, h, true);
    if s.handlers[h].stopping {
      t := CopierGoes(s2, h, true);
      n := 3;
      Nothing(t, a);
      Once(s2, a, 0, t);
    } else {
      t := CopierReports(s2, h);
      n := if s.stopFlag then 6 else 7;
    }
    Once(s1, a, n - 2, t);
    Once(s, a, n - 1, t);
  }

  /** A copy that ends without an error reports none. */
  lemma QuietEnd(s: State, h: nat) returns (t: State)
    requires Inv(s) && !s.panicked && h < |s.handlers| && s.handlers[h].copier == Copying
    ensures Repeated(s, CopierStep(h, false), 4, t) && |t.handlers| == |s.handlers|
    ensures t.errors == s.errors && t.handlers[h].connStop && t.handlers[h].pc == s.handlers[h].pc
    ensures t.connWG == s.connWG && Inv(t) && !t.panicked
  {
    hide Inv, Do, Repeated;
    var a := CopierStep(h, false);
    var s1 := CopierGoes(s, h, false);
    var s2 := CopierGoes(s1, h, false);
    var s3 := CopierGoes(s2, h, false);
    t := CopierGoes(s3, h, false);
    Nothing(t, a);
    Once(s3, a, 0, t);
    Once(s2, a, 1, t);
    Once(s1, a, 2, t);
    Once(s, a, 3, t);
  }

  /** The handler of a connection that has ended closes it and is no longer counted, `Close` or no `Close`. */
  lemma HandlerEnds(s: State, h: nat) returns (t: State)
    requires Inv(s) && !s.panicked && h < |s.handlers| && s.handlers[h].pc == Select && s.handlers[h].connStop
    ensures Repeated(s, HandlerStep(h, true), 4, t) && h < |t.handlers|
    ensures BothClosed(t.handlers[h]) && t.connWG == s.connWG - 1 && t.errors == s.errors
  {
    hide Inv, Do, Repeated;
    var a := HandlerStep(h, true);
    var s1 := HandlerGoes(s, h, true);
    var s2 := HandlerGoes(s1, h, true);
    var s3 := HandlerGoes(s2, h, true);
    t := HandlerGoes(s3, h, true);
    Nothing(t, a);
    Once(s3, a, 0, t);
    Once(s2, a, 1, t);
    Once(s1, a, 2, t);
    Once(s, a, 3, t);
  }
}
