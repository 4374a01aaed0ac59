/**
 The life of one proxy listener: `Serve`, any number of `Close` calls, and a handler with two
 copying threads for every connection, as threads that take steps in any interleaving. A step
 that makes Go panic (closing a closed channel, sending on one, misusing the wait group) sets
 `panicked`, does nothing else, and nothing follows it.
 */
module Listener {
  import opened Wrappers

  const ERR_BUF_SIZE := 5

  /** `sendError`, from asking for `stopLock` to giving it back. */
  datatype SendPc = Want | LoadFlag | Send | Unlock

  datatype ServePc =
    | CheckFlag            // about to read stopFlag
    | Listen               // about to call listenFunc
    | Publish              // about to store the listener
    | Announce             // about to close listeningChan
    | Accept
    | Accepted             // holds a connection that is not counted yet
    | AcceptFailed         // about to read stopFlag
    | Deferred(closer: nat, ok: bool) // runs its deferred Close, as the given closer, and then returns nil if ok

  datatype ClosePc =
    | WantLock
    | Swap
    | Shut
    | CloseStop
    | CloseErr
    | Wait                 // about to call connWG.Wait
    | Blocked              // in connWG.Wait, which found a positive count
    | Release
    | Returned

  datatype HandlerPc =
    | Dialing
    | Failing(send: SendPc)
    | Select               // waits for connStop or stopChan
    | CloseConn            // deferred conn.Close
    | CloseSrc             // deferred src.Close
    | Signal               // deferred connWG.Done
    | Finished

  /** The goroutine that runs `CopyBytes`. */
  datatype CopierPc =
    | Absent
    | Copying
    | Checking(failed: bool) // about to read stopping
    | Closing(failed: bool)  // deferred conn.Close
    | Reporting(send: SendPc)
    | Stop                   // about to close connStop
    | Gone

  datatype Handler = Handler(
    pc: HandlerPc,
    dialed: bool,
    srcOpen: bool,
    dstOpen: bool,
    stopping: bool,
    copier: CopierPc,
    otherCopying: bool,     // the second goroutine of CopyBytes
    connStop: bool,
    late: bool)             // counted after Close shut the listener

  datatype Owner = ByCloser(c: nat) | ByHandler(h: nat) | ByCopier(h: nat)

  datatype Socket = NotOpened | Open | Closed

  datatype State = State(
    serve: ServePc,
    socket: Socket,
    published: bool,
    stopFlag: bool,
    stopLock: Option<Owner>,
    listening: bool,        // listeningChan is closed
    stopped: bool,          // stopChan is closed
    errClosed: bool,        // errChan is closed
    errors: nat,            // errors buffered in errChan
    connWG: int,
    waiters: nat,           // calls of connWG.Wait that are asleep
    waking: bool,           // a Done has brought the count to zero and is about to wake them
    closers: seq<ClosePc>,
    handlers: seq<Handler>,
    winner: Option<nat>,    // the closer that set stopFlag
    missed: bool,           // that closer found no listener to close
    handed: bool,           // when it closed the listener, Serve held a connection not counted yet
    panicked: bool)

  const INIT := State(CheckFlag, NotOpened, false, false, None, false, false, false,
                      0, 0, 0, false, [], [], None, false, false, false)

  datatype Action =
    | ServeStep(ok: bool)          // ok: the environment lets listenFunc or Accept succeed
    | CallClose
    | CloseStep(c: nat)
    | HandlerStep(h: nat, ok: bool)// ok: the environment lets the dial succeed
    | CopierStep(h: nat, failed: bool)
    | OtherStep(h: nat)
    | Wake                         // the rest of the Done that found sleepers
    | Drain                        // a reader takes an error

  /** The thread is at a step it can take. A process that has panicked takes none. */
  predicate Enabled(s: State, a: Action) {
    !s.panicked && Ready(s, a)
  }

  predicate Ready(s: State, a: Action) {
    match a
    case ServeStep(ok) =>
      !s.serve.Deferred? && (s.serve.Accept? && ok ==> s.socket == Open)
    case CallClose => true
    case CloseStep(c) =>
      && c < |s.closers|
      && (match s.closers[c]
          case WantLock => s.stopLock.None?
          case Blocked => s.waiters == 0
          case Returned => false
          case _ => true)
    case HandlerStep(h, ok) =>
      && h < |s.handlers|
      && (match s.handlers[h].pc
          case Failing(Want) => s.stopLock.None?
          case Select => s.stopped || s.handlers[h].connStop
          case Finished => false
          case _ => true)
    case CopierStep(h, failed) =>
      && h < |s.handlers|
      && (match s.handlers[h].copier
          case Absent => false
          case Reporting(Want) => s.stopLock.None?
          case Gone => false
          case _ => true)
    case OtherStep(h) => h < |s.handlers| && s.handlers[h].otherCopying
    case Wake => s.waking
    case Drain => s.errors > 0
  }

  /** What Go's runtime does not let pass. */
  predicate Panics(s: State, a: Action)
    requires Enabled(s, a)
  {
    match a
    case ServeStep(_) =>
      || (s.serve.Announce? && s.listening)
      || (s.serve.Accepted? && s.waiters > 0 && s.connWG == 0)
    case CloseStep(c) =>
      || (s.closers[c].CloseStop? && s.stopped)
      || (s.closers[c].CloseErr? && s.errClosed)
      || (s.closers[c].Blocked? && s.connWG != 0)
    case HandlerStep(h, _) =>
      || (s.handlers[h].pc == Failing(Send) && s.errClosed)
      || (s.handlers[h].pc.Signal? && s.connWG <= 0)
    case CopierStep(h, _) =>
      || (s.handlers[h].copier == Reporting(Send) && s.errClosed)
      || (s.handlers[h].copier.Stop? && s.handlers[h].connStop)
    case Wake => s.connWG != 0
    case _ => false
  }

  function Do(s: State, a: Action): State
    requires Enabled(s, a)
  {
    if Panics(s, a) then s.(panicked := true) else Advance(s, a)
  }

  function Advance(s: State, a: Action): State
    requires Enabled(s, a)
  {
    match a
    case ServeStep(ok) => DoServe(s, ok)
    case CallClose => s.(closers := s.closers + [WantLock])
    case CloseStep(c) => DoClose(s, c)
    case HandlerStep(h, ok) => DoHandler(s, h, ok)
    case CopierStep(h, failed) => DoCopier(s, h, failed)
    case OtherStep(h) =>
      s.(handlers := s.handlers[h := CloseBoth(s.handlers[h]).(otherCopying := false)])
    case Wake => s.(waiters := 0, waking := false)
    case Drain => s.(errors := s.errors - 1)
  }

  /******* Serve *******/

  function NextServe(pc: ServePc, ok: bool, flag: bool, closers: nat): ServePc
    requires !pc.Deferred?
  {
    match pc
    case CheckFlag => if flag then Deferred(closers, false) else Listen
    case Listen => if ok then Publish else Deferred(closers, false)
    case Publish => Announce
    case Announce => Accept
    case Accept => if ok then Accepted else AcceptFailed
    case Accepted => Accept
    case AcceptFailed => Deferred(closers, flag)
  }

  function NewHandler(late: bool): Handler {
    Handler(Dialing, false, true, false, false, Absent, false, false, late)
  }

  /**
   Counting an accepted connection and starting its handler is one step. `Serve` is left through a
   `Close` of its own.
   */
  function DoServe(s: State, ok: bool): State
    requires Enabled(s, ServeStep(ok))
  {
    var next := NextServe(s.serve, ok, s.stopFlag, |s.closers|);
    s.(serve := next,
       closers := if next.Deferred? then s.closers + [WantLock] else s.closers,
       socket := if s.serve.Listen? && ok then Open else s.socket,
       published := s.published || s.serve.Publish?,
       listening := s.listening || s.serve.Announce?,
       connWG := if s.serve.Accepted? then s.connWG + 1 else s.connWG,
       handlers := if s.serve.Accepted? then s.handlers + [NewHandler(PastShut(s))] else s.handlers)
  }

  /******* Close *******/

  /**
   A wait that finds the count at zero goes on at once. One that does not falls asleep, is woken by
   the `Done` that brings the count to zero, and must find it there still.
   */
  function NextPc(pc: ClosePc, flag: bool, idle: bool): ClosePc {
    match pc
    case WantLock => Swap
    case Swap => if flag then Release else Shut
    case Shut => CloseStop
    case CloseStop => CloseErr
    case CloseErr => Wait
    case Wait => if idle then Release else Blocked
    case Blocked => Release
    case Release => Returned
    case Returned => Returned
  }

  /** The steps between taking and giving back `stopLock`. */
  predicate Critical(pc: ClosePc) {
    pc != WantLock && pc != Returned
  }

  /** Entering the critical section takes the lock, leaving it gives the lock back. */
  function Handover(inside: bool, inside': bool, owner: Owner, lock: Option<Owner>): Option<Owner> {
    if inside == inside' then lock else if inside' then Some(owner) else None
  }

  function DoClose(s: State, c: nat): State
    requires Enabled(s, CloseStep(c))
  {
    var pc := s.closers[c];
    var next := NextPc(pc, s.stopFlag, s.connWG == 0);
    s.(closers := s.closers[c := next],
       stopLock := Handover(Critical(pc), Critical(next), ByCloser(c), s.stopLock),
       stopFlag := s.stopFlag || pc.Swap?,
       winner := if pc.Swap? && !s.stopFlag then Some(c) else s.winner,
       socket := if pc.Shut? && s.published then Closed else s.socket,
       missed := s.missed || (pc.Shut? && !s.published),
       handed := s.handed || (pc.Shut? && s.published && s.serve.Accepted?),
       stopped := s.stopped || pc.CloseStop?,
       errClosed := s.errClosed || pc.CloseErr?,
       waiters := if next.Blocked? && pc.Wait? then s.waiters + 1 else s.waiters)
  }

  /******* Handlers and their copying threads *******/

  function NextSend(send: SendPc, flag: bool): SendPc {
    match send
    case Want => LoadFlag
    case LoadFlag => if flag then Unlock else Send
    case Send => Unlock
    case Unlock => Want
  }

  /** A send drops the error if the buffer is full; on a closed channel it panics even then. */
  function Buffered(errors: nat): nat {
    if errors < ERR_BUF_SIZE then errors + 1 else errors
  }

  function CloseBoth(h: Handler): Handler {
    h.(stopping := true, srcOpen := false, dstOpen := false)
  }

  predicate HoldsAsHandler(x: Handler) {
    x.pc.Failing? && x.pc.send != Want
  }

  predicate HoldsAsCopier(x: Handler) {
    x.copier.Reporting? && x.copier.send != Want
  }

  function NextHandlerPc(pc: HandlerPc, ok: bool, flag: bool): HandlerPc {
    match pc
    case Dialing => if ok then Select else Failing(Want)
    case Failing(send) => if send == Unlock then CloseSrc else Failing(NextSend(send, flag))
    case Select => CloseConn
    case CloseConn => CloseSrc
    case CloseSrc => Signal
    case Signal => Finished
    case Finished => Finished
  }

  function NextHandler(x: Handler, ok: bool, flag: bool): Handler {
    var connects := x.pc.Dialing? && ok;
    x.(pc := NextHandlerPc(x.pc, ok, flag),
       dialed := x.dialed || connects,
       srcOpen := x.srcOpen && !x.pc.CloseConn? && !x.pc.CloseSrc?,
       dstOpen := (x.dstOpen || connects) && !x.pc.CloseConn?,
       stopping := x.stopping || x.pc.CloseConn?,
       copier := if connects then Copying else x.copier,
       otherCopying := x.otherCopying || connects)
  }

  function DoHandler(s: State, h: nat, ok: bool): State
    requires Enabled(s, HandlerStep(h, ok))
  {
    var x := s.handlers[h];
    var y := NextHandler(x, ok, s.stopFlag);
    s.(handlers := s.handlers[h := y],
       stopLock := Handover(HoldsAsHandler(x), HoldsAsHandler(y), ByHandler(h), s.stopLock),
       errors := if x.pc == Failing(Send) then Buffered(s.errors) else s.errors,
       connWG := if x.pc.Signal? then s.connWG - 1 else s.connWG,
       waking := s.waking || (x.pc.Signal? && s.connWG == 1 && s.waiters > 0))
  }

  /** `CopyBytes` reads `stopping`, closes both ends, and only then is its error reported. */
  function NextCopierPc(pc: CopierPc, failed: bool, stopping: bool, flag: bool): CopierPc {
    match pc
    case Copying => Checking(failed)
    case Checking(f) => Closing(f && !stopping)
    case Closing(f) => if f then Reporting(Want) else Stop
    case Reporting(send) => if send == Unlock then Stop else Reporting(NextSend(send, flag))
    case Stop => Gone
    case Absent => Absent
    case Gone => Gone
  }

  function NextCopier(x: Handler, failed: bool, flag: bool): Handler {
    x.(srcOpen := x.srcOpen && !x.copier.Closing?,
       dstOpen := x.dstOpen && !x.copier.Closing?,
       stopping := x.stopping || x.copier.Closing?,
       copier := NextCopierPc(x.copier, failed, x.stopping, flag),
       connStop := x.connStop || x.copier.Stop?)
  }

  function DoCopier(s: State, h: nat, failed: bool): State
    requires Enabled(s, CopierStep(h, failed))
  {
    var x := s.handlers[h];
    var y := NextCopier(x, failed, s.stopFlag);
    s.(handlers := s.handlers[h := y],
       stopLock := Handover(HoldsAsCopier(x), HoldsAsCopier(y), ByCopier(h), s.stopLock),
       errors := if x.copier == Reporting(Send) then Buffered(s.errors) else s.errors)
  }

  /** The closer that set the flag has dealt with the listener. */
  predicate PastShut(s: State) {
    && s.winner.Some? && s.winner.value < |s.closers|
    && !s.closers[s.winner.value].Swap? && !s.closers[s.winner.value].Shut?
  }

  /******* Runs *******/

  ghost predicate Next(s: State, t: State) {
    exists a :: Enabled(s, a) && t == Do(s, a)
  }

  ghost predicate Run(ss: seq<State>) {
    |ss| > 0 && ss[0] == INIT && forall i :: 0 <= i < |ss| - 1 ==> Next(ss[i], ss[i + 1])
  }
}
