/**
 The refresher against any number of dials, in every interleaving. The readers-writer lock is
 taken by the refresher around the whole first fetch, and later only around the writes.
 */
module Dialing {
  import opened Structs
  import opened Extension
  import opened Runs

  /** The refresher's place in `getExtensionData`. */
  datatype RefreshPc =
    | Begin
    | WantFirst                          // in Lock, as the data are not initialised
    | Fetching
    | Comparing(d: ExtensionData)
    | WantWrite(d: ExtensionData)        // in Lock, to write what has changed
    | WriteData(d: ExtensionData)
    | WriteDomain(d: ExtensionData, i: nat)
    | Leave(ok: bool)                    // deferred: mark initialised, unlock
    | Idle                               // a call has succeeded
    | Stopped

  datatype DialPc =
    | WantRead
    | ReadRoot
    | ReadPair                           // reads certificate and key, and gives up if they are no pair
    | ReadDomain
    | DialOut                            // in tls.Dial
    | Done
    | Abandoned

  /** What one dial has read, and the data at the moment it took the lock. */
  datatype Dial = Dial(upstream: nat, pc: DialPc, root: string, cert: string, key: string, trustDomain: string,
                       at: ExtensionData)

  datatype State = State(
    data: ExtensionData,
    trustDomains: seq<string>,
    dataInit: bool,
    writing: bool,               // the refresher holds the lock
    refresher: RefreshPc,
    dials: seq<Dial>,
    latest: ExtensionData,       // the data of the last fetch that succeeded
    fetched: set<ExtensionData>, // the data of all fetches that succeeded
    succeeded: bool,             // some call of getExtensionData has returned without an error
    firstFailed: bool,           // the first call has returned an error
    pairs: iset<(string, string)>) // the certificates and keys that the library takes for a pair; never changes

  datatype Action =
    | RefreshStep(fetch: Fetch)  // what a fetch yields
    | NewDial(upstream: nat)
    | DialStep(k: nat)

  /** `n` is the number of upstreams. */
  function Init(n: nat, pairs: iset<(string, string)>): State {
    State(NO_DATA, seq(n, i => ""), false, false, Begin, [], NO_DATA, {}, false, false, pairs)
  }

  predicate Paired(s: State, d: ExtensionData) {
    (d.certPEM, d.privateKeyPEM) in s.pairs
  }

  predicate Reading(d: Dial) {
    !d.pc.WantRead? && !Over(d)
  }

  predicate Over(d: Dial) {
    d.pc.Done? || d.pc.Abandoned?
  }

  /** It has passed the check of certificate and key. */
  predicate Passed(d: Dial) {
    d.pc.ReadDomain? || d.pc.DialOut? || d.pc.Done?
  }

  /** The refresher sleeps in `Lock`. From then on no dial gets the lock for reading. */
  predicate Pending(s: State) {
    s.refresher.WantFirst? || s.refresher.WantWrite?
  }

  predicate LockFree(s: State) {
    !s.writing && forall k :: 0 <= k < |s.dials| ==> !Reading(s.dials[k])
  }

  predicate Enabled(s: State, a: Action) {
    match a
    case RefreshStep(_) =>
      && !s.refresher.Stopped?
      && (Pending(s) ==> LockFree(s))
    case NewDial(u) => u < |s.trustDomains|
    case DialStep(k) =>
      && k < |s.dials| && !Over(s.dials[k]) && s.dials[k].upstream < |s.trustDomains|
      && (s.dials[k].pc.WantRead? ==> !s.writing && !Pending(s))
  }

  function Do(s: State, a: Action): State
    requires Enabled(s, a)
  {
    match a
    case RefreshStep(fetch) => DoRefresh(s, fetch)
    case NewDial(u) => s.(dials := s.dials + [Dial(u, WantRead, "", "", "", "", NO_DATA)])
    case DialStep(k) => s.(dials := s.dials[k := NextDial(s, s.dials[k])])
  }

  function NextRefresh(s: State, fetch: Fetch): RefreshPc {
    match s.refresher
    case Begin => if s.dataInit then Fetching else WantFirst
    case WantFirst => Fetching
    case Fetching => if fetch.Fetched? then Comparing(fetch.d) else Leave(false)
    case Comparing(d) => if d == s.data then Leave(true) else if s.dataInit then WantWrite(d) else WriteData(d)
    case WantWrite(d) => WriteData(d)
    case WriteData(d) => WriteDomain(d, 0)
    case WriteDomain(d, i) => if i < |s.trustDomains| then WriteDomain(d, i + 1) else Leave(true)
    case Leave(ok) => if ok then Idle else Stopped
    case Idle => Begin
    case Stopped => Stopped
  }

  /** The lock is taken for the whole of a call until one has ended, later only to write. */
  function DoRefresh(s: State, fetch: Fetch): State {
    var pc := s.refresher;
    var arrived := pc.Fetching? && fetch.Fetched?;
    s.(refresher := NextRefresh(s, fetch),
       writing := (s.writing || Pending(s)) && !pc.Leave?,
       dataInit := s.dataInit || pc.Leave?,
       data := if pc.WriteData? then pc.d else s.data,
       trustDomains := if pc.WriteDomain? && pc.i < |s.trustDomains|
                       then s.trustDomains[pc.i := s.data.trustDomain] else s.trustDomains,
       latest := if arrived then fetch.d else s.latest,
       fetched := if arrived then s.fetched + {fetch.d} else s.fetched,
       succeeded := s.succeeded || pc == Leave(true),
       firstFailed := s.firstFailed || (pc == Leave(false) && !s.dataInit))
  }

  function NextDial(s: State, d: Dial): Dial
    requires d.upstream < |s.trustDomains|
  {
    match d.pc
    case WantRead => d.(pc := ReadRoot, at := s.data)
    case ReadRoot => d.(pc := ReadPair, root := s.data.rootCertPEM)
    case ReadPair =>
      d.(pc := if Paired(s, s.data) then ReadDomain else Abandoned, cert := s.data.certPEM, key := s.data.privateKeyPEM)
    case ReadDomain => d.(pc := DialOut, trustDomain := s.trustDomains[d.upstream])
    case DialOut => d.(pc := Done)
    case Done => d
    case Abandoned => d
  }

  ghost predicate Next(s: State, t: State) {
    exists a :: Enabled(s, a) && t == Do(s, a)
  }

  /** A run with `n` upstreams. Empty texts are not a certificate and a key. */
  ghost predicate Run(n: nat, ss: seq<State>) {
    && |ss| > 0 && ss[0] == Init(n, ss[0].pairs) && ("", "") !in ss[0].pairs
    && forall i :: 0 <= i < |ss| - 1 ==> Next(ss[i], ss[i + 1])
  }

  /******* The invariant *******/

  predicate CacheInv(s: State) {
    DomainsInv(s) && LatestInv(s)
  }

  /** The upstreams follow the cached data, one after the other while they are being written. */
  predicate DomainsInv(s: State) {
    && (!s.refresher.WriteDomain? ==> Coherent(Cache(s.data, s.trustDomains)))
    && (s.refresher.WriteDomain? ==>
          && s.data == s.refresher.d && s.refresher.i <= |s.trustDomains|
          && forall i :: 0 <= i < s.refresher.i ==> s.trustDomains[i] == s.data.trustDomain)
  }

  /** What is being written, or was written last, is the latest fetch. */
  predicate LatestInv(s: State) {
    && (s.refresher.Comparing? || s.refresher.WantWrite? || s.refresher.WriteData? || s.refresher.WriteDomain? ==>
          s.refresher.d == s.latest)
    && (s.refresher.WriteDomain? ==> s.data == s.refresher.d)
    && (s.refresher == Leave(true) || s.refresher.Idle? ==> s.data == s.latest)
    && (s.data == NO_DATA || s.data in s.fetched)
    && (s.refresher.Comparing? || s.refresher.WantWrite? || s.refresher.WriteData? ==> s.latest in s.fetched)
  }

  predicate LockInv(s: State) {
    && (s.writing ==> forall k :: 0 <= k < |s.dials| ==> !Reading(s.dials[k]))
    && (s.refresher.WriteData? || s.refresher.WriteDomain? ==> s.writing)
    && (s.refresher.Fetching? || s.refresher.Comparing? ==> (s.writing <==> !s.dataInit))
    && (s.refresher.WantFirst? ==> !s.dataInit && !s.writing)
    && (s.refresher.WantWrite? ==> s.dataInit && !s.writing)
    && (s.refresher.Begin? || s.refresher.Idle? || s.refresher.Stopped? ==> !s.writing)
    && (!s.dataInit && s.refresher.Leave? ==> s.writing)
    && (s.dataInit && s.refresher == Leave(false) ==> !s.writing)
  }

  /** What a dial has read so far is all from the data at the moment it took the lock. */
  predicate DialOk(s: State, d: Dial) {
    && d.upstream < |s.trustDomains|
    && (Reading(d) ==> d.at == s.data)
    && (d.at == NO_DATA || (s.succeeded && d.at in s.fetched))
    && (d.pc.ReadPair? || Passed(d) ==> d.root == d.at.rootCertPEM)
    && (Passed(d) ==> Paired(s, d.at))
    && (d.pc.Abandoned? ==> !Paired(s, d.at))
    && (Passed(d) || d.pc.Abandoned? ==> d.cert == d.at.certPEM && d.key == d.at.privateKeyPEM)
    && (d.pc.DialOut? || d.pc.Done? ==> d.trustDomain == d.at.trustDomain)
  }

  /** A call that has not written anything, and will not if it is about to leave. */
  predicate BeforeWrite(pc: RefreshPc) {
    pc.Fetching? || pc.Comparing? || pc.WriteData? || pc == Leave(false)
  }

  /** What the calls so far have come to. */
  predicate CallsInv(s: State) {
    && (s.succeeded ==> s.dataInit)
    && (s.dataInit && !s.succeeded <==> s.firstFailed)
    && (s.firstFailed ==> s.refresher.Stopped?)
    && (!s.dataInit ==> !s.refresher.Idle? && !s.refresher.Stopped?)
    && (s.refresher.Idle? ==> s.succeeded)
    && (!s.succeeded && !s.writing ==> s.data == NO_DATA)
    && (!s.dataInit && BeforeWrite(s.refresher) ==> s.data == NO_DATA)
  }

  predicate Inv(s: State) {
    && CacheInv(s) && LockInv(s) && CallsInv(s) && ("", "") !in s.pairs
    && forall k :: 0 <= k < |s.dials| ==> DialOk(s, s.dials[k])
  }

  lemma CacheKept(s: State, fetch: Fetch)
    requires CacheInv(s)
    ensures CacheInv(DoRefresh(s, fetch))
  {
    hide DomainsInv, LatestInv, DoRefresh;
    DomainsKept(s, fetch);
    LatestKept(s, fetch);
  }

  lemma DomainsKept(s: State, fetch: Fetch)
    requires DomainsInv(s)
    ensures DomainsInv(DoRefresh(s, fetch))
  {
  }

  lemma LatestKept(s: State, fetch: Fetch)
    requires LatestInv(s)
    ensures LatestInv(DoRefresh(s, fetch))
  {
  }

  lemma LockKept(s: State, a: Action)
    requires LockInv(s) && Enabled(s, a)
    ensures LockInv(Do(s, a))
  {
    match a
    case RefreshStep(_) =>
    case NewDial(_) =>
    case DialStep(_) =>
  }

  lemma CallsKept(s: State, a: Action)
    requires LockInv(s) && CallsInv(s) && Enabled(s, a)
    ensures CallsInv(Do(s, a))
  {
    match a
    case RefreshStep(_) =>
    case NewDial(_) =>
    case DialStep(_) =>
  }

  lemma DialsKept(s: State, a: Action)
    requires Inv(s) && Enabled(s, a)
    ensures forall k :: 0 <= k < |Do(s, a).dials| ==> DialOk(Do(s, a), Do(s, a).dials[k])
  {
    match a
    case RefreshStep(_) =>
    case NewDial(_) =>
    case DialStep(_) =>
  }

  lemma InvKept(s: State, a: Action)
    requires Inv(s) && Enabled(s, a)
    ensures Inv(Do(s, a))
  {
    LockKept(s, a);
    CallsKept(s, a);
    DialsKept(s, a);
    if a.RefreshStep? {
      CacheKept(s, a.fetch);
    }
  }

  lemma {:induction false} RunInv(n: nat, ss: seq<State>, i: nat)
    requires Run(n, ss) && i < |ss|
    ensures Inv(ss[i]) && |ss[i].trustDomains| == n
  {
    if i > 0 {
      hide Inv;
      RunInv(n, ss, i - 1);
      assert Next(ss[i - 1], ss[i]);
      var a :| Enabled(ss[i - 1], a) && ss[i] == Do(ss[i - 1], a);
      InvKept(ss[i - 1], a);
    }
  }

  /******* Theorems *******/

  /** A dial that gets through has read key, certificate, root and trust domain from one fetch. */
  lemma ConsistentSnapshot(n: nat, ss: seq<State>, i: nat, k: nat)
    requires Run(n, ss) && i < |ss| && k < |ss[i].dials| && ss[i].dials[k].pc == Done
    ensures exists d :: d in ss[i].fetched && Paired(ss[i], d)
              && ss[i].dials[k].root == d.rootCertPEM && ss[i].dials[k].cert == d.certPEM
              && ss[i].dials[k].key == d.privateKeyPEM && ss[i].dials[k].trustDomain == d.trustDomain
  {
    RunInv(n, ss, i);
    assert DialOk(ss[i], ss[i].dials[k]);
  }

  /** Nothing is dialled before a call has succeeded: a dial on the initial data fails at the check of its key pair. */
  lemma NoDialBeforeFetch(n: nat, ss: seq<State>, i: nat, k: nat)
    requires Run(n, ss) && i < |ss| && k < |ss[i].dials|
    ensures ss[i].dials[k].pc == DialOut || ss[i].dials[k].pc == Done ==> ss[i].succeeded
    ensures Over(ss[i].dials[k]) && ss[i].dials[k].at == NO_DATA ==> ss[i].dials[k].pc == Abandoned
    ensures Over(ss[i].dials[k]) ==> (ss[i].dials[k].pc == Done <==> Paired(ss[i], ss[i].dials[k].at))
  {
    RunInv(n, ss, i);
    assert DialOk(ss[i], ss[i].dials[k]);
  }

  /** Whenever nobody writes, all upstreams use the trust domain of the cached data. */
  lemma CoherentUnlessWriting(n: nat, ss: seq<State>, i: nat)
    requires Run(n, ss) && i < |ss| && !ss[i].writing
    ensures Coherent(Cache(ss[i].data, ss[i].trustDomains))
  {
    RunInv(n, ss, i);
  }

  /**
   After every call that succeeds the cache is as if it had been overwritten with the latest fetch,
   skipped or not.
   */
  lemma LatestIsCached(n: nat, ss: seq<State>, i: nat)
    requires Run(n, ss) && i < |ss| && ss[i].refresher == Idle
    ensures Cache(ss[i].data, ss[i].trustDomains) == Overwrite(Cache(NO_DATA, ss[0].trustDomains), ss[i].latest)
  {
    RunInv(n, ss, i);
    assert ss[i].trustDomains == Overwrite(Cache(NO_DATA, ss[0].trustDomains), ss[i].latest).trustDomains;
  }

  /** When the refresher waits for the lock it does not hold it, and whoever does can step. */
  lemma NeverLocksTwice(n: nat, ss: seq<State>, i: nat, fetch: Fetch)
    requires Run(n, ss) && i < |ss| && !ss[i].refresher.Stopped? && !Enabled(ss[i], RefreshStep(fetch))
    ensures !ss[i].writing
    ensures exists k: nat :: k < |ss[i].dials| && Reading(ss[i].dials[k]) && Enabled(ss[i], DialStep(k))
  {
    RunInv(n, ss, i);
    var k :| 0 <= k < |ss[i].dials| && Reading(ss[i].dials[k]);
    assert DialOk(ss[i], ss[i].dials[k]);
    assert Enabled(ss[i], DialStep(k));
  }

  /**
   The dials that take the lock before any call has succeeded, and so find the initial data, are
   those that come before the first call has begun or after it has failed; all others wait for it.
   */
  lemma DialsThatDoNotWait(n: nat, ss: seq<State>, i: nat, k: nat)
    requires Run(n, ss) && i < |ss| && k < |ss[i].dials| && ss[i].dials[k].pc == WantRead && Enabled(ss[i], DialStep(k))
    ensures
      var s := ss[i];
      && (!s.succeeded <==> (s.refresher.Begin? && !s.dataInit) || s.firstFailed)
      && (!s.succeeded ==> Do(s, DialStep(k)).dials[k].at == NO_DATA)
      && (s.firstFailed ==> s.refresher.Stopped?)
  {
    RunInv(n, ss, i);
    assert DialOk(ss[i], ss[i].dials[k]);
  }

  /** The refresher holds the lock throughout the first call, and in later ones from the first write to the end. */
  lemma WhenDialsWait(n: nat, ss: seq<State>, i: nat)
    requires Run(n, ss) && i < |ss|
    ensures
      var s := ss[i];
      && (!s.dataInit ==> (s.writing <==> !s.refresher.Begin? && !s.refresher.WantFirst?))
      && (s.dataInit && s.writing ==> s.refresher.WriteData? || s.refresher.WriteDomain? || s.refresher == Leave(true))
      && (s.refresher.WriteData? || s.refresher.WriteDomain? ==> s.writing)
  {
    RunInv(n, ss, i);
  }

  lemma Extend(n: nat, ss: seq<State>, a: Action) returns (tt: seq<State>)
    requires Run(n, ss) && Enabled(Last(ss), a)
    ensures Run(n, tt) && Last(tt) == Do(Last(ss), a)
  {
    tt := ss + [Do(Last(ss), a)];
    forall i | 0 <= i < |tt| - 1 ensures Next(tt[i], tt[i + 1]) {
      if i < |ss| - 1 {
        assert Next(ss[i], ss[i + 1]);
      }
    }
  }

  /** A dial that takes the lock on the initial data gives up. */
  lemma DialInVain(ss: seq<State>) returns (tt: seq<State>)
    requires Run(1, ss) && Last(ss).dials == [] && !Last(ss).writing && !Pending(Last(ss))
    requires |Last(ss).trustDomains| == 1 && Last(ss).data == NO_DATA
    ensures Run(1, tt) && |Last(tt).dials| == 1 && Last(tt).dials[0].pc == Abandoned && Last(tt).dials[0].at == NO_DATA
    ensures Last(tt).(dials := []) == Last(ss)
  {
    tt := Extend(1, ss, NewDial(0));
    tt := Extend(1, tt, DialStep(0));
    tt := Extend(1, tt, DialStep(0));
    RunInv(1, tt, |tt| - 1);
    tt := Extend(1, tt, DialStep(0));
  }

  /** A dial can take the lock and give up before the first fetch has even begun. */
  lemma EarlyDialHappens(pairs: iset<(string, string)>) returns (ss: seq<State>)
    requires ("", "") !in pairs
    ensures Run(1, ss) && Last(ss).refresher == Begin && !Last(ss).dataInit
    ensures |Last(ss).dials| == 1 && Last(ss).dials[0].pc == Abandoned && Last(ss).dials[0].at == NO_DATA
  {
    ss := DialInVain([Init(1, pairs)]);
  }

  /** So can a dial that takes the lock after the first fetch has failed. */
  lemma DialAfterFailureHappens(pairs: iset<(string, string)>) returns (ss: seq<State>)
    requires ("", "") !in pairs
    ensures Run(1, ss) && Last(ss).firstFailed && !Last(ss).succeeded
    ensures |Last(ss).dials| == 1 && Last(ss).dials[0].pc == Abandoned && Last(ss).dials[0].at == NO_DATA
  {
    ss := [Init(1, pairs)];
    ss := Extend(1, ss, RefreshStep(Unavailable));
    ss := Extend(1, ss, RefreshStep(Unavailable));
    ss := Extend(1, ss, RefreshStep(Unavailable));
    ss := Extend(1, ss, RefreshStep(Unavailable));
    ss := DialInVain(ss);
  }

  /** The first fetch, when it succeeds, is cached. */
  lemma FirstFetchIsCached(pairs: iset<(string, string)>, d: ExtensionData) returns (ss: seq<State>)
    requires ("", "") !in pairs && d != NO_DATA
    ensures Run(1, ss)
    ensures
      var s := Last(ss);
      && s.refresher == Idle && s.data == d && s.trustDomains == [d.trustDomain] && s.succeeded && s.dataInit
      && !s.writing && s.dials == [] && s.pairs == pairs
  {
    ss := [Init(1, pairs)];
    ss := Extend(1, ss, RefreshStep(Fetched(d)));
    ss := Extend(1, ss, RefreshStep(Fetched(d)));
    ss := Extend(1, ss, RefreshStep(Fetched(d)));
    ss := FetchedIsWritten(ss, d);
  }

  lemma FetchedIsWritten(ss: seq<State>, d: ExtensionData) returns (tt: seq<State>)
    requires Run(1, ss)
    requires
      var s := Last(ss);
      && s.refresher == Comparing(d) && s.data != d && !s.dataInit && |s.trustDomains| == 1 && s.dials == []
    ensures Run(1, tt)
    ensures
      var s := Last(tt);
      && s.refresher == Idle && s.data == d && s.trustDomains == [d.trustDomain] && s.succeeded && s.dataInit
      && !s.writing && s.dials == [] && s.pairs == Last(ss).pairs
  {
    tt := Extend(1, ss, RefreshStep(Unavailable));
    tt := Extend(1, tt, RefreshStep(Unavailable));
    tt := DomainIsWritten(tt, d);
  }

  lemma DomainIsWritten(ss: seq<State>, d: ExtensionData) returns (tt: seq<State>)
    requires Run(1, ss)
    requires
      var s := Last(ss);
      s.refresher == WriteDomain(d, 0) && s.data == d && |s.trustDomains| == 1 && s.dials == []
    ensures Run(1, tt)
    ensures
      var s := Last(tt);
      && s.refresher == Idle && s.data == d && s.trustDomains == [d.trustDomain] && s.succeeded && s.dataInit
      && !s.writing && s.dials == [] && s.pairs == Last(ss).pairs
  {
    tt := Extend(1, ss, RefreshStep(Unavailable));
    tt := Extend(1, tt, RefreshStep(Unavailable));
    tt := Extend(1, tt, RefreshStep(Unavailable));
  }

  /** A dial then uses it, and gets through if its certificate and key are a pair. */
  lemma DialGetsThrough(pairs: iset<(string, string)>, d: ExtensionData) returns (ss: seq<State>)
    requires ("", "") !in pairs && (d.certPEM, d.privateKeyPEM) in pairs
    ensures Run(1, ss) && |Last(ss).dials| == 1
    ensures
      var x := Last(ss).dials[0];
      && x.pc == Done && x.root == d.rootCertPEM && x.cert == d.certPEM && x.key == d.privateKeyPEM
      && x.trustDomain == d.trustDomain
  {
    ss := FirstFetchIsCached(pairs, d);
    ss := Extend(1, ss, NewDial(0));
    ss := Extend(1, ss, DialStep(0));
    ss := Extend(1, ss, DialStep(0));
    ss := Extend(1, ss, DialStep(0));
    ss := Extend(1, ss, DialStep(0));
    ss := Extend(1, ss, DialStep(0));
  }

  /** After a call that fails, the first or a later one, the refresher stops, and the cache stays as it is. */
  lemma {:induction false} FailureStops(n: nat, ss: seq<State>, i: nat, j: nat)
    requires Run(n, ss) && i <= j < |ss| && ss[i].refresher == Leave(false)
    ensures ss[j].refresher == Leave(false) || ss[j].refresher == Stopped
    ensures ss[j].data == ss[i].data && ss[j].trustDomains == ss[i].trustDomains
  {
    hide Next;
    if i < j {
      FailureStops(n, ss, i, j - 1);
      assert Next(ss[j - 1], ss[j]);
      StoppedStays(ss[j - 1], ss[j]);
    }
  }

  lemma StoppedStays(s: State, t: State)
    requires Next(s, t) && (s.refresher == Leave(false) || s.refresher == Stopped)
    ensures t.refresher == Leave(false) || t.refresher == Stopped
    ensures t.data == s.data && t.trustDomains == s.trustDomains
  {
  }

  /** A fetch that fails is a call that fails. */
  lemma FailedFetchFails(s: State, fetch: Fetch)
    requires s.refresher == Fetching && Enabled(s, RefreshStep(fetch))
    ensures Do(s, RefreshStep(fetch)).refresher == Leave(false) <==> fetch == Unavailable || fetch == Malformed
  {
  }
}
