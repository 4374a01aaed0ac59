/**
 The invocation's events against the model of a sync, the two paths by which a function
 reaches Consul, and the parameter that ties the registrator to the extension.
 */
module Agreement {
  import opened Wrappers
  import opened Structs
  import opened Slots
  import opened Events
  import opened Consul
  import opened FullSync
  import opened Collection
  import opened Recovery
  import opened Invocation

  /** The wanted map of a listing, for one of the orders in which it can be visited. */
  ghost function Desired(env: Environment, funcs: Listing): map<Key, Event> {
    assert exists order :: Visits(order, funcs.Keys) by {
      var order := SomeVisit(funcs.Keys);
    }
    var order :| Visits(order, funcs.Keys);
    Collected(env, funcs, order)
  }

  lemma CollectedKeyed(env: Environment, funcs: Listing, order: seq<string>)
    requires forall arn :: arn in order ==> arn in funcs
    ensures Keyed(env, Collected(env, funcs, order))
  {
    hide EventsOf, EventsInOrder;
    var desired, events := Collected(env, funcs, order), EventsInOrder(env, funcs, order);
    forall k | k in desired
      ensures KeyOf(desired[k]) == k
      ensures desired[k].service.em.Some? <==> env.isEnterprise
      ensures desired[k].service.em.Some? ==> k.em.ap != "" && k.em.ns != ""
    {
      CollectedFrom(events, k);
      InOrder(env, funcs, order, desired[k]);
      var arn :| arn in order && desired[k] in EventsOf(env, funcs[arn]);
      EventShape(env, funcs[arn], desired[k]);
    }
  }

  /** The partitions that are configured and the namespaces that Consul lists have names. */
  predicate Named(env: Environment, namespaces: Namespaces) {
    && "" !in env.partitions
    && forall p :: p in namespaces ==> "" !in namespaces[p]
  }

  lemma MetasProper(env: Environment, namespaces: Namespaces)
    requires env.isEnterprise ==> Named(env, namespaces)
    ensures Proper(env, Metas(env, namespaces))
  {
  }

  /** The events of a scheduled invocation, with any answers, cover the difference between Lambda and Consul. */
  lemma ScheduledCovers(env: Environment, s: Snapshot, w: World, events: seq<Event>, replies: nat -> Replies)
    requires FullSyncEmits(env, s, w.catalog, events)
    requires Agreeing(env, s.Listed()) && Proper(env, Metas(env, s.namespaces))
    ensures Keyed(env, Desired(env, s.Listed()))
    ensures Covers(env, Metas(env, s.namespaces), Desired(env, s.Listed()), w, Attempts(events, replies))
  {
    hide Keyed, Proper, Covers, Emits, Agreeing, Collected;
    var order :| Visits(order, s.Listed().Keys)
      && Emits(Collected(env, s.Listed(), order), ManagedKeys(env, w.catalog, Metas(env, s.namespaces)), events);
    var any := SomeVisit(s.Listed().Keys);
    var chosen :| Visits(chosen, s.Listed().Keys) && Desired(env, s.Listed()) == Collected(env, s.Listed(), chosen);
    OrderIrrelevantIf(env, s.Listed(), order, chosen);
    CollectedKeyed(env, s.Listed(), order);
    EmitsCovers(env, Metas(env, s.namespaces), Desired(env, s.Listed()), w, events, replies);
  }

  /******* Order independence *******/

  predicate SlashFreeEvents(L: seq<Attempt>) {
    forall a :: a in L ==> SlashFree(a.event.service)
  }

  lemma ParamSlotInjective(env: Environment, metas: set<EnterpriseMeta>, desired: map<Key, Event>, w: World,
                           L: seq<Attempt>, a: Attempt, b: Attempt)
    requires Proper(env, metas) && Keyed(env, desired) && Covers(env, metas, desired, w, L)
    requires SlashFreeEvents(L) && a in L && b in L
    requires ParamSlot(env, a.event) == ParamSlot(env, b.event)
    ensures a == b
  {
    var n := |env.extensionDataPrefix|;
    assert a.event.service.ExtensionPath() == ParamSlot(env, a.event)[n..];
    assert b.event.service.ExtensionPath() == ParamSlot(env, b.event)[n..];
    PathInjective(a.event.service, b.event.service);
    EventForKey(env, metas, desired, KeyOf(a.event));
    EventForKey(env, metas, desired, KeyOf(b.event));
    assert KeyOf(a.event) == KeyOf(b.event);
  }

  lemma OrderIndependentSlots(env: Environment, metas: set<EnterpriseMeta>, desired: map<Key, Event>, w: World,
                              L: seq<Attempt>, M: seq<Attempt>)
    requires Covers(env, metas, desired, w, L)
    requires forall a :: a in L <==> a in M
    ensures Run(env, w, L).catalog == Run(env, w, M).catalog
    ensures Run(env, w, L).defaults == Run(env, w, M).defaults
  {
    hide Run, Pending, EventFor, ManagedIn;
    RunCatalog(env, w, L);
    RunCatalog(env, w, M);
    RunDefaults(env, w, L);
    RunDefaults(env, w, M);
    forall a, b | a in L && b in L && WriteScope(env, a.event.service) == WriteScope(env, b.event.service)
                  && a.event.service.name == b.event.service.name
      ensures a == b
    {
      assert KeyOf(a.event) == KeyOf(b.event);
    }
    MappedAnyOrder(w.catalog, L, M, CatalogWrite(env));
    MappedAnyOrder(w.defaults, L, M, DefaultsWrite(env));
  }

  lemma OrderIndependentParams(env: Environment, metas: set<EnterpriseMeta>, desired: map<Key, Event>, w: World,
                               L: seq<Attempt>, M: seq<Attempt>)
    requires Proper(env, metas) && Keyed(env, desired) && Covers(env, metas, desired, w, L)
    requires forall a :: a in L <==> a in M
    requires SlashFreeEvents(L)
    ensures Run(env, w, L).params == Run(env, w, M).params
  {
    hide Run, Covers, Proper, Keyed, SlashFreeEvents, ParamSlot;
    RunParam(env, w, L);
    RunParam(env, w, M);
    forall a, b | a in L && b in L && ParamSlot(env, a.event) == ParamSlot(env, b.event) ensures a == b {
      ParamSlotInjective(env, metas, desired, w, L, a, b);
    }
    MappedAnyOrder(w.params, L, M, ParamWrite(env));
  }

  /**
   Reordering the events of a full sync, each with the answers it gets, changes neither the
   catalog nor the service defaults, nor the parameters if partitions and namespaces hold no slash.
   */
  lemma OrderIndependent(env: Environment, metas: set<EnterpriseMeta>, desired: map<Key, Event>, w: World,
                         L: seq<Attempt>, M: seq<Attempt>)
    requires Proper(env, metas) && Keyed(env, desired) && Covers(env, metas, desired, w, L)
    requires multiset(L) == multiset(M)
    ensures Run(env, w, L).catalog == Run(env, w, M).catalog
    ensures Run(env, w, L).defaults == Run(env, w, M).defaults
    ensures SlashFreeEvents(L) ==> Run(env, w, L) == Run(env, w, M)
  {
    hide Run, Covers, Proper, Keyed, SlashFreeEvents;
    forall a ensures a in L <==> a in M {
      assert a in multiset(L) <==> a in multiset(M);
    }
    OrderIndependentSlots(env, metas, desired, w, L, M);
    if SlashFreeEvents(L) {
      OrderIndependentParams(env, metas, desired, w, L, M);
    }
  }

  /**
   A failure of the parameter-store step alone is not retried: the parameter stays as it was and no
   later sync cares.
   */
  lemma StoreFailureNotRetried(env: Environment, metas: set<EnterpriseMeta>, desired: map<Key, Event>, w: World,
                               L: seq<Attempt>, a: Attempt)
    requires Proper(env, metas) && Keyed(env, desired) && OwnIds(env, w) && Covers(env, metas, desired, w, L)
    requires SlashFreeEvents(L) && a in L && Settles(env, metas, w, a.event)
    requires Commits(a.replies) && ParamChange(env, a.event, a.replies).Keep?
    ensures KeyOf(a.event) !in Pending(desired, ManagedIn(env, metas, Run(env, w, L)))
    ensures Lookup(Run(env, w, L).params, ParamSlot(env, a.event)) == Lookup(w.params, ParamSlot(env, a.event))
  {
    hide Covers, Proper, Keyed, OwnIds, ManagedIn, ParamSlot, SlashFreeEvents;
    KeyAfter(env, metas, desired, w, L, KeyOf(a.event));
    RunParam(env, w, L);
    forall b | b in L && ParamSlot(env, b.event) == ParamSlot(env, a.event) ensures b == a {
      ParamSlotInjective(env, metas, desired, w, L, a, b);
    }
    MappedUntouched(w.params, L, ParamWrite(env), ParamSlot(env, a.event));
  }

  /******* The event-driven path *******/

  /** Whoever else claims one of the function's names asks for the same. */
  ghost predicate Unchallenged(env: Environment, funcs: Listing, fn: LambdaFunction) {
    forall arn, e, f :: arn in funcs && e in EventsOf(env, fn) && f in EventsOf(env, funcs[arn]) && KeyOf(e) == KeyOf(f)
      ==> e == f
  }

  /** A full sync that lists the function unchanged wants exactly what the function's own events ask for. */
  lemma WantsOwnEvent(env: Environment, funcs: Listing, order: seq<string>, arn: string, e: Event)
    requires Visits(order, funcs.Keys) && arn in funcs && Unchallenged(env, funcs, funcs[arn])
    requires e in EventsOf(env, funcs[arn])
    ensures Lookup(Collected(env, funcs, order), KeyOf(e)) == Some(e)
  {
    hide EventsOf, KeyOf;
    var events := EventsInOrder(env, funcs, order);
    InOrder(env, funcs, order, e);
    EntryOf(events, e);
    forall w | w in Entries(events) && w.key == KeyOf(e) ensures w.change == Put(e) {
      EntriesArePuts(events, w);
      InOrder(env, funcs, order, w.change.v);
    }
    Settled(map[], Entries(events), KeyOf(e), Put(e));
  }

  /** The same event, carried out any number of times among others that agree with it. */
  lemma OwnAfterEvents(env: Environment, w: World, fn: LambdaFunction, L: seq<Attempt>, a: Attempt)
    requires forall b :: b in L ==> b.event in EventsOf(env, fn) && Commits(b.replies)
    requires a in L
    ensures Own(env, Run(env, w, L), KeyOf(a.event)) <==>
            if Home(env, a.event) then a.event.Upsert? else Own(env, w, KeyOf(a.event))
  {
    hide EventsOf;
    RunCatalog(env, w, L);
    hide Run, Mapped, UpdateAll, Attempts, MANAGED_TAG;
    var k := KeyOf(a.event);
    forall b | b in L && KeyOf(b.event) == k ensures b.event == a.event {
      OneFunctionAgrees(env, fn, a.event, b.event);
    }
    if Home(env, a.event) {
      assert CatalogSlot(env, a.event) == HomeSlot(env, k);
      MappedSettled(w.catalog, L, CatalogWrite(env), a);
    } else {
      MappedUntouched(w.catalog, L, CatalogWrite(env), HomeSlot(env, k));
    }
  }

  /**
   Once the events of one function are carried out, a full sync over any listing that holds
   the function unchanged has nothing left to do for its names, except where the event could
   not settle the disagreement.
   */
  lemma EventPathAgrees(env: Environment, metas: set<EnterpriseMeta>, funcs: Listing, order: seq<string>, arn: string,
                        w: World, L: seq<Attempt>, a: Attempt)
    requires Proper(env, metas) && OwnIds(env, w)
    requires Visits(order, funcs.Keys) && arn in funcs && Unchallenged(env, funcs, funcs[arn])
    requires forall b :: b in L ==> b.event in EventsOf(env, funcs[arn]) && Commits(b.replies)
    requires a in L
    ensures
      var desired := Collected(env, funcs, order);
      KeyOf(a.event) in Pending(desired, ManagedIn(env, metas, Run(env, w, L))) <==>
      KeyOf(a.event) in Pending(desired, ManagedIn(env, metas, w)) && !Settles(env, metas, w, a.event)
  {
    hide Run, EventsOf, Collected, Visits, OwnIds, Own, Foreign, Proper, ManagedKeys;
    var k := KeyOf(a.event);
    WantsOwnEvent(env, funcs, order, arn, a.event);
    OwnAfterEvents(env, w, funcs[arn], L, a);
    OthersKept(env, w, L);
    ForeignKept(env, w, L, k);
    ManagedSplits(env, metas, w, k);
    ManagedSplits(env, metas, Run(env, w, L), k);
  }

  /******* Recovery over whole invocations *******/

  /**
   No function that is not passed over names another datacenter, and the enabled ones among them
   lie in the partitions and namespaces that are synced.
   */
  predicate LocalListing(env: Environment, funcs: Listing, metas: set<EnterpriseMeta>) {
    forall arn :: arn in funcs && EventsOf(env, funcs[arn]) != [] ==>
      && (TagOr(funcs[arn], DATACENTER_TAG, "") == "" || TagOr(funcs[arn], DATACENTER_TAG, "") == env.agentDatacenter)
      && (Enabled(funcs[arn]) ==> EmKey(Meta(env, funcs[arn])) in metas)
  }

  lemma LocalIsGoverned(env: Environment, funcs: Listing, order: seq<string>, metas: set<EnterpriseMeta>, w: World)
    requires (forall arn :: arn in order ==> arn in funcs) && LocalListing(env, funcs, metas)
    requires OwnIds(env, w) && forall k: Key :: k.em in metas ==> !Foreign(env, w, k)
    ensures Governed(env, metas, Collected(env, funcs, order), w)
  {
    hide EventsOf, EventsInOrder, OwnIds, Foreign;
    var desired, events := Collected(env, funcs, order), EventsInOrder(env, funcs, order);
    forall k | k in desired ensures Home(env, desired[k]) && (desired[k].Upsert? ==> k.em in metas) {
      CollectedFrom(events, k);
      InOrder(env, funcs, order, desired[k]);
      var arn :| arn in order && desired[k] in EventsOf(env, funcs[arn]);
      EventShape(env, funcs[arn], desired[k]);
    }
  }

  lemma DesiredIsGoverned(env: Environment, funcs: Listing, metas: set<EnterpriseMeta>, w: World)
    requires LocalListing(env, funcs, metas)
    requires OwnIds(env, w) && forall k: Key :: k.em in metas ==> !Foreign(env, w, k)
    ensures Keyed(env, Desired(env, funcs)) && Governed(env, metas, Desired(env, funcs), w)
  {
    hide LocalListing, OwnIds, Foreign, Governed, Keyed, Collected;
    var any := SomeVisit(funcs.Keys);
    var order :| Visits(order, funcs.Keys) && Desired(env, funcs) == Collected(env, funcs, order);
    assert Visits(order, funcs.Keys);
    LocalIsGoverned(env, funcs, order, metas, w);
    CollectedKeyed(env, funcs, order);
  }

  lemma CompleteListsAll(s: Snapshot)
    requires s.Complete() && s.listed.Some?
    ensures s.Listed() == s.funcs
  {
  }

  /**
   The reconciliations of an invocation of any kind are those the functions call for, if a full
   sync is not given an incomplete listing.
   */
  lemma InvocationFaithful(env: Environment, raw: RawEvent, s: Snapshot, replies: nat -> Replies, w: World,
                           L: seq<Attempt>, v: World, a: Attempt)
    requires Handles(env, raw, s, replies, w, L, v) && a in L
    requires Agreeing(env, s.funcs) && Proper(env, Metas(env, s.namespaces)) && (raw.Scheduled? ==> s.Complete())
    ensures Faithful(Metas(env, s.namespaces), Desired(env, s.funcs), a)
  {
    hide FullSyncEmits, Covers, Proper, Run, Desired, Faithful, RequestedEvents, EventsOf, Snapshot.Listed,
      Snapshot.Retrieved;
    var events :| Asked(env, s, w.catalog, raw, events) && L == Attempts(events, replies);
    if raw.Scheduled? {
      CompleteListsAll(s);
      ScheduledCovers(env, s, w, events, replies);
      CoversFaithfully(env, Metas(env, s.namespaces), Desired(env, s.funcs), w, L, a);
    } else {
      var i :| 0 <= i < |events| && L[i] == a;
      assert a.event in events;
      RetrievedAreThere(env, s, raw.detail);
      RequestFaithful(env, s.funcs, raw.detail, events, a, Metas(env, s.namespaces));
    }
  }

  lemma RetrievedAreThere(env: Environment, s: Snapshot, d: Detail)
    ensures RequestedEvents(env, s.Retrieved(), d).Ok? ==>
              RequestedEvents(env, s.Retrieved(), d) == RequestedEvents(env, s.funcs, d)
  {
  }

  lemma RequestFaithful(env: Environment, funcs: Listing, d: Detail, events: seq<Event>, a: Attempt,
                        metas: set<EnterpriseMeta>)
    requires RequestedEvents(env, funcs, d) == Ok(events) && a.event in events && Agreeing(env, funcs)
    ensures Faithful(metas, Desired(env, funcs), a)
  {
    hide LambdaEvents, Collected;
    var any := SomeVisit(funcs.Keys);
    var order :| Visits(order, funcs.Keys) && Desired(env, funcs) == Collected(env, funcs, order);
    WantsOwnEvent(env, funcs, order, EventArn(d).value, a.event);
  }

  lemma InvocationCovers(env: Environment, s: Snapshot, replies: nat -> Replies, w: World, L: seq<Attempt>, v: World)
    requires Handles(env, Scheduled, s, replies, w, L, v) && CanSync(env, s)
    requires Agreeing(env, s.Listed()) && Proper(env, Metas(env, s.namespaces))
    ensures Covers(env, Metas(env, s.namespaces), Desired(env, s.Listed()), w, L)
  {
    hide FullSyncEmits, Covers, Agreeing, Proper, CanSync, Run, Desired, Snapshot.Listed;
    var events :| Asked(env, s, w.catalog, Scheduled, events) && L == Attempts(events, replies);
    ScheduledCovers(env, s, w, events, replies);
  }

  /** Invocations of any kind, one after the other, each with its own functions, namespaces and answers. */
  ghost predicate Invocations(env: Environment, raws: seq<RawEvent>, ss: seq<Snapshot>, rs: seq<nat -> Replies>,
                              ws: seq<World>, Ls: seq<seq<Attempt>>) {
    && |ws| - 1 == |Ls| == |rs| == |ss| == |raws|
    && forall i :: 0 <= i < |ss| ==> Handles(env, raws[i], ss[i], rs[i], ws[i], Ls[i], ws[i + 1])
  }

  /** The functions and namespaces stay the same, and no full sync is given an incomplete listing. */
  ghost predicate Unchanging(funcs: Listing, namespaces: Namespaces, raws: seq<RawEvent>, ss: seq<Snapshot>)
    requires |raws| == |ss|
  {
    forall i :: 0 <= i < |ss| ==>
      && ss[i].funcs == funcs && ss[i].namespaces == namespaces
      && (raws[i].Scheduled? ==> ss[i].Complete())
  }

  lemma InvocationsAreHistory(env: Environment, funcs: Listing, namespaces: Namespaces, raws: seq<RawEvent>,
                              ss: seq<Snapshot>, rs: seq<nat -> Replies>, ws: seq<World>, Ls: seq<seq<Attempt>>)
    requires Invocations(env, raws, ss, rs, ws, Ls) && Unchanging(funcs, namespaces, raws, ss)
    requires Agreeing(env, funcs) && Proper(env, Metas(env, namespaces))
    ensures History(env, Metas(env, namespaces), Desired(env, funcs), ws, Ls)
  {
    hide Agreeing, Proper, Metas, Desired, Faithful, Asked, Answerable, Run, Snapshot.Complete;
    forall i | 0 <= i < |ss|
      ensures forall a :: a in Ls[i] ==> Faithful(Metas(env, namespaces), Desired(env, funcs), a)
    {
      forall a | a in Ls[i] ensures Faithful(Metas(env, namespaces), Desired(env, funcs), a) {
        InvocationFaithful(env, raws[i], ss[i], rs[i], ws[i], Ls[i], ws[i + 1], a);
      }
    }
    InvocationsAreChain(env, raws, ss, rs, ws, Ls);
  }

  lemma InvocationsAreChain(env: Environment, raws: seq<RawEvent>, ss: seq<Snapshot>, rs: seq<nat -> Replies>,
                            ws: seq<World>, Ls: seq<seq<Attempt>>)
    requires Invocations(env, raws, ss, rs, ws, Ls)
    ensures Chain(env, ws, Ls)
  {
    hide Asked, Answerable, Run;
    assert forall i :: 0 <= i < |ss| ==> ws[i + 1] == Run(env, ws[i], Ls[i]);
  }

  /** The last invocation is a full sync that can read everything, and whose catalog steps all take effect. */
  ghost predicate EndsInSync(env: Environment, raws: seq<RawEvent>, ss: seq<Snapshot>, Ls: seq<seq<Attempt>>)
    requires |Ls| == |ss| == |raws|
  {
    && ss != [] && raws[|ss| - 1] == Scheduled && CanSync(env, ss[|ss| - 1])
    && forall a :: a in Ls[|ss| - 1] ==> Commits(a.replies)
  }

  /** What is asked of the functions, the namespaces and the state before. */
  ghost predicate Premises(env: Environment, funcs: Listing, namespaces: Namespaces, w: World) {
    && Agreeing(env, funcs) && LocalListing(env, funcs, Metas(env, namespaces))
    && (env.isEnterprise ==> Named(env, namespaces))
    && OwnIds(env, w) && forall k: Key :: k.em in Metas(env, namespaces) ==> !Foreign(env, w, k)
  }

  /**
   Any number of invocations of any kind over unchanged functions and namespaces and complete
   listings, each of which may fail to read what it needs and to carry out any part of any event:
   one scheduled invocation whose catalog steps all take effect repairs everything. One that
   returns without an error is such an invocation.
   */
  lemma InvocationsRecover(env: Environment, funcs: Listing, namespaces: Namespaces, raws: seq<RawEvent>,
                           ss: seq<Snapshot>, rs: seq<nat -> Replies>, ws: seq<World>, Ls: seq<seq<Attempt>>)
    requires Invocations(env, raws, ss, rs, ws, Ls) && Unchanging(funcs, namespaces, raws, ss)
    requires EndsInSync(env, raws, ss, Ls) && Premises(env, funcs, namespaces, ws[0])
    requires forall k :: k in EnabledKeys(Desired(env, funcs)) && k in ManagedIn(env, Metas(env, namespaces), ws[0]) ==>
               HasDefaults(env, ws[0], k)
    ensures Recovered(env, Metas(env, namespaces), Desired(env, funcs), ws)
  {
    hide Covers, Run, CanSync, Proper, Governed, Agreeing, LocalListing, Keyed, Handles, Metas, Desired, OwnIds,
      Foreign, ManagedIn, HasDefaults, Commits, Recovered, History, Named, Snapshot.Listed;
    MetasProper(env, namespaces);
    InvocationsAreHistory(env, funcs, namespaces, raws, ss, rs, ws, Ls);
    DesiredIsGoverned(env, funcs, Metas(env, namespaces), ws[0]);
    var n := |ss| - 1;
    SyncsListAll(env, ss[n]);
    InvocationCovers(env, ss[n], rs[n], ws[n], Ls[n], ws[n + 1]);
    CrashRecovery(env, Metas(env, namespaces), Desired(env, funcs), ws, Ls);
  }

  lemma SyncsListAll(env: Environment, s: Snapshot)
    requires CanSync(env, s) && s.Complete()
    ensures s.Listed() == s.funcs
  {
  }

  /**
   Any number of invocations of any kind, with functions, listings and namespaces that differ from
   one to the next. A scheduled one whose catalog steps all take effect leaves exactly the enabled
   names of its own listing managed, and gives them all their defaults if and only if those that
   were managed had theirs when it began.
   */
  lemma SyncAfterAnything(env: Environment, raws: seq<RawEvent>, ss: seq<Snapshot>, rs: seq<nat -> Replies>,
                          ws: seq<World>, Ls: seq<seq<Attempt>>, n: nat)
    requires Invocations(env, raws, ss, rs, ws, Ls) && EndsInSync(env, raws, ss, Ls) && n == |ss| - 1
    requires Premises(env, ss[n].Listed(), ss[n].namespaces, ws[0])
    ensures
      var metas, desired := Metas(env, ss[n].namespaces), Desired(env, ss[n].Listed());
      && Synced(env, metas, desired, ws[n], ws[n + 1])
      && ((forall k :: k in EnabledKeys(desired) ==> HasDefaults(env, ws[n + 1], k)) <==>
          (forall k :: k in EnabledKeys(desired) * ManagedIn(env, metas, ws[n]) ==> HasDefaults(env, ws[n], k)))
  {
    hide Covers, Run, CanSync, Proper, Governed, Agreeing, LocalListing, Keyed, Metas, Desired, OwnIds, Foreign,
      ManagedIn, HasDefaults, Commits, Synced, Named, Snapshot.Listed, Asked, Answerable;
    var metas, desired := Metas(env, ss[n].namespaces), Desired(env, ss[n].Listed());
    InvocationsAreChain(env, raws, ss, rs, ws, Ls);
    ChainIsOneRun(env, ws[..n + 1], Ls[..n]);
    MetasProper(env, ss[n].namespaces);
    DesiredIsGoverned(env, ss[n].Listed(), metas, ws[0]);
    GovernedKept(env, metas, desired, ws[0], Joined(Ls[..n]));
    InvocationCovers(env, ss[n], rs[n], ws[n], Ls[n], ws[n + 1]);
    SyncRepairs(env, metas, desired, ws[n], Ls[n]);
  }

  /******* A listing that leaves out a function *******/

  /** The defaults go, and the catalog entry stays. */
  const HALF_DELETED := Replies(Applied, Refused, None, None, Refused)

  /** Nothing but one enabled function's service is registered, and it has its defaults. */
  function OnlyService(env: Environment, e: Event): World
    requires e.Upsert?
  {
    World(map[HomeSlot(env, KeyOf(e)) := Registration(e.service.name)],
          map[HomeDefaults(env, KeyOf(e)) := e.args],
          map[])
  }

  lemma OnlyServiceManaged(env: Environment, metas: set<EnterpriseMeta>, e: Event)
    requires e.Upsert? && Proper(env, metas) && KeyOf(e).em in metas
    ensures ManagedIn(env, metas, OnlyService(env, e)) == {KeyOf(e)}
    ensures OwnIds(env, OnlyService(env, e)) && forall k: Key :: !Foreign(env, OnlyService(env, e), k)
  {
    var w, k := OnlyService(env, e), KeyOf(e);
    forall j ensures j in ManagedIn(env, metas, w) <==> j == k {
      ManagedSplits(env, metas, w, j);
      if Own(env, w, j) {
        assert HomeSlot(env, j) == HomeSlot(env, k);
      }
    }
  }

  /** What a full sync over no functions attempts there. */
  lemma DeletesOnlyService(env: Environment, namespaces: Namespaces, funcs: Listing, e: Event, r: Replies)
    returns (L: seq<Attempt>)
    requires e.Upsert? && Proper(env, Metas(env, namespaces)) && KeyOf(e).em in Metas(env, namespaces)
    requires env.isEnterprise ==> env.partitions <= namespaces.Keys
    ensures L == [Attempt(EventFor(map[], KeyOf(e)), r)]
    ensures
      var w, s := OnlyService(env, e), Snapshot(funcs, Some({}), {}, namespaces, {});
      Handles(env, Scheduled, s, _ => r, w, L, Run(env, w, L))
  {
    var metas, w, k := Metas(env, namespaces), OnlyService(env, e), KeyOf(e);
    var s := Snapshot(funcs, Some({}), {}, namespaces, {});
    OnlyServiceManaged(env, metas, e);
    hide ManagedKeys, Run, Metas, Proper;
    var events := [EventFor(map[], k)];
    L := Attempts(events, _ => r);
    assert s.Listed() == map[];
    var order: seq<string> := [];
    assert Visits(order, s.Listed().Keys) && Collected(env, s.Listed(), order) == map[];
    assert Visits([k], Pending(map[], ManagedKeys(env, w.catalog, metas)));
    assert events == EventsFor(map[], [k]);
    assert Asked(env, s, w.catalog, Scheduled, events);
  }

  /**
   Over unchanged functions, one listing that leaves out an enabled function whose service is
   registered, and one refused request, leave that service managed without defaults. No full sync
   of the functions repairs that.
   */
  lemma DroppedFunctionSpoils(env: Environment, namespaces: Namespaces, funcs: Listing, arn: string, e: Event)
    returns (L: seq<Attempt>)
    requires Agreeing(env, funcs) && LocalListing(env, funcs, Metas(env, namespaces))
    requires Proper(env, Metas(env, namespaces)) && (env.isEnterprise ==> env.partitions <= namespaces.Keys)
    requires arn in funcs && Enabled(funcs[arn]) && e in EventsOf(env, funcs[arn])
    ensures
      var metas, desired, k := Metas(env, namespaces), Desired(env, funcs), KeyOf(e);
      var w, s := OnlyService(env, e), Snapshot(funcs, Some({}), {}, namespaces, {});
      var v := Run(env, w, L);
      && Handles(env, Scheduled, s, _ => HALF_DELETED, w, L, v)
      && HasDefaults(env, w, k) && !HasDefaults(env, v, k)
      && k in EnabledKeys(desired) && k in ManagedIn(env, metas, v)
      && Governed(env, metas, desired, v)
  {
    hide LocalListing, Desired;
    var metas, desired, k := Metas(env, namespaces), Desired(env, funcs), KeyOf(e);
    var w := OnlyService(env, e);
    EventShape(env, funcs[arn], e);
    EnabledIsWanted(env, funcs, metas, arn, e);
    OnlyServiceManaged(env, metas, e);
    L := DeletesOnlyService(env, namespaces, funcs, e, HALF_DELETED);
    DesiredIsGoverned(env, funcs, metas, w);
    GovernedKept(env, metas, desired, w, L);
    HalfDeleted(env, metas, w, L[0], k);
    RunOneMore(env, w, [], L[0]);
    assert [] + [L[0]] == L;
  }

  lemma EnabledIsWanted(env: Environment, funcs: Listing, metas: set<EnterpriseMeta>, arn: string, e: Event)
    requires Agreeing(env, funcs) && LocalListing(env, funcs, metas)
    requires arn in funcs && Enabled(funcs[arn]) && e in EventsOf(env, funcs[arn])
    ensures e.Upsert? && KeyOf(e) in EnabledKeys(Desired(env, funcs)) && KeyOf(e).em in metas
  {
    hide EventsOf, Collected;
    EventShape(env, funcs[arn], e);
    var any := SomeVisit(funcs.Keys);
    var order :| Visits(order, funcs.Keys) && Desired(env, funcs) == Collected(env, funcs, order);
    WantsOwnEvent(env, funcs, order, arn, e);
  }

  lemma HalfDeleted(env: Environment, metas: set<EnterpriseMeta>, w: World, a: Attempt, k: Key)
    requires Proper(env, metas) && k.em in metas && a == Attempt(EventFor(map[], k), HALF_DELETED)
    ensures Step(env, w, a).catalog == w.catalog
    ensures !HasDefaults(env, Step(env, w, a), k)
  {
    EventForKey(env, metas, map[], k);
    assert DefaultsSlot(env, a.event) == HomeDefaults(env, k);
  }

  /******* Enabling and then disabling a function *******/

  /** The same function with another value, or none, for the enabled tag. */
  ghost predicate Switched(fn: LambdaFunction, off: LambdaFunction) {
    && fn.name == off.name && fn.arn == off.arn
    && Enabled(fn) && !Enabled(off)
    && fn.tags - {ENABLED_TAG} == off.tags - {ENABLED_TAG}
  }

  lemma OtherTag(fn: LambdaFunction, off: LambdaFunction, tag: string)
    requires fn.tags - {ENABLED_TAG} == off.tags - {ENABLED_TAG} && tag != ENABLED_TAG
    ensures Lookup(fn.tags, tag) == Lookup(off.tags, tag)
    ensures TagOr(fn, tag, "") == TagOr(off, tag, "")
    ensures TagOr(fn, tag, SYNCHRONOUS) == TagOr(off, tag, SYNCHRONOUS)
  {
    assert Lookup(fn.tags, tag) == Lookup(fn.tags - {ENABLED_TAG}, tag);
    assert Lookup(off.tags, tag) == Lookup(off.tags - {ENABLED_TAG}, tag);
  }

  /** The upserts of the enabled function and the deletes of the disabled one are about the same services. */
  lemma SwitchedServices(env: Environment, fn: LambdaFunction, off: LambdaFunction)
    requires Switched(fn, off)
    ensures |EventsOf(env, fn)| == |EventsOf(env, off)|
    ensures forall i :: 0 <= i < |EventsOf(env, fn)| ==>
              && EventsOf(env, fn)[i].service == EventsOf(env, off)[i].service
              && EventsOf(env, fn)[i].Upsert? && EventsOf(env, off)[i].Delete?
  {
    TagsDiffer();
    OtherTag(fn, off, DATACENTER_TAG);
    OtherTag(fn, off, INVOCATION_MODE_TAG);
    OtherTag(fn, off, PARTITION_TAG);
    OtherTag(fn, off, NAMESPACE_TAG);
    OtherTag(fn, off, ALIASES_TAG);
    SwitchedVerdict(env, fn, off);
    if LambdaEvents(env, fn).Ok? && EventsOf(env, fn) != [] {
      assert EventsOf(env, fn) == WithAliases(BaseEvent(env, fn), Aliases(fn));
      assert EventsOf(env, off) == WithAliases(BaseEvent(env, off), Aliases(off));
    }
  }

  lemma SwitchedVerdict(env: Environment, fn: LambdaFunction, off: LambdaFunction)
    requires Switched(fn, off)
    requires forall t :: t in {DATACENTER_TAG, PARTITION_TAG, NAMESPACE_TAG} ==> TagOr(fn, t, "") == TagOr(off, t, "")
    requires Mode(fn) == Mode(off) && Lookup(fn.tags, ALIASES_TAG) == Lookup(off.tags, ALIASES_TAG)
    ensures LambdaEvents(env, fn).Ok? == LambdaEvents(env, off).Ok?
    ensures EventsOf(env, fn) == [] <==> EventsOf(env, off) == []
    ensures Aliases(fn) == Aliases(off)
    ensures BaseEvent(env, fn).service == BaseEvent(env, off).service
  {
    assert DATACENTER_TAG in {DATACENTER_TAG, PARTITION_TAG, NAMESPACE_TAG};
    assert PARTITION_TAG in {DATACENTER_TAG, PARTITION_TAG, NAMESPACE_TAG};
    assert NAMESPACE_TAG in {DATACENTER_TAG, PARTITION_TAG, NAMESPACE_TAG};
  }

  /** The state without everything kept for the services of some events. */
  function Without(env: Environment, w: World, events: seq<Event>): World {
    World(w.catalog - (set e | e in events :: CatalogSlot(env, e)),
          w.defaults - (set e | e in events :: DefaultsSlot(env, e)),
          if env.IsManagingTLS() then w.params - (set e | e in events :: ParamSlot(env, e)) else w.params)
  }

  predicate HoldsNone(env: Environment, w: World, events: seq<Event>) {
    forall e :: e in events ==>
      && CatalogSlot(env, e) !in w.catalog
      && DefaultsSlot(env, e) !in w.defaults
      && (env.IsManagingTLS() ==> ParamSlot(env, e) !in w.params)
  }

  /** Every upsert has a delete of the same service, and the deletes succeed. */
  ghost predicate Undoes(env: Environment, U: seq<Attempt>, D: seq<Attempt>) {
    && (forall d :: d in D ==> d.event.Delete? && Succeeds(env, d))
    && (forall u :: u in U ==> exists d :: d in D && d.event.service == u.event.service)
  }

  lemma CatalogErased(env: Environment, w: World, U: seq<Attempt>, D: seq<Attempt>)
    requires Undoes(env, U, D)
    ensures Run(env, Run(env, w, U), D).catalog == w.catalog - (set d | d in D :: CatalogSlot(env, d.event))
  {
    RunCatalog(env, w, U);
    RunCatalog(env, Run(env, w, U), D);
    hide Run, Mapped, UpdateAll;
    MappedErased(w.catalog, U, D, CatalogWrite(env));
    assert (set d | d in D :: CatalogWrite(env)(d).key) == (set d | d in D :: CatalogSlot(env, d.event));
  }

  lemma DefaultsErased(env: Environment, w: World, U: seq<Attempt>, D: seq<Attempt>)
    requires Undoes(env, U, D)
    ensures Run(env, Run(env, w, U), D).defaults == w.defaults - (set d | d in D :: DefaultsSlot(env, d.event))
  {
    RunDefaults(env, w, U);
    RunDefaults(env, Run(env, w, U), D);
    hide Run, Mapped, UpdateAll;
    MappedErased(w.defaults, U, D, DefaultsWrite(env));
    assert (set d | d in D :: DefaultsWrite(env)(d).key) == (set d | d in D :: DefaultsSlot(env, d.event));
  }

  lemma ParamsErased(env: Environment, w: World, U: seq<Attempt>, D: seq<Attempt>)
    requires Undoes(env, U, D)
    ensures Run(env, Run(env, w, U), D).params
            == if env.IsManagingTLS() then w.params - (set d | d in D :: ParamSlot(env, d.event)) else w.params
  {
    RunParam(env, w, U);
    RunParam(env, Run(env, w, U), D);
    hide Run, Mapped, UpdateAll;
    if env.IsManagingTLS() {
      MappedErased(w.params, U, D, ParamWrite(env));
      assert (set d | d in D :: ParamWrite(env)(d).key) == (set d | d in D :: ParamSlot(env, d.event));
    } else {
      ParamsUntouched(env, w.params, U);
      ParamsUntouched(env, w.params, D);
    }
  }

  lemma ParamsUntouched(env: Environment, params: map<string, ExtensionData>, L: seq<Attempt>)
    requires !env.IsManagingTLS()
    ensures UpdateAll(params, Mapped(L, ParamWrite(env))) == params
  {
    forall k ensures Lookup(UpdateAll(params, Mapped(L, ParamWrite(env))), k) == Lookup(params, k) {
      MappedUntouched(params, L, ParamWrite(env), k);
    }
    SameMaps(UpdateAll(params, Mapped(L, ParamWrite(env))), params);
  }

  /**
   Enabling a function and then disabling it, aliases included, restores the state exactly
   when the state held nothing for the function's services to begin with. Only the deletes
   need to succeed.
   */
  lemma EnableThenDisable(env: Environment, w: World, fn: LambdaFunction, off: LambdaFunction,
                          up: nat -> Replies, down: nat -> Replies)
    requires Switched(fn, off)
    requires forall d :: d in Attempts(EventsOf(env, off), down) ==> Succeeds(env, d)
    ensures
      var U, D := Attempts(EventsOf(env, fn), up), Attempts(EventsOf(env, off), down);
      && Run(env, Run(env, w, U), D) == Without(env, w, EventsOf(env, off))
      && (Run(env, Run(env, w, U), D) == w <==> HoldsNone(env, w, EventsOf(env, off)))
  {
    hide Run, EventsOf, Switched, Succeeds, CatalogSlot, DefaultsSlot, ParamSlot;
    var U, D := Attempts(EventsOf(env, fn), up), Attempts(EventsOf(env, off), down);
    SwitchedServices(env, fn, off);
    forall d | d in D ensures d.event.Delete? && d.event in EventsOf(env, off) {
      var i :| 0 <= i < |D| && D[i] == d;
    }
    forall u | u in U ensures exists d :: d in D && d.event.service == u.event.service {
      var i :| 0 <= i < |U| && U[i] == u;
      assert D[i] in D;
    }
    CatalogErased(env, w, U, D);
    DefaultsErased(env, w, U, D);
    ParamsErased(env, w, U, D);
    forall e | e in EventsOf(env, off) ensures exists d :: d in D && d.event == e {
      var i :| 0 <= i < |D| && EventsOf(env, off)[i] == e;
      assert D[i] in D;
    }
    assert (set d | d in D :: CatalogSlot(env, d.event)) == (set e | e in EventsOf(env, off) :: CatalogSlot(env, e));
    assert (set d | d in D :: DefaultsSlot(env, d.event)) == (set e | e in EventsOf(env, off) :: DefaultsSlot(env, e));
    assert (set d | d in D :: ParamSlot(env, d.event)) == (set e | e in EventsOf(env, off) :: ParamSlot(env, e));
    WithoutNothing(env, w, EventsOf(env, off));
  }

  lemma WithoutNothing(env: Environment, w: World, events: seq<Event>)
    ensures Without(env, w, events) == w <==> HoldsNone(env, w, events)
  {
    var v := Without(env, w, events);
    if v == w {
      forall e | e in events
        ensures CatalogSlot(env, e) !in w.catalog && DefaultsSlot(env, e) !in w.defaults
        ensures env.IsManagingTLS() ==> ParamSlot(env, e) !in w.params
      {
        assert CatalogSlot(env, e) !in v.catalog && DefaultsSlot(env, e) !in v.defaults;
        assert env.IsManagingTLS() ==> ParamSlot(env, e) !in v.params;
      }
    }
    if HoldsNone(env, w, events) {
      assert v.catalog == w.catalog;
      assert v.defaults == w.defaults;
      assert v.params == w.params;
    }
  }

  /******* The parameter that ties registrator and extension *******/

  /** The key under which an extension with this configuration looks for its data. */
  function ExtensionKey(prefix: string, name: string, ap: string, ns: string): string {
    prefix + NamedService(NewEnterpriseMeta(ap, ns), name, "").ExtensionPath()
  }

  /**
   An upsert read off a function's tags, the delete of the same service, the delete a full
   sync builds from the catalog alone, and an extension configured with the same partition,
   namespace and prefix all use one parameter.
   */
  lemma OneParameter(env: Environment, fn: LambdaFunction, e: Event)
    requires e in EventsOf(env, fn)
    ensures ParamSlot(env, e) == ParamSlot(env, Delete(e.service))
    ensures ParamSlot(env, e) == ParamSlot(env, EventFor(map[], KeyOf(e)))
    ensures ParamSlot(env, e) == ExtensionKey(env.extensionDataPrefix, e.service.name,
                                              TagOr(fn, PARTITION_TAG, ""), TagOr(fn, NAMESPACE_TAG, ""))
  {
    EventShape(env, fn, e);
  }
}
