/**
 Whole invocations, from tags, event details and what can be read to the contents of the stores.
 */
module Outcomes {
  import opened Wrappers
  import opened Structs
  import opened Slots
  import opened Events
  import opened Consul
  import opened FullSync
  import opened Invocation
  import opened Collection
  import opened Recovery
  import opened Agreement
  import opened Effects

  /******* Which invocations are answered *******/

  /**
   The API event reports no failure and names the function: a create event as what was created, a
   tag event as the resource.
   */
  predicate About(d: Detail, arn: string) {
    && d.errorCode == "" && arn != ""
    && (|| ((d.eventName == "CreateFunction20150331" || d.eventName == "CreateFunction") && d.functionArn == arn)
        || ((|| d.eventName == "TagResource20170331v2" || d.eventName == "TagResource20170331"
             || d.eventName == "TagResource" || d.eventName == "UntagResource20170331v2"
             || d.eventName == "UntagResource20170331" || d.eventName == "UntagResource")
            && d.resource == arn))
  }

  /** The places a full sync looks at. */
  predicate SyncedPlace(env: Environment, namespaces: Namespaces, em: EnterpriseMeta) {
    if env.isEnterprise then em.ap in env.partitions && em.ap in namespaces && em.ns in namespaces[em.ap]
    else em == EnterpriseMeta("", "")
  }

  /** Everything can be read, and no function that is not passed over has an invalid invocation mode. */
  predicate Readable(env: Environment, s: Snapshot) {
    && s.listed.Some?
    && (forall arn :: arn in s.Listed() ==> PassedOver(env, s.Listed()[arn]) || ModeOk(s.Listed()[arn]))
    && (env.isEnterprise ==> forall p :: p in env.partitions ==> p in s.namespaces)
    && (forall em :: em in s.unreadable ==> !SyncedPlace(env, s.namespaces, em))
  }

  /** The function is not rejected; in particular, with Enterprise tags it is only rejected without Enterprise. */
  predicate Acceptable(env: Environment, fn: LambdaFunction) {
    PassedOver(env, fn) || (ModeOk(fn) && (env.isEnterprise || Admitted(env, fn)))
  }

  ghost predicate Answered(env: Environment, s: Snapshot, raw: RawEvent) {
    match raw
    case Scheduled => Readable(env, s)
    case LambdaApi(d) =>
      || d.errorCode != ""
      || exists arn :: About(d, arn) && arn in s.funcs && arn in s.retrievable && Acceptable(env, s.funcs[arn])
    case NoSource => false
    case OtherSource(_) => false
  }

  lemma PlacesAreMetas(env: Environment, namespaces: Namespaces, em: EnterpriseMeta)
    ensures em in Metas(env, namespaces) <==> SyncedPlace(env, namespaces, em)
  {
    assert em == EnterpriseMeta(em.ns, em.ap);
  }

  /**
   A full sync is stopped by a listing or a query that fails and by an invalid invocation mode,
   and by nothing else: functions with enterprise tags do not stop it.
   */
  lemma SyncRuns(env: Environment, s: Snapshot)
    ensures CanSync(env, s) <==> Readable(env, s)
  {
    forall em ensures em in Metas(env, s.namespaces) <==> SyncedPlace(env, s.namespaces, em) {
      PlacesAreMetas(env, s.namespaces, em);
    }
    forall arn | arn in s.Listed()
      ensures Tolerated(env, s.Listed()[arn]) <==> PassedOver(env, s.Listed()[arn]) || ModeOk(s.Listed()[arn])
    {
      Verdicts(env, s.Listed()[arn]);
    }
    hide Tolerated, PassedOver, ModeOk, Metas, SyncedPlace;
  }

  lemma AboutIsArn(d: Detail, arn: string)
    ensures About(d, arn) <==> d.errorCode == "" && EventArn(d) == Ok(arn)
  {
  }

  lemma RequestVerdict(env: Environment, s: Snapshot, d: Detail, arn: string)
    requires About(d, arn)
    ensures
      var r := RequestedEvents(env, s.Retrieved(), d);
      if arn in s.funcs && arn in s.retrievable && Acceptable(env, s.funcs[arn])
      then r == Ok(EventsOf(env, s.funcs[arn])) else r.Err?
  {
    AboutIsArn(d, arn);
    if arn in s.funcs {
      Verdicts(env, s.funcs[arn]);
    }
    hide LambdaEvents, EventArn;
  }

  /** Which error an API event gets that is not answered. */
  lemma RequestErrors(env: Environment, funcs: Listing, d: Detail)
    ensures ArnEvents(env, funcs, d) == Err(UnsupportedKind) <==>
            forall arn :: arn != "" ==> !About(Renamed(d, arn), arn)
    ensures ArnEvents(env, funcs, d) == Err(ArnUndefined) <==>
            (exists arn :: About(Renamed(d, arn), arn)) && !exists arn :: About(d.(errorCode := ""), arn)
    ensures forall arn :: About(d.(errorCode := ""), arn) && arn !in funcs ==>
              ArnEvents(env, funcs, d) == Err(NoFunction)
  {
    AboutIsArn(Renamed(d, "x"), "x");
    forall arn ensures About(Renamed(d, arn), arn) <==> EventArn(Renamed(d, arn)) == Ok(arn) {
      AboutIsArn(Renamed(d, arn), arn);
    }
    forall arn ensures About(d.(errorCode := ""), arn) <==> EventArn(d) == Ok(arn) {
      AboutIsArn(d.(errorCode := ""), arn);
    }
    hide About, LambdaEvents;
    assert About(Renamed(d, "x"), "x") <==> d.eventName in CREATE_NAMES || d.eventName in TAG_NAMES;
  }

  /** The same kind of event about another function. */
  function Renamed(d: Detail, arn: string): Detail {
    Detail("", d.eventName, arn, arn)
  }

  /** Exactly these invocations are answered. */
  lemma AnsweredExactly(env: Environment, s: Snapshot, raw: RawEvent)
    ensures Answerable(env, s, raw) <==> Answered(env, s, raw)
  {
    SyncRuns(env, s);
    if raw.LambdaApi? && raw.detail.errorCode == "" {
      var d := raw.detail;
      if EventArn(d).Ok? {
        AboutIsArn(d, EventArn(d).value);
        RequestVerdict(env, s, d, EventArn(d).value);
      }
      forall arn | About(d, arn) ensures EventArn(d) == Ok(arn) {
        AboutIsArn(d, arn);
      }
    }
    hide CanSync, Readable, LambdaEvents, EventArn, About, Acceptable;
  }

  /** All others attempt nothing, and neither does one about an API call that failed. */
  lemma NothingAttempted(env: Environment, raw: RawEvent, s: Snapshot, replies: nat -> Replies, w: World,
                         L: seq<Attempt>, v: World)
    requires Handles(env, raw, s, replies, w, L, v)
    requires !Answered(env, s, raw) || (raw.LambdaApi? && raw.detail.errorCode != "")
    ensures L == [] && v == w
  {
    AnsweredExactly(env, s, raw);
    hide Answered, CanSync, FullSyncEmits, LambdaEvents;
    RunNothing(env, w);
  }

  /** So one listed function with an invalid invocation mode keeps a full sync from doing anything. */
  lemma InvalidModeStops(env: Environment, s: Snapshot, replies: nat -> Replies, w: World, L: seq<Attempt>, v: World,
                         arn: string)
    requires Handles(env, Scheduled, s, replies, w, L, v)
    requires arn in s.Listed() && !PassedOver(env, s.Listed()[arn]) && !ModeOk(s.Listed()[arn])
    ensures !CanSync(env, s) && L == [] && v == w
  {
    SyncRuns(env, s);
    NothingAttempted(env, Scheduled, s, replies, w, L, v);
  }

  /******* Invocations about one function *******/

  /** They attempt the events of the function the event is about. */
  lemma RequestAttempts(env: Environment, s: Snapshot, d: Detail, arn: string, replies: nat -> Replies, w: World,
                        L: seq<Attempt>, v: World)
    requires Handles(env, LambdaApi(d), s, replies, w, L, v)
    requires About(d, arn) && arn in s.funcs && arn in s.retrievable
    ensures v == Run(env, w, L)
    ensures L == Attempts(if Acceptable(env, s.funcs[arn]) then EventsOf(env, s.funcs[arn]) else [], replies)
  {
    RequestVerdict(env, s, d, arn);
    hide EventsOf, RequestedEvents, Run, About, Acceptable;
  }

  lemma HandledIsAcceptable(env: Environment, fn: LambdaFunction)
    ensures Handled(env, fn) ==> Acceptable(env, fn)
    ensures !Acceptable(env, fn) ==> EventsOf(env, fn) == []
  {
    Verdicts(env, fn);
  }

  /** An invocation without an error about an enabled function registers each of its names. */
  lemma RequestRegisters(env: Environment, s: Snapshot, d: Detail, arn: string, replies: nat -> Replies, w: World,
                         L: seq<Attempt>, v: World, name: string, nameArn: string)
    requires Handles(env, LambdaApi(d), s, replies, w, L, v) && forall a :: a in L ==> Succeeds(env, a)
    requires About(d, arn) && arn in s.funcs && arn in s.retrievable
    requires Handled(env, s.funcs[arn]) && On(s.funcs[arn]) && Registers(s.funcs[arn], name, nameArn)
    ensures
      var fn := s.funcs[arn];
      && Registered(env, v, fn, name, nameArn)
      && (env.extensionDataPrefix != "" ==>
            && FunctionPath(env, fn, name) in v.params
            && exists a :: a in L && DataFrom(a.replies, v.params[FunctionPath(env, fn, name)]))
  {
    HandledIsAcceptable(env, s.funcs[arn]);
    RequestAttempts(env, s, d, arn, replies, w, L, v);
    hide EventsOf, Handles, About, Acceptable, Handled, On, Registers, Registered, Run, FunctionPath, DataFrom,
        Succeeds;
    FunctionRegistered(env, w, s.funcs[arn], replies, name, nameArn);
  }

  /** One about a function that is not enabled leaves nothing of it. */
  lemma RequestDeregisters(env: Environment, s: Snapshot, d: Detail, arn: string, replies: nat -> Replies, w: World,
                           L: seq<Attempt>, v: World, name: string)
    requires Handles(env, LambdaApi(d), s, replies, w, L, v) && forall a :: a in L ==> Succeeds(env, a)
    requires About(d, arn) && arn in s.funcs && arn in s.retrievable
    requires Handled(env, s.funcs[arn]) && !On(s.funcs[arn]) && Claims(s.funcs[arn], name)
    ensures Gone(env, v, s.funcs[arn], name)
    ensures env.extensionDataPrefix != "" ==> FunctionPath(env, s.funcs[arn], name) !in v.params
  {
    HandledIsAcceptable(env, s.funcs[arn]);
    RequestAttempts(env, s, d, arn, replies, w, L, v);
    hide EventsOf, Handles, About, Acceptable, Handled, On, Claims, Gone, Run, FunctionPath, Succeeds;
    FunctionGone(env, w, s.funcs[arn], replies, name);
  }

  /**
   After an invocation about a function whose catalog steps all take effect, a full sync over any
   listing that holds the function unchanged has nothing left to do for its names, except where
   the event could not settle the disagreement.
   */
  lemma RequestAgrees(env: Environment, metas: set<EnterpriseMeta>, s: Snapshot, d: Detail, arn: string,
                      replies: nat -> Replies, w: World, L: seq<Attempt>, v: World, funcs: Listing, order: seq<string>,
                      e: Event)
    requires Handles(env, LambdaApi(d), s, replies, w, L, v) && forall a :: a in L ==> Commits(a.replies)
    requires About(d, arn) && arn in s.funcs && arn in s.retrievable && e in EventsOf(env, s.funcs[arn])
    requires Proper(env, metas) && OwnIds(env, w)
    requires Visits(order, funcs.Keys) && arn in funcs && funcs[arn] == s.funcs[arn]
    requires Unchallenged(env, funcs, funcs[arn])
    ensures
      var desired := Collected(env, funcs, order);
      KeyOf(e) in Pending(desired, ManagedIn(env, metas, v)) <==>
      KeyOf(e) in Pending(desired, ManagedIn(env, metas, w)) && !Settles(env, metas, w, e)
  {
    hide EventsOf, Handles, About, Handled, Acceptable, Run, Proper, OwnIds, Visits, Unchallenged, Collected, Pending,
      ManagedIn, Settles, Commits;
    HandledIsAcceptable(env, s.funcs[arn]);
    RequestAttempts(env, s, d, arn, replies, w, L, v);
    AttemptsAreEvents(EventsOf(env, s.funcs[arn]), replies);
    var a := AttemptAt(EventsOf(env, s.funcs[arn]), replies, e);
    EventPathAgrees(env, metas, funcs, order, arn, w, L, a);
  }

  /******* Full syncs *******/

  /** The function, by its tags, is to be registered at this place under this name. */
  predicate Wants(env: Environment, fn: LambdaFunction, em: EnterpriseMeta, name: string) {
    Handled(env, fn) && On(fn) && em == Place(env, fn) && Claims(fn, name)
  }

  /** Some node of the agent's datacenter carries the managed tag for the name. */
  ghost predicate ManagedAt(env: Environment, w: World, em: EnterpriseMeta, name: string) {
    exists c :: c in w.catalog
      && c.scope == Scope(env.agentDatacenter, em)
      && w.catalog[c].service == name && "managed-by-lambda-registrator" in w.catalog[c].tags
  }

  lemma WantsExactly(env: Environment, fn: LambdaFunction, k: Key)
    ensures Wants(env, fn, k.em, k.name) <==> exists e :: e in EventsOf(env, fn) && e.Upsert? && KeyOf(e) == k
  {
    hide EventsOf, Handled, Place, Claims;
    if Wants(env, fn, k.em, k.name) {
      var e := EventFound(env, fn, k.name);
      EventText(env, fn, e);
      PlaceIsKey(env, fn, e);
    }
    if e :| e in EventsOf(env, fn) && e.Upsert? && KeyOf(e) == k {
      EventText(env, fn, e);
      PlaceIsKey(env, fn, e);
    }
  }

  lemma PlaceIsKey(env: Environment, fn: LambdaFunction, e: Event)
    requires e in EventsOf(env, fn)
    ensures KeyOf(e) == Key(Place(env, fn), e.service.name)
  {
    hide EventsOf;
    EventText(env, fn, e);
  }

  lemma WantedKeys(env: Environment, funcs: Listing, k: Key)
    requires Agreeing(env, funcs)
    ensures k in EnabledKeys(Desired(env, funcs)) <==>
            exists arn :: arn in funcs && Wants(env, funcs[arn], k.em, k.name)
  {
    hide EventsOf, Wants, Collected, KeyOf;
    var any := SomeVisit(funcs.Keys);
    var order :| Visits(order, funcs.Keys) && Desired(env, funcs) == Collected(env, funcs, order);
    assert Visits(order, funcs.Keys);
    if arn :| arn in funcs && Wants(env, funcs[arn], k.em, k.name) {
      WantsExactly(env, funcs[arn], k);
      var e :| e in EventsOf(env, funcs[arn]) && e.Upsert? && KeyOf(e) == k;
      WantsOwnEvent(env, funcs, order, arn, e);
    }
    if k in EnabledKeys(Desired(env, funcs)) {
      var arn := Wanting(env, funcs, order, k);
      WantsExactly(env, funcs[arn], k);
    }
  }

  lemma Wanting(env: Environment, funcs: Listing, order: seq<string>, k: Key) returns (arn: string)
    requires (forall a :: a in order ==> a in funcs) && k in Collected(env, funcs, order)
    ensures arn in funcs && Collected(env, funcs, order)[k] in EventsOf(env, funcs[arn])
    ensures KeyOf(Collected(env, funcs, order)[k]) == k
  {
    hide EventsOf;
    var events := EventsInOrder(env, funcs, order);
    CollectedFrom(events, k);
    InOrder(env, funcs, order, Collected(env, funcs, order)[k]);
    arn :| arn in order && Collected(env, funcs, order)[k] in EventsOf(env, funcs[arn]);
  }

  lemma ManagedKeysAt(env: Environment, namespaces: Namespaces, w: World, em: EnterpriseMeta, name: string)
    requires env.isEnterprise ==> Named(env, namespaces)
    requires SyncedPlace(env, namespaces, em)
    ensures Key(em, name) in ManagedIn(env, Metas(env, namespaces), w) <==> ManagedAt(env, w, em, name)
  {
    PlacesAreMetas(env, namespaces, em);
    MetasProper(env, namespaces);
    assert QueryScope(env, em) == Scope(env.agentDatacenter, em);
    assert Key(em, name) in ManagedIn(env, Metas(env, namespaces), w) <==> name in ManagedNames(env, w.catalog, em);
  }

  /** What a full sync whose catalog steps all take effect makes of one name at one place it looks at. */
  ghost predicate Outcome(env: Environment, funcs: Listing, w: World, v: World, em: EnterpriseMeta, name: string) {
    var wanted := exists arn :: arn in funcs && Wants(env, funcs[arn], em, name);
    var slot := DefaultsKey(Scope(env.agentDatacenter, em), name);
    && (ManagedAt(env, v, em, name) <==> wanted)
    && (ManagedAt(env, w, em, name) && wanted ==> Lookup(v.defaults, slot) == Lookup(w.defaults, slot))
    && (ManagedAt(env, w, em, name) && !wanted ==> slot !in v.defaults)
    && (!ManagedAt(env, w, em, name) && wanted ==>
          exists arn, nameArn :: arn in funcs && Wants(env, funcs[arn], em, name)
              && Registers(funcs[arn], name, nameArn)
            && Lookup(v.defaults, slot) == Some(Arguments(funcs[arn], nameArn)))
  }

  /**
   Such a sync leaves a name managed exactly if the tags of some listed function ask for it. New
   names get the arguments the tags give, names that go lose their defaults.
   */
  lemma SyncOutcome(env: Environment, s: Snapshot, replies: nat -> Replies, w: World, L: seq<Attempt>, v: World,
                    em: EnterpriseMeta, name: string)
    requires Handles(env, Scheduled, s, replies, w, L, v) && Readable(env, s)
    requires forall a :: a in L ==> Commits(a.replies)
    requires Premises(env, s.Listed(), s.namespaces, w) && SyncedPlace(env, s.namespaces, em)
    ensures Outcome(env, s.Listed(), w, v, em, name)
  {
    var metas, desired, k := Metas(env, s.namespaces), Desired(env, s.Listed()), Key(em, name);
    SyncRuns(env, s);
    hide Handles, Readable, CanSync, Desired, Metas, ManagedIn, ManagedAt, SyncedPlace, LocalListing, Agreeing, OwnIds,
      Foreign, Wants, Snapshot.Listed, Registers, Arguments, Commits;
    SyncAfterAnything(env, [Scheduled], [s], [replies], [w, v], [L], 0);
    ManagedKeysAt(env, s.namespaces, w, em, name);
    ManagedKeysAt(env, s.namespaces, v, em, name);
    WantedKeys(env, s.Listed(), k);
    assert HomeDefaults(env, k) == DefaultsKey(Scope(env.agentDatacenter, em), name);
    if k in EnabledKeys(desired) {
      var arn, nameArn := WantedArguments(env, s.Listed(), k);
    } else if k in ManagedIn(env, metas, w) {
      assert k in ManagedIn(env, metas, w) - EnabledKeys(desired);
    }
  }

  lemma WantedArguments(env: Environment, funcs: Listing, k: Key) returns (arn: string, nameArn: string)
    requires k in EnabledKeys(Desired(env, funcs))
    ensures arn in funcs && Wants(env, funcs[arn], k.em, k.name) && Registers(funcs[arn], k.name, nameArn)
    ensures Desired(env, funcs)[k].args == Arguments(funcs[arn], nameArn)
  {
    hide EventsOf, Collected, Handled, Place, Claims, Registers, Arguments;
    var any := SomeVisit(funcs.Keys);
    var order :| Visits(order, funcs.Keys) && Desired(env, funcs) == Collected(env, funcs, order);
    assert Visits(order, funcs.Keys);
    arn := Wanting(env, funcs, order, k);
    var e := Desired(env, funcs)[k];
    EventText(env, funcs[arn], e);
    PlaceIsKey(env, funcs[arn], e);
    nameArn := e.args.arn;
  }
}
