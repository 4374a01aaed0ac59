/**
 The full sync: what the listed Lambda functions ask for, what Consul holds, and the events
 that make up the difference. Go's maps are iterated in an arbitrary order.
 */
module FullSync {
  import opened Wrappers
  import opened Structs
  import opened Slots
  import opened Events
  import opened Consul

  type EventMap = map<EnterpriseMeta, map<string, Event>>
  type ServiceMap = map<EnterpriseMeta, set<string>>

  /** Listed functions by ARN. */
  type Listing = map<string, LambdaFunction>

  predicate Distinct<T(==)>(s: seq<T>) {
    forall i, j :: 0 <= i < j < |s| ==> s[i] != s[j]
  }

  /** An order in which the keys of a finite set can be visited. */
  ghost predicate Visits<T(!new)>(order: seq<T>, keys: set<T>) {
    Distinct(order) && forall k :: k in order <==> k in keys
  }

  lemma VisitOne<T(!new)>(order: seq<T>, keys: set<T>, k: T)
    requires Visits(order, keys) && k !in keys
    ensures Visits(order + [k], keys + {k})
  {
    assert forall i :: 0 <= i < |order| ==> order[i] in order;
  }

  lemma {:induction false} SomeVisit<T(!new)>(keys: set<T>) returns (order: seq<T>)
    ensures Visits(order, keys)
  {
    if keys == {} {
      order := [];
    } else {
      var k :| k in keys;
      var rest := SomeVisit(keys - {k});
      VisitOne(rest, keys - {k}, k);
      assert keys - {k} + {k} == keys;
      order := rest + [k];
    }
  }

  /******* What the functions ask for *******/

  function Flat(m: EventMap): map<Key, Event> {
    map em, n | em in m && n in m[em] :: Key(em, n) := m[em][n]
  }

  function Entries(events: seq<Event>): (ws: seq<Write<Key, Event>>)
    ensures |ws| == |events|
  {
    seq(|events|, i requires 0 <= i < |events| => Write(KeyOf(events[i]), Put(events[i])))
  }

  /** The events of the functions with the given ARNs, one function after the other. */
  function EventsInOrder(env: Environment, funcs: Listing, arns: seq<string>): seq<Event>
    requires forall arn :: arn in arns ==> arn in funcs
  {
    if arns == [] then []
    else
      var n := |arns| - 1;
      EventsInOrder(env, funcs, arns[..n]) + EventsOf(env, funcs[arns[n]])
  }

  /** The map of a sync that visits the functions in the given order: later entries replace earlier ones. */
  function Collected(env: Environment, funcs: Listing, arns: seq<string>): map<Key, Event>
    requires forall arn :: arn in arns ==> arn in funcs
  {
    UpdateAll(map[], Entries(EventsInOrder(env, funcs, arns)))
  }

  /** The functions whose error does not spoil the whole sync. */
  predicate Tolerated(env: Environment, fn: LambdaFunction) {
    LambdaEvents(env, fn).Ok? || LambdaEvents(env, fn).error == NotEnterprise
  }

  function Insert(m: EventMap, k: Key, e: Event): EventMap {
    m[k.em := (if k.em in m then m[k.em] else map[])[k.name := e]]
  }

  lemma FlatHas(m: EventMap, k: Key)
    ensures k in Flat(m) <==> k.em in m && k.name in m[k.em]
    ensures k in Flat(m) ==> Flat(m)[k] == m[k.em][k.name]
  {
    assert k == Key(k.em, k.name);
  }

  lemma InsertFlat(m: EventMap, k: Key, e: Event)
    ensures Flat(Insert(m, k, e)) == Flat(m)[k := e]
  {
    hide Flat;
    forall j
      ensures Lookup(Flat(Insert(m, k, e)), j) == Lookup(Flat(m)[k := e], j)
    {
      FlatHas(m, j);
      FlatHas(Insert(m, k, e), j);
    }
    SameMaps(Flat(Insert(m, k, e)), Flat(m)[k := e]);
  }

  lemma OneMoreEntry(m: map<Key, Event>, events: seq<Event>, e: Event)
    ensures UpdateAll(m, Entries(events + [e])) == UpdateAll(m, Entries(events))[KeyOf(e) := e]
  {
    assert Entries(events + [e])[..|events|] == Entries(events);
  }

  /** The nested map under construction, against the events put into it so far. */
  ghost predicate Reflects(m: EventMap, events: seq<Event>) {
    Flat(m) == UpdateAll(map[], Entries(events))
  }

  lemma ReflectsOneMore(m: EventMap, events: seq<Event>, e: Event)
    requires Reflects(m, events)
    ensures Reflects(Insert(m, KeyOf(e), e), events + [e])
  {
    hide Flat, Insert, UpdateAll, Update, Entries;
    OneMoreEntry(map[], events, e);
    InsertFlat(m, KeyOf(e), e);
  }

  /** The inner loop of `getLambdas`, over the events of one function. */
  method AddEvents(m: EventMap, events: seq<Event>, ghost before: seq<Event>) returns (lambdas: EventMap)
    requires Reflects(m, before)
    ensures Reflects(lambdas, before + events)
  {
    hide Reflects;
    lambdas := m;
    ghost var seen := before;
    for i := 0 to |events|
      invariant seen == before + events[..i]
      invariant Reflects(lambdas, seen)
    {
      ReflectsOneMore(lambdas, seen, events[i]);
      lambdas := Insert(lambdas, KeyOf(events[i]), events[i]);
      seen := seen + [events[i]];
    }
    assert seen == before + events;
  }

  lemma VisitNext(env: Environment, funcs: Listing, order: seq<string>, arn: string)
    requires (forall a :: a in order ==> a in funcs) && arn in funcs
    ensures EventsInOrder(env, funcs, order + [arn]) == EventsInOrder(env, funcs, order) + EventsOf(env, funcs[arn])
  {
    assert (order + [arn])[..|order|] == order;
  }

  method GetLambdas(env: Environment, funcs: Listing)
    returns (lambdas: EventMap, errs: seq<SyncError>, ghost order: seq<string>)
    ensures Visits(order, funcs.Keys)
    ensures Flat(lambdas) == Collected(env, funcs, order)
    ensures errs == [] <==> forall arn :: arn in funcs ==> Tolerated(env, funcs[arn])
  {
    hide EventsInOrder, LambdaEvents, Reflects, Flat, UpdateAll, Entries, Distinct, Collected;
    lambdas, errs, order := map[], [], [];
    NothingYet(env, funcs);
    var todo := funcs.Keys;
    while todo != {}
      invariant todo <= funcs.Keys
      invariant Visits(order, funcs.Keys - todo)
      invariant Reflects(lambdas, EventsInOrder(env, funcs, order))
      invariant errs == [] <==> forall arn :: arn in funcs.Keys - todo ==> Tolerated(env, funcs[arn])
      decreases todo
    {
      var arn :| arn in todo;
      VisitOne(order, funcs.Keys - todo, arn);
      assert funcs.Keys - todo + {arn} == funcs.Keys - (todo - {arn});
      ghost var before := EventsInOrder(env, funcs, order);
      VisitNext(env, funcs, order, arn);
      todo, order := todo - {arn}, order + [arn];
      var r := GetLambdaEvents(env, funcs[arn]);
      if r.Err? {
        assert before + [] == before;
        if r.error != NotEnterprise {
          errs := errs + [r.error];
        }
      } else {
        lambdas := AddEvents(lambdas, r.value, before);
      }
    }
    assert funcs.Keys - {} == funcs.Keys;
    ReflectsCollected(env, funcs, order, lambdas);
  }

  lemma NothingYet(env: Environment, funcs: Listing)
    ensures Visits([], funcs.Keys - funcs.Keys)
    ensures Reflects(map[], EventsInOrder(env, funcs, []))
  {
  }

  lemma ReflectsCollected(env: Environment, funcs: Listing, order: seq<string>, lambdas: EventMap)
    requires forall a :: a in order ==> a in funcs
    requires Reflects(lambdas, EventsInOrder(env, funcs, order))
    ensures Flat(lambdas) == Collected(env, funcs, order)
  {
  }

  /******* The partitions and namespaces that are synced *******/

  /** Namespaces by partition, as Consul lists them; a partition that is missing makes the listing fail. */
  type Namespaces = map<string, seq<string>>

  /** The keys of the two maps of a full sync; without Enterprise there is only the blank one. */
  function Metas(env: Environment, namespaces: Namespaces): set<EnterpriseMeta> {
    if env.isEnterprise
    then set p, n | p in env.partitions && p in namespaces && n in namespaces[p] :: EnterpriseMeta(n, p)
    else {NO_META}
  }

  method GetEnterpriseMetas(env: Environment, namespaces: Namespaces)
    returns (r: Result<seq<EnterpriseMeta>, SyncError>)
    ensures r.Ok? <==> (env.isEnterprise ==> env.partitions <= namespaces.Keys)
    ensures r.Ok? ==> forall em :: em in r.value <==> em in Metas(env, namespaces)
  {
    var metas: seq<EnterpriseMeta> := [];
    if !env.isEnterprise {
      return Ok([NO_META]);
    }
    var todo := env.partitions;
    while todo != {}
      invariant todo <= env.partitions && env.partitions - todo <= namespaces.Keys
      invariant forall em :: em in metas <==> em.ap !in todo && em in Metas(env, namespaces)
      decreases todo
    {
      var p :| p in todo;
      if p !in namespaces {
        return Err(Unavailable);
      }
      ghost var before := metas;
      for i := 0 to |namespaces[p]|
        invariant forall em :: em in metas <==> em in before || (em.ap == p && em.ns in namespaces[p][..i])
      {
        metas := metas + [EnterpriseMeta(namespaces[p][i], p)];
        assert namespaces[p][..i + 1] == namespaces[p][..i] + [namespaces[p][i]];
      }
      assert namespaces[p][..|namespaces[p]|] == namespaces[p];
      todo := todo - {p};
    }
    return Ok(metas);
  }

  /******* What Consul holds *******/

  /** A query names a partition and namespace only if both are set. */
  function QueryScope(env: Environment, em: EnterpriseMeta): Scope {
    Scope(env.agentDatacenter, if em.ap != "" && em.ns != "" then em else NO_META)
  }

  /** The services of a scope with the tags of all their instances. */
  function Services(catalog: map<CatalogKey, CatalogEntry>, scope: Scope): map<string, set<string>> {
    map k | k in catalog && k.scope == scope ::
      catalog[k].service := (set j, t | j in catalog && j.scope == scope && catalog[j].service == catalog[k].service
                                        && t in catalog[j].tags :: t)
  }

  function ManagedNames(env: Environment, catalog: map<CatalogKey, CatalogEntry>, em: EnterpriseMeta): set<string> {
    set k | k in catalog && k.scope == QueryScope(env, em) && MANAGED_TAG in catalog[k].tags :: catalog[k].service
  }

  function ManagedKeys(env: Environment, catalog: map<CatalogKey, CatalogEntry>, metas: set<EnterpriseMeta>): set<Key> {
    set em, n | em in metas && n in ManagedNames(env, catalog, em) :: Key(em, n)
  }

  function Managed(services: ServiceMap): set<Key> {
    set em, n | em in services && n in services[em] :: Key(em, n)
  }

  function ManagedAmong(found: map<string, set<string>>): set<string> {
    set n | n in found && MANAGED_TAG in found[n]
  }

  lemma ManagedNamesAreFound(env: Environment, catalog: map<CatalogKey, CatalogEntry>, em: EnterpriseMeta)
    ensures ManagedAmong(Services(catalog, QueryScope(env, em))) == ManagedNames(env, catalog, em)
  {
  }

  /** The inner loops of `getConsulServices`, over the services of one scope and their tags. */
  method FindManaged(found: map<string, set<string>>) returns (names: set<string>)
    ensures names == ManagedAmong(found)
  {
    names := {};
    var todo := found.Keys;
    while todo != {}
      invariant todo <= found.Keys
      invariant forall n :: n in names <==> n in found && n !in todo && MANAGED_TAG in found[n]
      decreases todo
    {
      var name :| name in todo;
      todo := todo - {name};
      ghost var before := names;
      var tags := found[name];
      while tags != {}
        invariant tags <= found[name] && names == before
        invariant MANAGED_TAG in found[name] ==> MANAGED_TAG in tags
        decreases tags
      {
        var t :| t in tags;
        if t == MANAGED_TAG {
          names := names + {name};
          break;
        }
        tags := tags - {t};
      }
    }
  }

  /** `unreadable` names the catalogs whose query fails. */
  method GetConsulServices(env: Environment, catalog: map<CatalogKey, CatalogEntry>, metas: seq<EnterpriseMeta>,
                           unreadable: set<EnterpriseMeta>)
    returns (r: Result<ServiceMap, SyncError>)
    ensures r.Ok? <==> forall em :: em in metas ==> em !in unreadable
    ensures r.Ok? ==> r.value == map em | em in metas :: ManagedNames(env, catalog, em)
  {
    hide Services, ManagedNames, ManagedAmong, QueryScope;
    var services: ServiceMap := map[];
    for i := 0 to |metas|
      invariant forall em :: em in metas[..i] ==> em !in unreadable
      invariant services == map em | em in metas[..i] :: ManagedNames(env, catalog, em)
    {
      if metas[i] in unreadable {
        return Err(Unavailable);
      }
      var names := FindManaged(Services(catalog, QueryScope(env, metas[i])));
      ManagedNamesAreFound(env, catalog, metas[i]);
      services := services[metas[i] := names];
      assert metas[..i + 1] == metas[..i] + [metas[i]];
    }
    assert metas[..|metas|] == metas;
    return Ok(services);
  }

  /******* The difference *******/

  function EnabledKeys(desired: map<Key, Event>): set<Key> {
    set k | k in desired && desired[k].Upsert?
  }

  /** The keys on which Lambda and Consul disagree. */
  function Pending(desired: map<Key, Event>, managed: set<Key>): set<Key> {
    (EnabledKeys(desired) - managed) + (managed - EnabledKeys(desired))
  }

  /** The event a disagreeing key calls for; a service no function claims is deleted. */
  function EventFor(desired: map<Key, Event>, k: Key): Event {
    if k in desired then desired[k]
    else Delete(NamedService(NewEnterpriseMeta(k.em.ap, k.em.ns), k.name, ""))
  }

  function EventsFor(desired: map<Key, Event>, keys: seq<Key>): (events: seq<Event>)
    ensures |events| == |keys|
    ensures forall i :: 0 <= i < |keys| ==> events[i] == EventFor(desired, keys[i])
  {
    seq(|keys|, i requires 0 <= i < |keys| => EventFor(desired, keys[i]))
  }

  /** One event for each of the keys, in some order. */
  ghost predicate OneForEach(desired: map<Key, Event>, keys: set<Key>, events: seq<Event>) {
    exists order :: Visits(order, keys) && events == EventsFor(desired, order)
  }

  /** The wanted keys on which Consul disagrees. */
  function Differing(desired: map<Key, Event>, managed: set<Key>): set<Key> {
    set k | k in desired && (desired[k].Upsert? <==> k !in managed)
  }

  /** The managed keys that no function claims. */
  function Unclaimed(desired: map<Key, Event>, managed: set<Key>): set<Key> {
    managed - desired.Keys
  }

  lemma ManagedHas(services: ServiceMap, k: Key)
    ensures k in Managed(services) <==> k.em in services && k.name in services[k.em]
  {
    assert k == Key(k.em, k.name);
  }

  method ConstructUpsertEvents(lambdas: EventMap, services: ServiceMap)
    returns (events: seq<Event>)
    ensures OneForEach(Flat(lambdas), Differing(Flat(lambdas), Managed(services)), events)
  {
    hide Flat, Managed;
    forall k { FlatHas(lambdas, k); }
    ghost var keys: seq<Key> := [];
    events := [];
    var metas := lambdas.Keys;
    while metas != {}
      invariant metas <= lambdas.Keys
      invariant events == EventsFor(Flat(lambdas), keys) && Distinct(keys)
      invariant forall k :: k in keys <==>
                            k in Flat(lambdas) && k.em !in metas
                            && (Flat(lambdas)[k].Upsert? <==> k !in Managed(services))
      decreases metas
    {
      var em :| em in metas;
      metas := metas - {em};
      var row := lambdas[em];
      var names := row.Keys;
      while names != {}
        invariant names <= row.Keys
        invariant events == EventsFor(Flat(lambdas), keys) && Distinct(keys)
        invariant forall k :: k in keys <==>
                              k in Flat(lambdas) && k.em !in metas && (k.em == em ==> k.name !in names)
                              && (Flat(lambdas)[k].Upsert? <==> k !in Managed(services))
        decreases names
      {
        var name :| name in names;
        ghost var key := Key(em, name);
        assert key in Flat(lambdas) && key !in keys;
        assert forall i :: 0 <= i < |keys| ==> keys[i] in keys;
        names := names - {name};
        var e := row[name];
        var known := em in services && name in services[em];
        ManagedHas(services, key);
        if e.Upsert? != known {
          events, keys := events + [e], keys + [key];
        }
      }
    }
    assert Visits(keys, Differing(Flat(lambdas), Managed(services)));
  }

  method ConstructDeleteEvents(lambdas: EventMap, services: ServiceMap)
    returns (events: seq<Event>)
    ensures OneForEach(Flat(lambdas), Unclaimed(Flat(lambdas), Managed(services)), events)
  {
    hide Flat, Managed;
    forall k { ManagedHas(services, k); }
    ghost var keys: seq<Key> := [];
    events := [];
    var metas := services.Keys;
    while metas != {}
      invariant metas <= services.Keys
      invariant events == EventsFor(Flat(lambdas), keys) && Distinct(keys)
      invariant forall k :: k in keys <==> k in Managed(services) && k !in Flat(lambdas) && k.em !in metas
      decreases metas
    {
      var em :| em in metas;
      metas := metas - {em};
      var names := services[em];
      while names != {}
        invariant names <= services[em]
        invariant events == EventsFor(Flat(lambdas), keys) && Distinct(keys)
        invariant forall k :: k in keys <==>
                              k in Managed(services) && k !in Flat(lambdas) && k.em !in metas
                              && (k.em == em ==> k.name !in names)
        decreases names
      {
        var name :| name in names;
        ghost var key := Key(em, name);
        assert key in Managed(services) && key !in keys;
        assert forall i :: 0 <= i < |keys| ==> keys[i] in keys;
        names := names - {name};
        var deleteEvent := Delete(NamedService(NewEnterpriseMeta(em.ap, em.ns), name, ""));
        FlatHas(lambdas, key);
        if em !in lambdas || name !in lambdas[em] {
          events, keys := events + [deleteEvent], keys + [key];
        }
      }
    }
    assert Visits(keys, Unclaimed(Flat(lambdas), Managed(services)));
  }

  /** Events as one full sync emits them: one for each key of the difference, in some order. */
  ghost predicate Emits(desired: map<Key, Event>, managed: set<Key>, events: seq<Event>) {
    OneForEach(desired, Pending(desired, managed), events)
  }

  lemma DistinctConcat<T>(s: seq<T>, t: seq<T>)
    requires Distinct(s) && Distinct(t) && forall k :: k in s ==> k !in t
    ensures Distinct(s + t)
  {
    assert forall i :: 0 <= i < |s| ==> s[i] in s;
    assert forall i :: 0 <= i < |t| ==> t[i] in t;
  }

  lemma DifferenceSplits(desired: map<Key, Event>, managed: set<Key>)
    ensures Pending(desired, managed) == Differing(desired, managed) + Unclaimed(desired, managed)
    ensures Differing(desired, managed) !! Unclaimed(desired, managed)
  {
  }

  lemma DifferenceIsComplete(desired: map<Key, Event>, managed: set<Key>, ups: seq<Event>, dels: seq<Event>)
    requires OneForEach(desired, Differing(desired, managed), ups)
    requires OneForEach(desired, Unclaimed(desired, managed), dels)
    ensures Emits(desired, managed, ups + dels)
  {
    hide Distinct, EventFor, Pending, Differing, Unclaimed;
    DifferenceSplits(desired, managed);
    var p :| Visits(p, Differing(desired, managed)) && ups == EventsFor(desired, p);
    var q :| Visits(q, Unclaimed(desired, managed)) && dels == EventsFor(desired, q);
    DistinctConcat(p, q);
    assert Visits(p + q, Pending(desired, managed));
    assert ups + dels == EventsFor(desired, p + q);
  }

  /**
   The functions there are, and what AWS and Consul answer to the reads of one invocation. A
   listing fails, or it leaves out the functions that cannot be retrieved meanwhile.
   */
  datatype Snapshot = Snapshot(
    funcs: Listing,
    listed: Option<set<string>>,
    retrievable: set<string>,
    namespaces: Namespaces,
    unreadable: set<EnterpriseMeta>)
  {
    function Listed(): Listing {
      if listed.None? then map[] else map arn | arn in funcs && arn in listed.value :: funcs[arn]
    }

    function Retrieved(): Listing {
      map arn | arn in funcs && arn in retrievable :: funcs[arn]
    }

    /** If the listing does not fail it leaves nothing out. */
    predicate Complete() {
      listed.Some? ==> funcs.Keys <= listed.value
    }
  }

  predicate CanSync(env: Environment, s: Snapshot) {
    && s.listed.Some?
    && (forall arn :: arn in s.Listed() ==> Tolerated(env, s.Listed()[arn]))
    && (env.isEnterprise ==> env.partitions <= s.namespaces.Keys)
    && Metas(env, s.namespaces) !! s.unreadable
  }

  /** Some order of visiting the functions leads a full sync to these events. */
  ghost predicate FullSyncEmits(env: Environment, s: Snapshot, catalog: map<CatalogKey, CatalogEntry>,
                                events: seq<Event>) {
    exists order :: Visits(order, s.Listed().Keys)
      && Emits(Collected(env, s.Listed(), order), ManagedKeys(env, catalog, Metas(env, s.namespaces)), events)
  }

  /** One rejected function makes the whole sync emit nothing; otherwise it emits the difference. */
  method FullSyncData(env: Environment, s: Snapshot, catalog: map<CatalogKey, CatalogEntry>)
    returns (r: Result<seq<Event>, SyncError>)
    ensures r.Ok? <==> CanSync(env, s)
    ensures r.Ok? ==> FullSyncEmits(env, s, catalog, r.value)
  {
    hide Flat, Collected, ManagedNames, OneForEach, Pending, Tolerated, Differing, Unclaimed;
    if s.listed.None? {
      return Err(Unavailable);
    }
    var lambdas, errs, order := GetLambdas(env, s.Listed());
    if errs != [] {
      return Err(errs[0]);
    }
    var metas := GetEnterpriseMetas(env, s.namespaces);
    if metas.Err? {
      return Err(metas.error);
    }
    var services := GetConsulServices(env, catalog, metas.value, s.unreadable);
    if services.Err? {
      return Err(services.error);
    }
    assert Managed(services.value) == ManagedKeys(env, catalog, Metas(env, s.namespaces));
    var ups := ConstructUpsertEvents(lambdas, services.value);
    var dels := ConstructDeleteEvents(lambdas, services.value);
    DifferenceIsComplete(Flat(lambdas), Managed(services.value), ups, dels);
    return Ok(ups + dels);
  }
}
