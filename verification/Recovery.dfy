/**
 What full syncs do to Consul: which keys a sync settles whatever fails, that a failing run
 can be repaired, that the order of the events is irrelevant, and that the event-driven path
 leads to the same place.
 */
module Recovery {
  import opened Wrappers
  import opened Structs
  import opened Slots
  import opened Events
  import opened Consul
  import opened FullSync

  /******* Keys, slots and who holds them *******/

  /** Where the queries of a full sync look for a key. */
  function HomeScope(env: Environment, k: Key): Scope {
    Scope(env.agentDatacenter, k.em)
  }

  function HomeSlot(env: Environment, k: Key): CatalogKey {
    CatalogKey(HomeScope(env, k), env.nodeName, k.name)
  }

  function HomeDefaults(env: Environment, k: Key): DefaultsKey {
    DefaultsKey(HomeScope(env, k), k.name)
  }

  /** The event writes where the queries of a full sync look. */
  predicate Home(env: Environment, e: Event) {
    WriteScope(env, e.service).dc == env.agentDatacenter
  }

  /** Metadata as enumerated by Consul: blank without Enterprise, fully named with it. */
  predicate Proper(env: Environment, metas: set<EnterpriseMeta>) {
    if env.isEnterprise then forall em :: em in metas ==> em.ap != "" && em.ns != ""
    else metas == {NO_META}
  }

  /** The wanted map of some functions: entries under their own keys, with metadata as the environment has it. */
  predicate Keyed(env: Environment, desired: map<Key, Event>) {
    forall k :: k in desired ==>
      KeyOf(desired[k]) == k
      && (desired[k].service.em.Some? <==> env.isEnterprise)
      && (desired[k].service.em.Some? ==> k.em.ap != "" && k.em.ns != "")
  }

  function ManagedIn(env: Environment, metas: set<EnterpriseMeta>, w: World): set<Key> {
    ManagedKeys(env, w.catalog, metas)
  }

  predicate HasTag(w: World, c: CatalogKey) {
    c in w.catalog && MANAGED_TAG in w.catalog[c].tags
  }

  /** The registrator's own node holds the key. */
  predicate Own(env: Environment, w: World, k: Key) {
    HasTag(w, HomeSlot(env, k)) && w.catalog[HomeSlot(env, k)].service == k.name
  }

  /** Some other node carries the managed tag for the key. */
  predicate Foreign(env: Environment, w: World, k: Key) {
    exists c :: c in w.catalog && HasTag(w, c)
      && c.scope == HomeScope(env, k) && c.node != env.nodeName && w.catalog[c].service == k.name
  }

  /** On the registrator's node every managed service is registered under its own name. */
  predicate OwnIds(env: Environment, w: World) {
    forall c :: c in w.catalog && c.node == env.nodeName && HasTag(w, c) ==> w.catalog[c].service == c.id
  }

  lemma ManagedSplits(env: Environment, metas: set<EnterpriseMeta>, w: World, k: Key)
    requires Proper(env, metas) && OwnIds(env, w)
    ensures k in ManagedIn(env, metas, w) <==> k.em in metas && (Own(env, w, k) || Foreign(env, w, k))
  {
    if k.em in metas {
      assert QueryScope(env, k.em) == HomeScope(env, k);
      if k.name in ManagedNames(env, w.catalog, k.em) {
        var c :| c in w.catalog && c.scope == HomeScope(env, k) && HasTag(w, c) && w.catalog[c].service == k.name;
        if c.node == env.nodeName {
          assert c == HomeSlot(env, k);
        }
      }
      if Own(env, w, k) {
        assert HomeSlot(env, k) in w.catalog;
      }
    }
  }

  /** Attempts of one full sync: exactly one for every key of the difference. */
  ghost predicate Covers(env: Environment, metas: set<EnterpriseMeta>, desired: map<Key, Event>, w: World,
                         L: seq<Attempt>) {
    var pending := Pending(desired, ManagedIn(env, metas, w));
    && (forall k :: k in pending ==> exists a :: a in L && KeyOf(a.event) == k)
    && (forall a :: a in L ==> KeyOf(a.event) in pending && a.event == EventFor(desired, KeyOf(a.event)))
    && (forall a, b :: a in L && b in L && KeyOf(a.event) == KeyOf(b.event) ==> a == b)
  }

  lemma EventForKey(env: Environment, metas: set<EnterpriseMeta>, desired: map<Key, Event>, k: Key)
    requires Proper(env, metas) && Keyed(env, desired)
    requires k in desired || k.em in metas
    ensures KeyOf(EventFor(desired, k)) == k
    ensures EventFor(desired, k).service.em.Some? <==> env.isEnterprise
    ensures env.isEnterprise ==> k.em.ap != "" && k.em.ns != ""
  {
  }

  lemma PendingKnown(env: Environment, metas: set<EnterpriseMeta>, desired: map<Key, Event>, w: World, k: Key)
    requires k in Pending(desired, ManagedIn(env, metas, w))
    ensures k in desired || k.em in metas
  {
  }

  /** What a full sync emits, with any answers, covers the difference. */
  lemma EmitsCovers(env: Environment, metas: set<EnterpriseMeta>, desired: map<Key, Event>, w: World,
                    events: seq<Event>, replies: nat -> Replies)
    requires Proper(env, metas) && Keyed(env, desired)
    requires Emits(desired, ManagedIn(env, metas, w), events)
    ensures Covers(env, metas, desired, w, Attempts(events, replies))
  {
    hide Pending, ManagedIn, EventFor, Proper, Keyed, KeyOf;
    var pending, L := Pending(desired, ManagedIn(env, metas, w)), Attempts(events, replies);
    var keys :| Visits(keys, pending) && events == EventsFor(desired, keys);
    forall i | 0 <= i < |keys| ensures KeyOf(L[i].event) == keys[i] && keys[i] in pending {
      assert keys[i] in keys;
      PendingKnown(env, metas, desired, w, keys[i]);
      EventForKey(env, metas, desired, keys[i]);
    }
    forall k | k in pending ensures exists a :: a in L && KeyOf(a.event) == k {
      var i :| 0 <= i < |keys| && keys[i] == k;
      assert L[i] in L;
    }
  }

  /******* What a covering run does to one key *******/

  lemma CatalogAt(env: Environment, metas: set<EnterpriseMeta>, desired: map<Key, Event>, w: World, L: seq<Attempt>,
                  a: Attempt)
    requires Covers(env, metas, desired, w, L) && a in L
    ensures Lookup(Run(env, w, L).catalog, CatalogSlot(env, a.event))
            == After(Lookup(w.catalog, CatalogSlot(env, a.event)), CatalogChange(a.event, a.replies))
  {
    RunCatalog(env, w, L);
    forall b | b in L && CatalogSlot(env, b.event) == CatalogSlot(env, a.event) ensures b == a {
      assert KeyOf(b.event) == KeyOf(a.event);
    }
    MappedSettled(w.catalog, L, CatalogWrite(env), a);
  }

  lemma CatalogElsewhere(env: Environment, w: World, L: seq<Attempt>, slot: CatalogKey)
    requires forall a :: a in L ==> CatalogSlot(env, a.event) != slot
    ensures Lookup(Run(env, w, L).catalog, slot) == Lookup(w.catalog, slot)
  {
    RunCatalog(env, w, L);
    MappedUntouched(w.catalog, L, CatalogWrite(env), slot);
  }

  /** Nothing the registrator does adds or removes a managed service of another node, or misnames one of its own. */
  lemma {:induction false} OthersKept(env: Environment, w: World, L: seq<Attempt>)
    ensures forall c: CatalogKey :: c.node != env.nodeName ==> Lookup(Run(env, w, L).catalog, c) == Lookup(w.catalog, c)
    ensures OwnIds(env, w) ==> OwnIds(env, Run(env, w, L))
  {
    if L != [] {
      var n := |L| - 1;
      var v := Run(env, w, L[..n]);
      OthersKept(env, w, L[..n]);
      OthersKeptByOne(env, v, L[n]);
    }
  }

  lemma OthersKeptByOne(env: Environment, w: World, a: Attempt)
    ensures forall c: CatalogKey :: c.node != env.nodeName ==>
              Lookup(Step(env, w, a).catalog, c) == Lookup(w.catalog, c)
    ensures OwnIds(env, w) ==> OwnIds(env, Step(env, w, a))
  {
    var v := Step(env, w, a);
    if OwnIds(env, w) {
      forall c | c in v.catalog && c.node == env.nodeName && HasTag(v, c) ensures v.catalog[c].service == c.id {
        if c != CatalogSlot(env, a.event) || !Commits(a.replies) {
          assert Lookup(v.catalog, c) == Lookup(w.catalog, c);
        }
      }
    }
  }

  lemma ForeignKept(env: Environment, w: World, L: seq<Attempt>, k: Key)
    ensures Foreign(env, Run(env, w, L), k) <==> Foreign(env, w, k)
  {
    OthersKept(env, w, L);
    var v := Run(env, w, L);
    if Foreign(env, w, k) {
      var c :| c in w.catalog && HasTag(w, c) && c.scope == HomeScope(env, k) && c.node != env.nodeName
          && w.catalog[c].service == k.name;
      assert Lookup(v.catalog, c) == Lookup(w.catalog, c);
    }
    if Foreign(env, v, k) {
      var c :| c in v.catalog && HasTag(v, c) && c.scope == HomeScope(env, k) && c.node != env.nodeName
          && v.catalog[c].service == k.name;
      assert Lookup(v.catalog, c) == Lookup(w.catalog, c);
    }
  }

  /**
   An attempt on a key decides whether the node holds it if its catalog step took effect at home;
   else nothing changes.
   */
  lemma OwnAfter(env: Environment, metas: set<EnterpriseMeta>, desired: map<Key, Event>, w: World, L: seq<Attempt>,
                 a: Attempt)
    requires Covers(env, metas, desired, w, L) && a in L
    ensures Own(env, Run(env, w, L), KeyOf(a.event)) <==>
            if Home(env, a.event) && Commits(a.replies) then a.event.Upsert? else Own(env, w, KeyOf(a.event))
  {
    hide Run;
    var k := KeyOf(a.event);
    if Home(env, a.event) {
      assert CatalogSlot(env, a.event) == HomeSlot(env, k);
      CatalogAt(env, metas, desired, w, L, a);
    } else {
      forall b | b in L ensures CatalogSlot(env, b.event) != HomeSlot(env, k) {
        if KeyOf(b.event) == k {
          assert b == a;
        }
      }
      CatalogElsewhere(env, w, L, HomeSlot(env, k));
    }
  }

  lemma OwnUnattempted(env: Environment, w: World, L: seq<Attempt>, k: Key)
    requires forall a :: a in L ==> KeyOf(a.event) != k
    ensures Own(env, Run(env, w, L), k) <==> Own(env, w, k)
  {
    CatalogElsewhere(env, w, L, HomeSlot(env, k));
  }

  /******* The catalog step is the commit point *******/

  /** Carrying out the event removes the disagreement. What a caller can check before the sync. */
  predicate Settles(env: Environment, metas: set<EnterpriseMeta>, w: World, e: Event) {
    && Home(env, e)
    && KeyOf(e).em in metas
    && (e.Delete? ==> !Foreign(env, w, KeyOf(e)))
  }

  /** The keys a run is done with. */
  function Done(env: Environment, metas: set<EnterpriseMeta>, w: World, L: seq<Attempt>): set<Key> {
    set a | a in L && Commits(a.replies) && Settles(env, metas, w, a.event) :: KeyOf(a.event)
  }

  lemma KeyAfter(env: Environment, metas: set<EnterpriseMeta>, desired: map<Key, Event>, w: World, L: seq<Attempt>,
                 k: Key)
    requires Proper(env, metas) && Keyed(env, desired) && OwnIds(env, w)
    requires Covers(env, metas, desired, w, L)
    ensures k in Pending(desired, ManagedIn(env, metas, Run(env, w, L))) <==>
            k in Pending(desired, ManagedIn(env, metas, w)) && k !in Done(env, metas, w, L)
  {
    hide Run, Own, Foreign, OwnIds, ManagedKeys, HasTag;
    var v := Run(env, w, L);
    OthersKept(env, w, L);
    ForeignKept(env, w, L, k);
    ManagedSplits(env, metas, w, k);
    ManagedSplits(env, metas, v, k);
    if k in Pending(desired, ManagedIn(env, metas, w)) {
      var a :| a in L && KeyOf(a.event) == k;
      OwnAfter(env, metas, desired, w, L, a);
      if k in Done(env, metas, w, L) {
        var b :| b in L && Commits(b.replies) && Settles(env, metas, w, b.event) && KeyOf(b.event) == k;
        assert b == a;
      }
    } else {
      OwnUnattempted(env, w, L, k);
    }
  }

  /**
   After a full sync with any failures the next one is faced with exactly the keys whose
   catalog write did not take effect or could not settle them. The count never grows, and
   drops by one for each settled key.
   */
  lemma CommitPoint(env: Environment, metas: set<EnterpriseMeta>, desired: map<Key, Event>, w: World, L: seq<Attempt>)
    requires Proper(env, metas) && Keyed(env, desired) && OwnIds(env, w)
    requires Covers(env, metas, desired, w, L)
    ensures
      var before := Pending(desired, ManagedIn(env, metas, w));
      var after := Pending(desired, ManagedIn(env, metas, Run(env, w, L)));
      && after == before - Done(env, metas, w, L)
      && Done(env, metas, w, L) <= before
      && |after| == |before| - |Done(env, metas, w, L)|
  {
    hide Run, Pending, ManagedIn, Settles;
    var before := Pending(desired, ManagedIn(env, metas, w));
    var after := Pending(desired, ManagedIn(env, metas, Run(env, w, L)));
    forall k ensures k in after <==> k in before - Done(env, metas, w, L) {
      KeyAfter(env, metas, desired, w, L, k);
    }
    assert after == before - Done(env, metas, w, L);
    assert before == after + Done(env, metas, w, L);
  }

  /**
   A full sync after which the next one emits nothing: each of its events was carried out, and could
   settle its key.
   */
  lemma QuietAfter(env: Environment, metas: set<EnterpriseMeta>, desired: map<Key, Event>, w: World, L: seq<Attempt>)
    requires Proper(env, metas) && Keyed(env, desired) && OwnIds(env, w)
    requires Covers(env, metas, desired, w, L)
    ensures Pending(desired, ManagedIn(env, metas, Run(env, w, L))) == {} <==>
            forall a :: a in L ==> Commits(a.replies) && Settles(env, metas, w, a.event)
  {
    hide Run, Pending, ManagedIn, Settles;
    CommitPoint(env, metas, desired, w, L);
    var before := Pending(desired, ManagedIn(env, metas, w));
    if before <= Done(env, metas, w, L) {
      forall a | a in L ensures Commits(a.replies) && Settles(env, metas, w, a.event) {
        var b :| b in L && Commits(b.replies) && Settles(env, metas, w, b.event) && KeyOf(b.event) == KeyOf(a.event);
        assert a == b;
      }
    }
  }

  /******* Crash recovery over many runs *******/

  /** The premises under which every disagreement can be settled. */
  ghost predicate Governed(env: Environment, metas: set<EnterpriseMeta>, desired: map<Key, Event>, w: World) {
    && OwnIds(env, w)
    && (forall k :: k in desired ==> Home(env, desired[k]) && (desired[k].Upsert? ==> k.em in metas))
    && (forall k: Key :: k.em in metas ==> !Foreign(env, w, k))
  }

  lemma GovernedSettles(env: Environment, metas: set<EnterpriseMeta>, desired: map<Key, Event>, w: World,
                        L: seq<Attempt>, a: Attempt)
    requires Governed(env, metas, desired, w) && Covers(env, metas, desired, w, L) && a in L
    ensures Settles(env, metas, w, a.event)
  {
  }

  lemma GovernedKept(env: Environment, metas: set<EnterpriseMeta>, desired: map<Key, Event>, w: World, L: seq<Attempt>)
    requires Governed(env, metas, desired, w)
    ensures Governed(env, metas, desired, Run(env, w, L))
  {
    hide Run, OwnIds, Foreign;
    OthersKept(env, w, L);
    forall k: Key | k.em in metas ensures !Foreign(env, Run(env, w, L), k) {
      ForeignKept(env, w, L, k);
    }
  }

  ghost predicate HasDefaults(env: Environment, w: World, k: Key) {
    HomeDefaults(env, k) in w.defaults
  }

  /** The state of one key partway through any number of failing runs that began in `w0`. */
  ghost predicate KeySound(env: Environment, metas: set<EnterpriseMeta>, desired: map<Key, Event>, w0: World,
                           w: World, k: Key) {
    var enabled := k in EnabledKeys(desired);
    var managed, was := k in ManagedIn(env, metas, w), k in ManagedIn(env, metas, w0);
    && (enabled && managed ==> HasDefaults(env, w, k))
    && (enabled && managed && !was ==> Lookup(w.defaults, HomeDefaults(env, k)) == Some(desired[k].args))
    && (enabled && was ==> managed)
    && (!enabled && was && !managed ==> !HasDefaults(env, w, k))
    && (!enabled && managed ==> was)
  }

  /** An attempt at what the functions, or the lack of one, call for; whether or not there is a disagreement. */
  predicate Faithful(metas: set<EnterpriseMeta>, desired: map<Key, Event>, a: Attempt) {
    var k := KeyOf(a.event);
    (k in desired || k.em in metas) && a.event == EventFor(desired, k)
  }

  lemma CoversFaithfully(env: Environment, metas: set<EnterpriseMeta>, desired: map<Key, Event>, w: World,
                         L: seq<Attempt>, a: Attempt)
    requires Covers(env, metas, desired, w, L) && a in L
    ensures Faithful(metas, desired, a)
  {
    PendingKnown(env, metas, desired, w, KeyOf(a.event));
  }

  lemma GovernedManaged(env: Environment, metas: set<EnterpriseMeta>, desired: map<Key, Event>, w: World, k: Key)
    requires Proper(env, metas) && Governed(env, metas, desired, w)
    ensures k in ManagedIn(env, metas, w) <==> k.em in metas && Own(env, w, k)
  {
    hide ManagedIn, Foreign, Own, OwnIds, Proper;
    ManagedSplits(env, metas, w, k);
  }

  /** One attempt at one key, seen from any key. */
  lemma StepAt(env: Environment, metas: set<EnterpriseMeta>, desired: map<Key, Event>, w: World, a: Attempt, k: Key)
    requires Governed(env, metas, desired, w) && Faithful(metas, desired, a)
    ensures
      var v := Step(env, w, a);
      if KeyOf(a.event) != k
      then (Own(env, v, k) <==> Own(env, w, k))
           && Lookup(v.defaults, HomeDefaults(env, k)) == Lookup(w.defaults, HomeDefaults(env, k))
      else (Own(env, v, k) <==> if Commits(a.replies) then a.event.Upsert? else Own(env, w, k))
           && Lookup(v.defaults, HomeDefaults(env, k))
               == After(Lookup(w.defaults, HomeDefaults(env, k)), DefaultsChange(a.event, a.replies))
  {
    var v := Step(env, w, a);
    assert CatalogSlot(env, a.event) == HomeSlot(env, KeyOf(a.event));
    assert DefaultsSlot(env, a.event) == HomeDefaults(env, KeyOf(a.event));
    assert Lookup(v.catalog, HomeSlot(env, k))
        == if KeyOf(a.event) == k then After(Lookup(w.catalog, HomeSlot(env, k)), CatalogChange(a.event, a.replies))
           else Lookup(w.catalog, HomeSlot(env, k));
  }

  lemma StepSound(env: Environment, metas: set<EnterpriseMeta>, desired: map<Key, Event>, w0: World, w: World,
                  a: Attempt, k: Key)
    requires Proper(env, metas) && Faithful(metas, desired, a) && KeySound(env, metas, desired, w0, w, k)
    requires Governed(env, metas, desired, w) && Governed(env, metas, desired, Step(env, w, a))
    ensures KeySound(env, metas, desired, w0, Step(env, w, a), k)
  {
    hide Step, ManagedIn, Governed, Proper, Own, HomeDefaults;
    GovernedManaged(env, metas, desired, w, k);
    GovernedManaged(env, metas, desired, Step(env, w, a), k);
    StepAt(env, metas, desired, w, a, k);
  }

  lemma {:induction false} RunSound(env: Environment, metas: set<EnterpriseMeta>, desired: map<Key, Event>, w0: World,
                                    w: World, L: seq<Attempt>, k: Key)
    requires Proper(env, metas) && Governed(env, metas, desired, w) && KeySound(env, metas, desired, w0, w, k)
    requires forall a :: a in L ==> Faithful(metas, desired, a)
    ensures Governed(env, metas, desired, Run(env, w, L)) && KeySound(env, metas, desired, w0, Run(env, w, L), k)
  {
    hide Proper, Governed, KeySound, Step, Faithful;
    GovernedKept(env, metas, desired, w, L);
    if L != [] {
      var n := |L| - 1;
      RunSound(env, metas, desired, w0, w, L[..n], k);
      StepSound(env, metas, desired, w0, Run(env, w, L[..n]), L[n], k);
    }
  }

  /** A `Reconcile` that wrote the catalog before the defaults. */
  function SwappedStep(env: Environment, w: World, a: Attempt): World {
    var e, r := a.event, a.replies;
    Step(env, w, a).(
      catalog := Update(w.catalog, CatalogSlot(env, e), CatalogChange(e, r.(defaults := Applied))),
      defaults := Update(w.defaults, DefaultsSlot(env, e), if r.catalog.Applied? then DefaultsChange(e, r) else Keep))
  }

  /** With the first two steps swapped, one lost defaults write is enough to spoil a pending key. */
  lemma SwappingBreaks(env: Environment, metas: set<EnterpriseMeta>, desired: map<Key, Event>, w: World, a: Attempt)
    requires Proper(env, metas) && Governed(env, metas, desired, w) && Faithful(metas, desired, a)
    requires KeyOf(a.event) in Pending(desired, ManagedIn(env, metas, w))
    requires HasDefaults(env, w, KeyOf(a.event)) <==> a.event.Delete?
    requires a.replies.catalog.Applied? && a.replies.defaults.Refused?
    ensures KeySound(env, metas, desired, w, w, KeyOf(a.event))
    ensures !KeySound(env, metas, desired, w, SwappedStep(env, w, a), KeyOf(a.event))
  {
    hide ManagedKeys, OwnIds, Foreign, Proper, Own;
    var b, k := Attempt(a.event, a.replies.(defaults := Applied)), KeyOf(a.event);
    var v := SwappedStep(env, w, a);
    RunNothing(env, w);
    RunOneMore(env, w, [], b);
    GovernedKept(env, metas, desired, w, [] + [b]);
    StepAt(env, metas, desired, w, b, k);
    GovernedManaged(env, metas, desired, w, k);
    GovernedManaged(env, metas, desired, Step(env, w, b), k);
    assert ManagedIn(env, metas, v) == ManagedIn(env, metas, Step(env, w, b));
    assert v.defaults == w.defaults;
  }

  /** Runs of faithful attempts, one after the other: `Ls[i]` leads from `ws[i]` to `ws[i + 1]`. */
  ghost predicate History(env: Environment, metas: set<EnterpriseMeta>, desired: map<Key, Event>, ws: seq<World>,
                          Ls: seq<seq<Attempt>>) {
    && Chain(env, ws, Ls)
    && forall i :: 0 <= i < |Ls| ==> forall a :: a in Ls[i] ==> Faithful(metas, desired, a)
  }

  lemma {:induction false} HistorySound(env: Environment, metas: set<EnterpriseMeta>, desired: map<Key, Event>,
                                        ws: seq<World>, Ls: seq<seq<Attempt>>, i: nat, k: Key)
    requires History(env, metas, desired, ws, Ls) && i < |ws|
    requires Proper(env, metas) && Governed(env, metas, desired, ws[0])
    requires k in EnabledKeys(desired) && k in ManagedIn(env, metas, ws[0]) ==> HasDefaults(env, ws[0], k)
    ensures Governed(env, metas, desired, ws[i])
    ensures KeySound(env, metas, desired, ws[0], ws[i], k)
  {
    hide Run, Proper, Governed, Faithful, ManagedIn;
    if i > 0 {
      HistorySound(env, metas, desired, ws, Ls, i - 1, k);
      hide KeySound;
      RunSound(env, metas, desired, ws[0], ws[i - 1], Ls[i - 1], k);
    }
  }

  /**
   Exactly the enabled names are managed, each with service defaults (those it asks for,
   unless it was managed from the start), and every service that was managed at some point
   and no longer is has none.
   */
  ghost predicate Recovered(env: Environment, metas: set<EnterpriseMeta>, desired: map<Key, Event>, ws: seq<World>)
    requires ws != []
  {
    var last := ws[|ws| - 1];
    && ManagedIn(env, metas, last) == EnabledKeys(desired)
    && (forall k :: k in EnabledKeys(desired) ==> HasDefaults(env, last, k))
    && (forall k :: k in EnabledKeys(desired) - ManagedIn(env, metas, ws[0]) ==>
          Lookup(last.defaults, HomeDefaults(env, k)) == Some(desired[k].args))
    && (forall i, k :: 0 <= i < |ws| && k in ManagedIn(env, metas, ws[i]) - EnabledKeys(desired) ==>
          !HasDefaults(env, last, k))
  }

  /**
   If every enabled service that is managed starts with its service defaults, then whatever any number of runs
   have done, each of whose attempts may have stopped anywhere, is repaired by one full sync
   whose catalog steps all take effect.
   */
  lemma CrashRecovery(env: Environment, metas: set<EnterpriseMeta>, desired: map<Key, Event>, ws: seq<World>,
                      Ls: seq<seq<Attempt>>)
    requires History(env, metas, desired, ws, Ls) && Ls != []
    requires Proper(env, metas) && Keyed(env, desired) && Governed(env, metas, desired, ws[0])
    requires forall k :: k in EnabledKeys(desired) && k in ManagedIn(env, metas, ws[0]) ==> HasDefaults(env, ws[0], k)
    requires Covers(env, metas, desired, ws[|Ls| - 1], Ls[|Ls| - 1])
    requires forall a :: a in Ls[|Ls| - 1] ==> Commits(a.replies)
    ensures Recovered(env, metas, desired, ws)
  {
    hide Run, Proper, Keyed, Governed, Covers, ManagedIn, Settles, HasDefaults, Faithful;
    var n := |Ls| - 1;
    var last := ws[|Ls|];
    HistorySound(env, metas, desired, ws, Ls, n, Key(NO_META, ""));
    forall a | a in Ls[n] ensures Commits(a.replies) && Settles(env, metas, ws[n], a.event) {
      GovernedSettles(env, metas, desired, ws[n], Ls[n], a);
    }
    GovernedOwnIds(env, metas, desired, ws[n]);
    QuietAfter(env, metas, desired, ws[n], Ls[n]);
    assert Pending(desired, ManagedIn(env, metas, last)) == {};
    assert ManagedIn(env, metas, last) == EnabledKeys(desired);
    forall k | k in EnabledKeys(desired)
      ensures HasDefaults(env, last, k)
      ensures k !in ManagedIn(env, metas, ws[0]) ==>
                Lookup(last.defaults, HomeDefaults(env, k)) == Some(desired[k].args)
    {
      HistorySound(env, metas, desired, ws, Ls, |Ls|, k);
    }
    forall i, k | 0 <= i < |ws| && k in ManagedIn(env, metas, ws[i]) - EnabledKeys(desired)
      ensures !HasDefaults(env, last, k)
    {
      HistorySound(env, metas, desired, ws, Ls, i, k);
      HistorySound(env, metas, desired, ws, Ls, |Ls|, k);
    }
  }

  /******* One sync after anything *******/

  lemma DefaultsAt(env: Environment, metas: set<EnterpriseMeta>, desired: map<Key, Event>, w: World, L: seq<Attempt>,
                   a: Attempt)
    requires Covers(env, metas, desired, w, L) && a in L
    ensures Lookup(Run(env, w, L).defaults, DefaultsSlot(env, a.event))
            == After(Lookup(w.defaults, DefaultsSlot(env, a.event)), DefaultsChange(a.event, a.replies))
  {
    RunDefaults(env, w, L);
    forall b | b in L && DefaultsSlot(env, b.event) == DefaultsSlot(env, a.event) ensures b == a {
      assert KeyOf(b.event) == KeyOf(a.event);
    }
    MappedSettled(w.defaults, L, DefaultsWrite(env), a);
  }

  /** A sync leaves the defaults of a key alone that is not pending. */
  lemma DefaultsUnattempted(env: Environment, w: World, L: seq<Attempt>, k: Key)
    requires forall a :: a in L ==> KeyOf(a.event) != k
    ensures Lookup(Run(env, w, L).defaults, HomeDefaults(env, k)) == Lookup(w.defaults, HomeDefaults(env, k))
  {
    RunDefaults(env, w, L);
    MappedUntouched(w.defaults, L, DefaultsWrite(env), HomeDefaults(env, k));
  }

  /** Whatever fails, a sync neither deregisters an enabled service nor touches the defaults of one that is managed. */
  lemma SyncLeavesManaged(env: Environment, metas: set<EnterpriseMeta>, desired: map<Key, Event>, w: World,
                          L: seq<Attempt>, k: Key)
    requires Proper(env, metas) && Keyed(env, desired) && OwnIds(env, w) && Covers(env, metas, desired, w, L)
    requires k in EnabledKeys(desired) && k in ManagedIn(env, metas, w)
    ensures k in ManagedIn(env, metas, Run(env, w, L))
    ensures Lookup(Run(env, w, L).defaults, HomeDefaults(env, k)) == Lookup(w.defaults, HomeDefaults(env, k))
  {
    hide Run, ManagedIn, Proper, Keyed, OwnIds;
    KeyAfter(env, metas, desired, w, L, k);
    DefaultsUnattempted(env, w, L, k);
  }

  /**
   What one sync whose catalog steps all take effect does: exactly the enabled names are managed;
   new ones have the defaults they ask for, deregistered ones have none, and the others have what
   they had before.
   */
  ghost predicate Synced(env: Environment, metas: set<EnterpriseMeta>, desired: map<Key, Event>, w: World, v: World) {
    var managed, enabled := ManagedIn(env, metas, w), EnabledKeys(desired);
    && ManagedIn(env, metas, v) == enabled
    && (forall k :: k in enabled - managed ==> Lookup(v.defaults, HomeDefaults(env, k)) == Some(desired[k].args))
    && (forall k :: k in managed - enabled ==> !HasDefaults(env, v, k))
    && (forall k :: k in managed * enabled ==>
          Lookup(v.defaults, HomeDefaults(env, k)) == Lookup(w.defaults, HomeDefaults(env, k)))
  }

  lemma PendingDefaults(env: Environment, metas: set<EnterpriseMeta>, desired: map<Key, Event>, w: World,
                        L: seq<Attempt>, k: Key)
    requires Governed(env, metas, desired, w) && Covers(env, metas, desired, w, L)
    requires forall a :: a in L ==> Commits(a.replies)
    requires k in Pending(desired, ManagedIn(env, metas, w))
    ensures Lookup(Run(env, w, L).defaults, HomeDefaults(env, k))
            == if k in EnabledKeys(desired) then Some(desired[k].args) else None
  {
    hide Run, ManagedIn, OwnIds, Foreign;
    var a :| a in L && KeyOf(a.event) == k;
    GovernedSettles(env, metas, desired, w, L, a);
    DefaultsAt(env, metas, desired, w, L, a);
    assert Home(env, a.event);
    assert DefaultsSlot(env, a.event) == HomeDefaults(env, k);
  }

  /**
   A sync whose catalog steps all take effect gives every enabled service its defaults exactly if
   the managed ones among them had theirs when it began, whatever has happened before.
   */
  lemma SyncRepairs(env: Environment, metas: set<EnterpriseMeta>, desired: map<Key, Event>, w: World, L: seq<Attempt>)
    requires Proper(env, metas) && Keyed(env, desired) && Governed(env, metas, desired, w)
    requires Covers(env, metas, desired, w, L) && forall a :: a in L ==> Commits(a.replies)
    ensures Synced(env, metas, desired, w, Run(env, w, L))
    ensures (forall k :: k in EnabledKeys(desired) ==> HasDefaults(env, Run(env, w, L), k)) <==>
            (forall k :: k in EnabledKeys(desired) * ManagedIn(env, metas, w) ==> HasDefaults(env, w, k))
  {
    hide Run, Proper, Keyed, Governed, Covers, ManagedIn, Settles, HomeDefaults;
    var v := Run(env, w, L);
    forall a | a in L ensures Commits(a.replies) && Settles(env, metas, w, a.event) {
      GovernedSettles(env, metas, desired, w, L, a);
    }
    GovernedOwnIds(env, metas, desired, w);
    QuietAfter(env, metas, desired, w, L);
    forall k | k in Pending(desired, ManagedIn(env, metas, w))
      ensures Lookup(v.defaults, HomeDefaults(env, k))
              == if k in EnabledKeys(desired) then Some(desired[k].args) else None
    {
      PendingDefaults(env, metas, desired, w, L, k);
    }
    forall k | k in EnabledKeys(desired) * ManagedIn(env, metas, w)
      ensures Lookup(v.defaults, HomeDefaults(env, k)) == Lookup(w.defaults, HomeDefaults(env, k))
      ensures HasDefaults(env, v, k) <==> HasDefaults(env, w, k)
    {
      SyncLeavesManaged(env, metas, desired, w, L, k);
    }
    assert ManagedIn(env, metas, v) == EnabledKeys(desired);
  }

  /** A chain of runs, of whatever attempts. */
  ghost predicate Chain(env: Environment, ws: seq<World>, Ls: seq<seq<Attempt>>) {
    |ws| == |Ls| + 1 && forall i :: 0 <= i < |Ls| ==> ws[i + 1] == Run(env, ws[i], Ls[i])
  }

  /** So a managed enabled service that has lost its defaults never gets them back from full syncs alone. */
  lemma {:induction false} SyncsNeverRepair(env: Environment, metas: set<EnterpriseMeta>, desired: map<Key, Event>,
                                            ws: seq<World>, Ls: seq<seq<Attempt>>, i: nat, k: Key)
    requires Chain(env, ws, Ls) && i < |ws|
    requires forall j :: 0 <= j < |Ls| ==> Ls[j] == [] || Covers(env, metas, desired, ws[j], Ls[j])
    requires Proper(env, metas) && Keyed(env, desired) && OwnIds(env, ws[0])
    requires k in EnabledKeys(desired) && k in ManagedIn(env, metas, ws[0])
    ensures OwnIds(env, ws[i]) && k in ManagedIn(env, metas, ws[i])
    ensures Lookup(ws[i].defaults, HomeDefaults(env, k)) == Lookup(ws[0].defaults, HomeDefaults(env, k))
  {
    hide Run, Proper, Keyed, Covers, ManagedIn, OwnIds;
    if i > 0 {
      SyncsNeverRepair(env, metas, desired, ws, Ls, i - 1, k);
      if Ls[i - 1] == [] {
        RunNothing(env, ws[i - 1]);
      } else {
        SyncLeavesManaged(env, metas, desired, ws[i - 1], Ls[i - 1], k);
        OthersKept(env, ws[i - 1], Ls[i - 1]);
      }
    }
  }

  lemma GovernedOwnIds(env: Environment, metas: set<EnterpriseMeta>, desired: map<Key, Event>, w: World)
    requires Governed(env, metas, desired, w)
    ensures OwnIds(env, w)
  {
  }

  /******* Parameters *******/

  /** The third step of the attempt took effect on the parameter. */
  predicate Touches(env: Environment, a: Attempt, slot: string) {
    ParamSlot(env, a.event) == slot && !ParamChange(env, a.event, a.replies).Keep?
  }

  /** The last attempt that does so. */
  predicate Decides(env: Environment, L: seq<Attempt>, slot: string, i: nat) {
    && i < |L| && Touches(env, L[i], slot)
    && forall j :: i < j < |L| ==> !Touches(env, L[j], slot)
  }

  lemma {:induction false} SomeDecides(env: Environment, L: seq<Attempt>, slot: string)
    requires exists a :: a in L && Touches(env, a, slot)
    ensures exists i: nat :: Decides(env, L, slot, i)
  {
    hide Touches;
    var n := |L| - 1;
    if Touches(env, L[n], slot) {
      assert Decides(env, L, slot, n);
    } else {
      assert L == L[..n] + [L[n]];
      SomeDecides(env, L[..n], slot);
      var i: nat :| Decides(env, L[..n], slot, i);
      assert Decides(env, L, slot, i);
    }
  }

  /** What the deciding attempt leaves: the data of an upsert, nothing of a delete. */
  lemma ParameterAfter(env: Environment, w: World, L: seq<Attempt>, slot: string, i: nat)
    requires Decides(env, L, slot, i)
    ensures Lookup(Run(env, w, L).params, slot) == if L[i].event.Upsert? then TLSData(L[i].replies) else None
    ensures L[i].event.Upsert? ==> TLSData(L[i].replies).Some?
  {
    hide ParamSlot, TLSData, UpdateAll, Run;
    RunParam(env, w, L);
    LastDecides(w.params, Mapped(L, ParamWrite(env)), i);
  }

  /**
   After a run a parameter is present exactly if the last attempt whose third step took effect on
   it was an upsert, or there was none and it was present before.
   */
  lemma ParameterPresent(env: Environment, w: World, L: seq<Attempt>, slot: string)
    ensures slot in Run(env, w, L).params <==>
            || (exists i: nat :: Decides(env, L, slot, i) && L[i].event.Upsert?)
            || (slot in w.params && forall a :: a in L ==> !Touches(env, a, slot))
  {
    hide Run, ParamSlot;
    if exists a :: a in L && Touches(env, a, slot) {
      SomeDecides(env, L, slot);
      var i: nat :| Decides(env, L, slot, i);
      hide Touches;
      ParameterAfter(env, w, L, slot, i);
      assert L[i] in L;
      forall j: nat | Decides(env, L, slot, j) ensures j == i {
      }
    } else {
      RunParam(env, w, L);
      MappedUntouched(w.params, L, ParamWrite(env), slot);
    }
  }

  function Joined(Ls: seq<seq<Attempt>>): seq<Attempt> {
    if Ls == [] then [] else Joined(Ls[..|Ls| - 1]) + Ls[|Ls| - 1]
  }

  lemma {:induction false} RunConcat(env: Environment, w: World, L: seq<Attempt>, M: seq<Attempt>)
    ensures Run(env, w, L + M) == Run(env, Run(env, w, L), M)
  {
    if M == [] {
      assert L + M == L;
    } else {
      assert (L + M)[..|L + M| - 1] == L + M[..|M| - 1];
      RunConcat(env, w, L, M[..|M| - 1]);
    }
  }

  /** A chain is one long run, so the last attempt of all to touch a parameter decides about it. */
  lemma {:induction false} ChainIsOneRun(env: Environment, ws: seq<World>, Ls: seq<seq<Attempt>>)
    requires Chain(env, ws, Ls)
    ensures ws[|Ls|] == Run(env, ws[0], Joined(Ls))
  {
    hide Run;
    if Ls == [] {
      RunNothing(env, ws[0]);
    } else {
      var n := |Ls| - 1;
      ChainIsOneRun(env, ws[..|Ls|], Ls[..n]);
      RunConcat(env, ws[0], Joined(Ls[..n]), Ls[n]);
    }
  }
}
