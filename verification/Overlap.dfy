/**
 Invocations that overlap: the three writes of each event are steps of their own, and any number
 of events are under way at a time, in any interleaving. An event may be dropped after each step.
 */
module Overlap {
  import opened Wrappers
  import opened Structs
  import opened Slots
  import opened Events
  import opened Consul
  import opened FullSync
  import opened Recovery

  /** The write an attempt is about to make. */
  datatype Pc = Defaults | Catalog | Parameter | Over

  datatype Flight = Flight(a: Attempt, pc: Pc)

  datatype State = State(w: World, flights: seq<Flight>)

  datatype Action = Begin(a: Attempt) | Advance(i: nat)

  /** Every invocation attempts what the functions call for, as often as it likes. */
  predicate Enabled(metas: set<EnterpriseMeta>, desired: map<Key, Event>, s: State, act: Action) {
    match act
    case Begin(a) => Faithful(metas, desired, a)
    case Advance(i) => i < |s.flights| && !s.flights[i].pc.Over?
  }

  function NextPc(f: Flight): Pc {
    match f.pc
    case Defaults => if f.a.replies.defaults.Applied? then Catalog else Over
    case Catalog => if f.a.replies.catalog.Applied? then Parameter else Over
    case Parameter => Over
    case Over => Over
  }

  /** One write. */
  function Written(env: Environment, w: World, f: Flight): World {
    var e, r := f.a.event, f.a.replies;
    match f.pc
    case Defaults => w.(defaults := Update(w.defaults, DefaultsSlot(env, e), DefaultsChange(e, r)))
    case Catalog => w.(catalog := Update(w.catalog, CatalogSlot(env, e), CatalogChange(e, r)))
    case Parameter => w.(params := Update(w.params, ParamSlot(env, e), ParamChange(env, e, r)))
    case Over => w
  }

  function Do(env: Environment, s: State, act: Action): State
    requires act.Advance? ==> act.i < |s.flights|
  {
    match act
    case Begin(a) => s.(flights := s.flights + [Flight(a, Defaults)])
    case Advance(i) =>
      var f := s.flights[i];
      State(Written(env, s.w, f), s.flights[i := f.(pc := NextPc(f))])
  }

  ghost predicate Next(env: Environment, metas: set<EnterpriseMeta>, desired: map<Key, Event>, s: State, t: State) {
    exists act :: Enabled(metas, desired, s, act) && t == Do(env, s, act)
  }

  ghost predicate Interleaving(env: Environment, metas: set<EnterpriseMeta>, desired: map<Key, Event>, ss: seq<State>) {
    && |ss| > 0 && ss[0].flights == []
    && forall i :: 0 <= i < |ss| - 1 ==> Next(env, metas, desired, ss[i], ss[i + 1])
  }

  /******* One event on its own *******/

  function Alone(env: Environment, w: World, f: Flight): World
    decreases match f.pc case Defaults => 3 case Catalog => 2 case Parameter => 1 case Over => 0
  {
    if f.pc.Over? then w else Alone(env, Written(env, w, f), f.(pc := NextPc(f)))
  }

  /** An event that nothing comes between does what a whole `Reconcile` does. */
  lemma AloneIsStep(env: Environment, w: World, a: Attempt)
    ensures Alone(env, w, Flight(a, Defaults)) == Step(env, w, a)
  {
    var f := Flight(a, Defaults);
    var g := f.(pc := NextPc(f));
    var v := Written(env, w, f);
    if g.pc.Catalog? {
      var h := g.(pc := NextPc(g));
      assert Alone(env, v, g) == Alone(env, Written(env, v, g), h);
    }
  }

  /******* What every write keeps *******/

  /** An attempt past its first write finds done what that write was for. */
  predicate FlightOk(env: Environment, w: World, f: Flight) {
    f.pc.Catalog? || f.pc.Parameter? ==>
      && f.a.replies.defaults.Applied?
      && Lookup(w.defaults, DefaultsSlot(env, f.a.event)) == if f.a.event.Upsert? then Some(f.a.event.args) else None
  }

  ghost predicate FlightsOk(env: Environment, metas: set<EnterpriseMeta>, desired: map<Key, Event>, s: State) {
    forall i :: 0 <= i < |s.flights| ==> Faithful(metas, desired, s.flights[i].a) && FlightOk(env, s.w, s.flights[i])
  }

  /** Attempts at one key are attempts at the same. */
  lemma SameKeySameEvent(metas: set<EnterpriseMeta>, desired: map<Key, Event>, env: Environment, a: Attempt, b: Attempt)
    requires Faithful(metas, desired, a) && Faithful(metas, desired, b)
    requires DefaultsSlot(env, a.event) == DefaultsSlot(env, b.event)
    ensures a.event == b.event
  {
    assert KeyOf(a.event) == KeyOf(b.event);
  }

  lemma FlightsKept(env: Environment, metas: set<EnterpriseMeta>, desired: map<Key, Event>, s: State, act: Action)
    requires FlightsOk(env, metas, desired, s) && Enabled(metas, desired, s, act)
    ensures FlightsOk(env, metas, desired, Do(env, s, act))
  {
    hide Faithful, DefaultsSlot, CatalogSlot, ParamSlot, ParamChange, CatalogChange;
    var t := Do(env, s, act);
    forall j | 0 <= j < |t.flights|
      ensures Faithful(metas, desired, t.flights[j].a) && FlightOk(env, t.w, t.flights[j])
    {
      if act.Advance? {
        var a, b := s.flights[act.i].a, s.flights[j].a;
        if DefaultsSlot(env, a.event) == DefaultsSlot(env, b.event) {
          SameKeySameEvent(metas, desired, env, a, b);
        }
      }
    }
  }

  lemma GovernedByCatalog(env: Environment, metas: set<EnterpriseMeta>, desired: map<Key, Event>, w: World, v: World)
    requires Governed(env, metas, desired, w) && w.catalog == v.catalog
    ensures Governed(env, metas, desired, v)
  {
    assert forall c :: HasTag(v, c) <==> HasTag(w, c);
    forall k: Key | k.em in metas ensures !Foreign(env, v, k) {
      assert !Foreign(env, w, k);
    }
  }

  lemma GovernedByWrite(env: Environment, metas: set<EnterpriseMeta>, desired: map<Key, Event>, w: World, f: Flight)
    requires Governed(env, metas, desired, w)
    ensures Governed(env, metas, desired, Written(env, w, f))
  {
    hide Governed;
    if f.pc.Catalog? {
      RunNothing(env, w);
      RunOneMore(env, w, [], f.a);
      GovernedKept(env, metas, desired, w, [] + [f.a]);
      GovernedByCatalog(env, metas, desired, Step(env, w, f.a), Written(env, w, f));
    } else {
      GovernedByCatalog(env, metas, desired, w, Written(env, w, f));
    }
  }

  /** Writing the defaults an attempt is for keeps every key sound. */
  lemma DefaultsSound(env: Environment, metas: set<EnterpriseMeta>, desired: map<Key, Event>, w0: World, w: World,
                      f: Flight, k: Key)
    requires Governed(env, metas, desired, w) && Faithful(metas, desired, f.a) && f.pc.Defaults?
    requires KeySound(env, metas, desired, w0, w, k)
    ensures KeySound(env, metas, desired, w0, Written(env, w, f), k)
  {
    hide ManagedKeys, OwnIds, Foreign;
    assert DefaultsSlot(env, f.a.event) == HomeDefaults(env, KeyOf(f.a.event));
    assert ManagedIn(env, metas, Written(env, w, f)) == ManagedIn(env, metas, w);
  }

  /** So does writing the catalog after the defaults have been written. */
  lemma CatalogSound(env: Environment, metas: set<EnterpriseMeta>, desired: map<Key, Event>, w0: World, w: World,
                     f: Flight, k: Key)
    requires Proper(env, metas) && Governed(env, metas, desired, w) && Faithful(metas, desired, f.a)
    requires f.pc.Catalog? && FlightOk(env, w, f) && KeySound(env, metas, desired, w0, w, k)
    ensures KeySound(env, metas, desired, w0, Written(env, w, f), k)
  {
    hide ManagedIn, Proper, OwnIds, Foreign;
    var v := Written(env, w, f);
    GovernedByWrite(env, metas, desired, w, f);
    GovernedManaged(env, metas, desired, w, k);
    GovernedManaged(env, metas, desired, v, k);
    StepAt(env, metas, desired, w, f.a, k);
    assert Own(env, v, k) <==> Own(env, Step(env, w, f.a), k);
    assert DefaultsSlot(env, f.a.event) == HomeDefaults(env, KeyOf(f.a.event));
  }

  lemma WriteSound(env: Environment, metas: set<EnterpriseMeta>, desired: map<Key, Event>, w0: World, w: World,
                   f: Flight, k: Key)
    requires Proper(env, metas) && Governed(env, metas, desired, w) && Faithful(metas, desired, f.a)
    requires FlightOk(env, w, f) && KeySound(env, metas, desired, w0, w, k)
    ensures KeySound(env, metas, desired, w0, Written(env, w, f), k)
  {
    hide Proper, Governed, Faithful, FlightOk, ManagedKeys;
    match f.pc
    case Defaults => DefaultsSound(env, metas, desired, w0, w, f, k);
    case Catalog => CatalogSound(env, metas, desired, w0, w, f, k);
    case Parameter =>
    case Over =>
  }

  /** Every single write of every interleaving keeps every key sound. */
  lemma {:induction false} InterleavingSound(env: Environment, metas: set<EnterpriseMeta>, desired: map<Key, Event>,
                                             ss: seq<State>, i: nat, k: Key)
    requires Interleaving(env, metas, desired, ss) && i < |ss|
    requires Proper(env, metas) && Governed(env, metas, desired, ss[0].w)
    requires k in EnabledKeys(desired) && k in ManagedIn(env, metas, ss[0].w) ==> HasDefaults(env, ss[0].w, k)
    ensures FlightsOk(env, metas, desired, ss[i]) && Governed(env, metas, desired, ss[i].w)
    ensures KeySound(env, metas, desired, ss[0].w, ss[i].w, k)
  {
    hide Proper, Governed, ManagedIn, Faithful, FlightOk, Written;
    if i > 0 {
      InterleavingSound(env, metas, desired, ss, i - 1, k);
      hide KeySound;
      assert Next(env, metas, desired, ss[i - 1], ss[i]);
      var act :| Enabled(metas, desired, ss[i - 1], act) && ss[i] == Do(env, ss[i - 1], act);
      FlightsKept(env, metas, desired, ss[i - 1], act);
      if act.Advance? {
        var f := ss[i - 1].flights[act.i];
        GovernedByWrite(env, metas, desired, ss[i - 1].w, f);
        WriteSound(env, metas, desired, ss[0].w, ss[i - 1].w, f, k);
      }
    }
  }

  /**
   Whatever overlapping invocations have done, and wherever they were dropped, one full sync on its
   own whose catalog steps all take effect repairs it.
   */
  lemma OverlapRecovers(env: Environment, metas: set<EnterpriseMeta>, desired: map<Key, Event>, ss: seq<State>, i: nat,
                        L: seq<Attempt>)
    requires Interleaving(env, metas, desired, ss) && i < |ss|
    requires Proper(env, metas) && Keyed(env, desired) && Governed(env, metas, desired, ss[0].w)
    requires forall k :: k in EnabledKeys(desired) && k in ManagedIn(env, metas, ss[0].w) ==>
               HasDefaults(env, ss[0].w, k)
    requires Covers(env, metas, desired, ss[i].w, L) && forall a :: a in L ==> Commits(a.replies)
    ensures Recovered(env, metas, desired, [ss[0].w, ss[i].w, Run(env, ss[i].w, L)])
  {
    hide Proper, Keyed, Governed, Covers, ManagedIn, HasDefaults, HomeDefaults, Run, Interleaving, FlightsOk, Faithful;
    var w0, w, v := ss[0].w, ss[i].w, Run(env, ss[i].w, L);
    InterleavingSound(env, metas, desired, ss, i, Key(NO_META, ""));
    SyncRepairs(env, metas, desired, w, L);
    forall a | a in L ensures Faithful(metas, desired, a) {
      CoversFaithfully(env, metas, desired, w, L, a);
    }
    forall k
      ensures KeySound(env, metas, desired, w0, w, k) && KeySound(env, metas, desired, w0, v, k)
    {
      InterleavingSound(env, metas, desired, ss, i, k);
      RunSound(env, metas, desired, w0, w, L, k);
    }
    var ws := [w0, w, v];
    forall k | k in EnabledKeys(desired)
      ensures HasDefaults(env, v, k)
      ensures k !in ManagedIn(env, metas, w0) ==> Lookup(v.defaults, HomeDefaults(env, k)) == Some(desired[k].args)
    {
      assert KeySound(env, metas, desired, w0, v, k);
    }
    forall j, k | 0 <= j < |ws| && k in ManagedIn(env, metas, ws[j]) - EnabledKeys(desired)
      ensures !HasDefaults(env, v, k)
    {
      assert KeySound(env, metas, desired, w0, w, k) && KeySound(env, metas, desired, w0, v, k);
    }
  }
}
