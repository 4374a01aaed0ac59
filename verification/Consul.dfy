/**
 Consul's catalog and service defaults and the parameter store, and what reconciling one
 event does to them when each request may be answered, lost, or carried out without an answer.
 */
module Consul {
  import opened Wrappers
  import opened Structs
  import opened Slots
  import opened Events

  const MANAGED_TAG := "managed-by-lambda-registrator"

  /** Where a write lands: a datacenter, and a partition and namespace within it. */
  datatype Scope = Scope(dc: string, em: EnterpriseMeta)

  datatype CatalogKey = CatalogKey(scope: Scope, node: string, id: string)

  datatype CatalogEntry = CatalogEntry(service: string, tags: seq<string>)

  datatype DefaultsKey = DefaultsKey(scope: Scope, name: string)

  datatype World = World(
    catalog: map<CatalogKey, CatalogEntry>,
    defaults: map<DefaultsKey, LambdaArguments>,
    params: map<string, ExtensionData>)

  /** How a write request ends. Only `Applied` is seen as success; `Unacknowledged` took effect all the same. */
  datatype Reply = Applied | Refused | Unacknowledged

  datatype CARoot = CARoot(id: string, rootCertPEM: string)

  datatype CARoots = CARoots(activeRootId: string, trustDomain: string, roots: seq<CARoot>)

  datatype LeafCert = LeafCert(privateKeyPEM: string, certPEM: string)

  /** The answers the outside world gives to the requests of one `Reconcile`, in their order. */
  datatype Replies = Replies(
    defaults: Reply,
    catalog: Reply,
    roots: Option<CARoots>,
    leaf: Option<LeafCert>,
    store: Reply)

  datatype Attempt = Attempt(event: Event, replies: Replies)

  /** Each event with the answers its requests get; `replies` is the environment's choice. */
  function Attempts(events: seq<Event>, replies: nat -> Replies): (L: seq<Attempt>)
    ensures |L| == |events|
  {
    seq(|events|, i requires 0 <= i < |events| => Attempt(events[i], replies(i)))
  }

  /** `QueryOptions` and `WriteOptions`: an empty datacenter means the agent's own. */
  function WriteScope(env: Environment, s: Service): Scope {
    Scope(if s.datacenter == "" then env.agentDatacenter else s.datacenter, EmKey(s.em))
  }

  function CatalogSlot(env: Environment, e: Event): CatalogKey {
    CatalogKey(WriteScope(env, e.service), env.nodeName, e.service.name)
  }

  function DefaultsSlot(env: Environment, e: Event): DefaultsKey {
    DefaultsKey(WriteScope(env, e.service), e.service.name)
  }

  function ParamSlot(env: Environment, e: Event): string {
    env.extensionDataPrefix + e.service.ExtensionPath()
  }

  function ActiveRoot(roots: seq<CARoot>, id: string): Option<CARoot> {
    if roots == [] then None
    else if roots[0].id == id then Some(roots[0])
    else ActiveRoot(roots[1..], id)
  }

  /** It is the first root with the given ID. */
  lemma {:induction false} ActiveRootIsFirst(roots: seq<CARoot>, id: string, i: nat)
    requires i < |roots| && roots[i].id == id && forall j :: 0 <= j < i ==> roots[j].id != id
    ensures ActiveRoot(roots, id) == Some(roots[i])
  {
    if i > 0 {
      ActiveRootIsFirst(roots[1..], id, i - 1);
    }
  }

  lemma {:induction false} NoActiveRoot(roots: seq<CARoot>, id: string)
    ensures ActiveRoot(roots, id).None? <==> forall i :: 0 <= i < |roots| ==> roots[i].id != id
  {
    if roots != [] {
      NoActiveRoot(roots[1..], id);
      assert forall i :: 1 <= i < |roots| ==> roots[i] == roots[1..][i - 1];
    }
  }

  /** The mTLS data of an upsert, if the active root and a leaf can be had. */
  function TLSData(r: Replies): Option<ExtensionData> {
    if r.roots.None? || r.leaf.None? then None
    else
      var root := ActiveRoot(r.roots.value.roots, r.roots.value.activeRootId);
      if root.None? then None
      else Some(ExtensionData(r.leaf.value.privateKeyPEM, r.leaf.value.certPEM, root.value.rootCertPEM,
                              r.roots.value.trustDomain, []))
  }

  /** What the catalog holds for a registered function. */
  function Registration(name: string): CatalogEntry {
    CatalogEntry(name, [MANAGED_TAG])
  }

  /******* The three steps: each is reached only if the one before was answered *******/

  function DefaultsChange(e: Event, r: Replies): Change<LambdaArguments> {
    if r.defaults.Refused? then Keep
    else if e.Upsert? then Put(e.args) else Drop
  }

  /** The catalog step took effect. */
  predicate Commits(r: Replies) {
    r.defaults.Applied? && !r.catalog.Refused?
  }

  function CatalogChange(e: Event, r: Replies): Change<CatalogEntry> {
    if !Commits(r) then Keep
    else if e.Upsert? then Put(Registration(e.service.name)) else Drop
  }

  function ParamChange(env: Environment, e: Event, r: Replies): Change<ExtensionData> {
    if !env.IsManagingTLS() || !r.defaults.Applied? || !r.catalog.Applied? || r.store.Refused? then Keep
    else if e.Delete? then Drop
    else if TLSData(r).Some? then Put(TLSData(r).value) else Keep
  }

  /** `Reconcile` returned no error. */
  predicate Succeeds(env: Environment, a: Attempt) {
    && a.replies.defaults.Applied?
    && a.replies.catalog.Applied?
    && (env.IsManagingTLS() ==> (a.event.Upsert? ==> TLSData(a.replies).Some?) && a.replies.store.Applied?)
  }

  function Step(env: Environment, w: World, a: Attempt): World {
    World(Update(w.catalog, CatalogSlot(env, a.event), CatalogChange(a.event, a.replies)),
          Update(w.defaults, DefaultsSlot(env, a.event), DefaultsChange(a.event, a.replies)),
          Update(w.params, ParamSlot(env, a.event), ParamChange(env, a.event, a.replies)))
  }

  /** Attempts one after the other; a failed one does not stop the rest. */
  function Run(env: Environment, w: World, L: seq<Attempt>): World {
    if L == [] then w else Step(env, Run(env, w, L[..|L| - 1]), L[|L| - 1])
  }

  lemma RunNothing(env: Environment, w: World)
    ensures Run(env, w, []) == w
  {
  }

  lemma RunOneMore(env: Environment, w: World, L: seq<Attempt>, a: Attempt)
    ensures Run(env, w, L + [a]) == Step(env, Run(env, w, L), a)
  {
    assert (L + [a])[..|L|] == L;
  }

  /******* A run as three independent lists of writes *******/

  function CatalogWrite(env: Environment): Attempt -> Write<CatalogKey, CatalogEntry> {
    (a: Attempt) => Write(CatalogSlot(env, a.event), CatalogChange(a.event, a.replies))
  }

  function DefaultsWrite(env: Environment): Attempt -> Write<DefaultsKey, LambdaArguments> {
    (a: Attempt) => Write(DefaultsSlot(env, a.event), DefaultsChange(a.event, a.replies))
  }

  function ParamWrite(env: Environment): Attempt -> Write<string, ExtensionData> {
    (a: Attempt) => Write(ParamSlot(env, a.event), ParamChange(env, a.event, a.replies))
  }

  lemma {:induction false} RunCatalog(env: Environment, w: World, L: seq<Attempt>)
    ensures Run(env, w, L).catalog == UpdateAll(w.catalog, Mapped(L, CatalogWrite(env)))
  {
    if L != [] {
      var n := |L| - 1;
      RunCatalog(env, w, L[..n]);
      assert Mapped(L, CatalogWrite(env))[..n] == Mapped(L[..n], CatalogWrite(env));
    }
  }

  lemma {:induction false} RunDefaults(env: Environment, w: World, L: seq<Attempt>)
    ensures Run(env, w, L).defaults == UpdateAll(w.defaults, Mapped(L, DefaultsWrite(env)))
  {
    if L != [] {
      var n := |L| - 1;
      RunDefaults(env, w, L[..n]);
      assert Mapped(L, DefaultsWrite(env))[..n] == Mapped(L[..n], DefaultsWrite(env));
    }
  }

  lemma {:induction false} RunParam(env: Environment, w: World, L: seq<Attempt>)
    ensures Run(env, w, L).params == UpdateAll(w.params, Mapped(L, ParamWrite(env)))
  {
    if L != [] {
      var n := |L| - 1;
      RunParam(env, w, L[..n]);
      assert Mapped(L, ParamWrite(env))[..n] == Mapped(L[..n], ParamWrite(env));
    }
  }
}
