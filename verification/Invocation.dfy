/**
 The registrator against the mutable state of Consul and the parameter store: the three
 writes of each `Reconcile`, and a whole invocation.
 */
module Invocation {
  import opened Wrappers
  import opened Structs
  import opened Slots
  import opened Events
  import opened Consul
  import opened FullSync

  datatype Detail = Detail(errorCode: string, eventName: string, functionArn: string, resource: string)

  /** The payload of an invocation, by its `source`. */
  datatype RawEvent = NoSource | Scheduled | LambdaApi(detail: Detail) | OtherSource(source: string)

  datatype RequestError = MissingSource | Unprocessable | UnsupportedKind | ArnUndefined | NoFunction
      | Sync(e: SyncError)

  const CREATE_NAMES := {"CreateFunction20150331", "CreateFunction"}
  const TAG_NAMES := {"TagResource20170331v2", "TagResource20170331", "TagResource",
                      "UntagResource20170331v2", "UntagResource20170331", "UntagResource"}

  /** The function an AWS API event is about. */
  function EventArn(d: Detail): Result<string, RequestError> {
    if d.eventName !in CREATE_NAMES && d.eventName !in TAG_NAMES then Err(UnsupportedKind)
    else
      var arn := if d.eventName in CREATE_NAMES then d.functionArn else d.resource;
      if arn == "" then Err(ArnUndefined) else Ok(arn)
  }

  /** What an AWS API event asks for, given the functions that can be retrieved. */
  function ArnEvents(env: Environment, funcs: Listing, d: Detail): Result<seq<Event>, RequestError> {
    if EventArn(d).Err? then Err(EventArn(d).error)
    else if EventArn(d).value !in funcs then Err(NoFunction)
    else
      var r := LambdaEvents(env, funcs[EventArn(d).value]);
      if r.Err? then Err(Sync(r.error)) else Ok(r.value)
  }

  /** An event that reports a failed API call asks for nothing. */
  function RequestedEvents(env: Environment, funcs: Listing, d: Detail): Result<seq<Event>, RequestError> {
    if d.errorCode != "" then Ok([]) else ArnEvents(env, funcs, d)
  }

  /** These events are what an invocation goes on to reconcile. */
  ghost predicate Asked(env: Environment, s: Snapshot, catalog: map<CatalogKey, CatalogEntry>, raw: RawEvent,
                        events: seq<Event>) {
    match raw
    case Scheduled => CanSync(env, s) && FullSyncEmits(env, s, catalog, events)
    case LambdaApi(d) => RequestedEvents(env, s.Retrieved(), d) == Ok(events)
    case _ => false
  }

  predicate Answerable(env: Environment, s: Snapshot, raw: RawEvent) {
    match raw
    case Scheduled => CanSync(env, s)
    case LambdaApi(d) => RequestedEvents(env, s.Retrieved(), d).Ok?
    case _ => false
  }

  /** One invocation leads from `w` to `v` by these attempts. */
  ghost predicate Handles(env: Environment, raw: RawEvent, s: Snapshot, replies: nat -> Replies, w: World,
                          L: seq<Attempt>, v: World) {
    && v == Run(env, w, L)
    && if Answerable(env, s, raw)
       then exists events :: Asked(env, s, w.catalog, raw, events) && L == Attempts(events, replies)
       else L == []
  }

  method AWSEventToEvents(env: Environment, funcs: Listing, d: Detail) returns (r: Result<seq<Event>, RequestError>)
    ensures r == ArnEvents(env, funcs, d)
  {
    var arn := "";
    if d.eventName in CREATE_NAMES {
      arn := d.functionArn;
    } else if d.eventName in TAG_NAMES {
      arn := d.resource;
    } else {
      return Err(UnsupportedKind);
    }
    if arn == "" {
      return Err(ArnUndefined);
    }
    if arn !in funcs {
      return Err(NoFunction);
    }
    var events := GetLambdaEvents(env, funcs[arn]);
    if events.Err? {
      return Err(Sync(events.error));
    }
    return Ok(events.value);
  }

  class Registrator {
    const env: Environment
    var catalog: map<CatalogKey, CatalogEntry>
    var defaults: map<DefaultsKey, LambdaArguments>
    var params: map<string, ExtensionData>

    ghost function State(): World
      reads this
    {
      World(catalog, defaults, params)
    }

    constructor (env: Environment, w: World)
      ensures this.env == env && State() == w
    {
      this.env := env;
      catalog, defaults, params := w.catalog, w.defaults, w.params;
    }

    /******* Upserts *******/

    method StoreServiceDefaults(e: Event, r: Replies) returns (ok: bool)
      requires e.Upsert?
      modifies this`defaults
      ensures defaults == Update(old(defaults), DefaultsSlot(env, e), DefaultsChange(e, r))
      ensures ok <==> r.defaults.Applied?
    {
      if !r.defaults.Refused? {
        defaults := defaults[DefaultsKey(WriteScope(env, e.service), e.service.name) := e.args];
      }
      return r.defaults.Applied?;
    }

    method RegisterService(e: Event, r: Replies) returns (ok: bool)
      requires e.Upsert? && r.defaults.Applied?
      modifies this`catalog
      ensures catalog == Update(old(catalog), CatalogSlot(env, e), CatalogChange(e, r))
      ensures ok <==> r.catalog.Applied?
    {
      if !r.catalog.Refused? {
        var registration := CatalogEntry(e.service.name, [MANAGED_TAG]);
        catalog := catalog[CatalogKey(WriteScope(env, e.service), env.nodeName, e.service.name) := registration];
      }
      return r.catalog.Applied?;
    }

    method UpsertTLSData(e: Event, r: Replies) returns (ok: bool)
      requires e.Upsert? && r.defaults.Applied? && r.catalog.Applied?
      modifies this`params
      ensures params == Update(old(params), ParamSlot(env, e), ParamChange(env, e, r))
      ensures ok <==> Succeeds(env, Attempt(e, r))
    {
      if !env.IsManagingTLS() {
        return true;
      }
      if r.roots.None? {
        return false;
      }
      var roots, active := r.roots.value.roots, r.roots.value.activeRootId;
      var caRoot: Option<CARoot> := None;
      var i := 0;
      while i < |roots|
        invariant 0 <= i <= |roots|
        invariant ActiveRoot(roots, active) == ActiveRoot(roots[i..], active)
      {
        if roots[i].id == active {
          caRoot := Some(roots[i]);
          break;
        }
        i := i + 1;
      }
      if caRoot.None? || r.leaf.None? {
        return false;
      }
      var data := ExtensionData(r.leaf.value.privateKeyPEM, r.leaf.value.certPEM, caRoot.value.rootCertPEM,
                                r.roots.value.trustDomain, []);
      var service := NamedService(None, e.service.name, e.service.datacenter);
      service := service.(trustDomain := r.roots.value.trustDomain);
      if e.service.em.Some? {
        service := service.(em := e.service.em);
      }
      if !r.store.Refused? {
        params := params[env.extensionDataPrefix + service.ExtensionPath() := data];
      }
      return r.store.Applied?;
    }

    method ReconcileUpsert(e: Event, r: Replies) returns (ok: bool)
      requires e.Upsert?
      modifies this
      ensures State() == Step(env, old(State()), Attempt(e, r))
      ensures ok <==> Succeeds(env, Attempt(e, r))
    {
      ok := StoreServiceDefaults(e, r);
      if !ok {
        return;
      }
      ok := RegisterService(e, r);
      if !ok {
        return;
      }
      ok := UpsertTLSData(e, r);
    }

    /******* Deletes *******/

    method DeleteServiceDefaults(e: Event, r: Replies) returns (ok: bool)
      requires e.Delete?
      modifies this`defaults
      ensures defaults == Update(old(defaults), DefaultsSlot(env, e), DefaultsChange(e, r))
      ensures ok <==> r.defaults.Applied?
    {
      if !r.defaults.Refused? {
        defaults := defaults - {DefaultsKey(WriteScope(env, e.service), e.service.name)};
      }
      return r.defaults.Applied?;
    }

    method DeregisterService(e: Event, r: Replies) returns (ok: bool)
      requires e.Delete? && r.defaults.Applied?
      modifies this`catalog
      ensures catalog == Update(old(catalog), CatalogSlot(env, e), CatalogChange(e, r))
      ensures ok <==> r.catalog.Applied?
    {
      if !r.catalog.Refused? {
        catalog := catalog - {CatalogKey(WriteScope(env, e.service), env.nodeName, e.service.name)};
      }
      return r.catalog.Applied?;
    }

    method DeleteTLSData(e: Event, r: Replies) returns (ok: bool)
      requires e.Delete? && r.defaults.Applied? && r.catalog.Applied?
      modifies this`params
      ensures params == Update(old(params), ParamSlot(env, e), ParamChange(env, e, r))
      ensures ok <==> Succeeds(env, Attempt(e, r))
    {
      if !env.IsManagingTLS() {
        return true;
      }
      var service := NamedService(None, e.service.name, e.service.datacenter);
      if e.service.em.Some? {
        service := service.(em := e.service.em);
      }
      if !r.store.Refused? {
        params := params - {env.extensionDataPrefix + service.ExtensionPath()};
      }
      return r.store.Applied?;
    }

    method ReconcileDelete(e: Event, r: Replies) returns (ok: bool)
      requires e.Delete?
      modifies this
      ensures State() == Step(env, old(State()), Attempt(e, r))
      ensures ok <==> Succeeds(env, Attempt(e, r))
    {
      ok := DeleteServiceDefaults(e, r);
      if !ok {
        return;
      }
      ok := DeregisterService(e, r);
      if !ok {
        return;
      }
      ok := DeleteTLSData(e, r);
    }

    method Reconcile(e: Event, r: Replies) returns (ok: bool)
      modifies this
      ensures State() == Step(env, old(State()), Attempt(e, r))
      ensures ok <==> Succeeds(env, Attempt(e, r))
    {
      if e.Upsert? {
        ok := ReconcileUpsert(e, r);
      } else {
        ok := ReconcileDelete(e, r);
      }
    }

    /******* One invocation *******/

    method GetEvents(raw: RawEvent, s: Snapshot) returns (r: Result<seq<Event>, RequestError>)
      ensures r.Ok? <==> Answerable(env, s, raw)
      ensures r.Ok? ==> Asked(env, s, catalog, raw, r.value)
      ensures raw == NoSource ==> r == Err(MissingSource)
      ensures raw.OtherSource? ==> r == Err(Unprocessable)
      ensures raw.LambdaApi? ==> r == RequestedEvents(env, s.Retrieved(), raw.detail)
    {
      match raw
      case NoSource => return Err(MissingSource);
      case OtherSource(_) => return Err(Unprocessable);
      case LambdaApi(d) =>
        if d.errorCode != "" {
          return Ok([]);
        }
        r := AWSEventToEvents(env, s.Retrieved(), d);
      case Scheduled =>
        var events := FullSyncData(env, s, catalog);
        return if events.Ok? then Ok(events.value) else Err(Sync(events.error));
    }

    method HandleRequest(raw: RawEvent, s: Snapshot, replies: nat -> Replies)
      returns (ok: bool, ghost L: seq<Attempt>)
      modifies this
      ensures Handles(env, raw, s, replies, old(State()), L, State())
      ensures ok <==> Answerable(env, s, raw) && forall a :: a in L ==> Succeeds(env, a)
    {
      hide Run, Step, Succeeds, Asked, Answerable;
      L := [];
      RunNothing(env, State());
      var r := GetEvents(raw, s);
      if r.Err? {
        return false, [];
      }
      var events, errors := r.value, 0;
      for i := 0 to |events|
        invariant L == Attempts(events[..i], replies)
        invariant State() == Run(env, old(State()), L)
        invariant errors >= 0 && (errors == 0 <==> forall a :: a in L ==> Succeeds(env, a))
      {
        var done := Reconcile(events[i], replies(i));
        if !done {
          errors := errors + 1;
        }
        RunOneMore(env, old(State()), L, Attempt(events[i], replies(i)));
        assert events[..i + 1] == events[..i] + [events[i]];
        L := L + [Attempt(events[i], replies(i))];
      }
      assert events[..|events|] == events;
      return errors == 0, L;
    }
  }
}
