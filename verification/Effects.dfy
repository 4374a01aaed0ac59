/**
 What the registrator does, from the tags of the functions on one side to the contents of the
 three stores on the other, without the definitions in between.
 */
module Effects {
  import opened Wrappers
  import opened Text
  import opened Structs
  import opened Slots
  import opened Events
  import opened Consul
  import opened FullSync
  import opened Invocation
  import opened Collection
  import opened Recovery
  import opened Agreement

  /******* Reading tags *******/

  predicate Tagged(fn: LambdaFunction, tag: string, value: string) {
    tag in fn.tags && fn.tags[tag] == value
  }

  /** A missing tag and an empty one are the same. */
  predicate Blank(fn: LambdaFunction, tag: string) {
    tag in fn.tags ==> fn.tags[tag] == ""
  }

  /** The registrator manages one datacenter, and the function is not tagged with it. */
  predicate PassedOver(env: Environment, fn: LambdaFunction) {
    env.datacenter != "" && !Tagged(fn, DATACENTER_TAG, env.datacenter)
  }

  predicate ModeOk(fn: LambdaFunction) {
    INVOCATION_MODE_TAG in fn.tags ==>
      Tagged(fn, INVOCATION_MODE_TAG, "ASYNCHRONOUS") || Tagged(fn, INVOCATION_MODE_TAG, "SYNCHRONOUS")
  }

  function NameOrDefault(fn: LambdaFunction, tag: string): string {
    if Blank(fn, tag) then "default" else fn.tags[tag]
  }

  /** The namespace and partition of the function's services; both blank without Enterprise. */
  function Place(env: Environment, fn: LambdaFunction): EnterpriseMeta {
    if env.isEnterprise
    then EnterpriseMeta(NameOrDefault(fn, NAMESPACE_TAG), NameOrDefault(fn, PARTITION_TAG))
    else EnterpriseMeta("", "")
  }

  /** With Enterprise the partition is one of those configured, without it there is none, nor a namespace. */
  predicate Admitted(env: Environment, fn: LambdaFunction) {
    if env.isEnterprise then NameOrDefault(fn, PARTITION_TAG) in env.partitions
    else Blank(fn, PARTITION_TAG) && Blank(fn, NAMESPACE_TAG)
  }

  predicate Handled(env: Environment, fn: LambdaFunction) {
    !PassedOver(env, fn) && ModeOk(fn) && Admitted(env, fn)
  }

  predicate On(fn: LambdaFunction) {
    Tagged(fn, ENABLED_TAG, "true")
  }

  function Datacenter(fn: LambdaFunction): string {
    if DATACENTER_TAG in fn.tags then fn.tags[DATACENTER_TAG] else ""
  }

  /** The function goes by this name, its own or that of an alias. */
  predicate Claims(fn: LambdaFunction, name: string) {
    name == fn.name || exists alias :: alias in Aliases(fn) && name == fn.name + "-" + alias
  }

  /** And under this name by this ARN. */
  predicate Registers(fn: LambdaFunction, name: string, arn: string) {
    || (name == fn.name && arn == fn.arn)
    || (exists alias :: alias in Aliases(fn) && name == fn.name + "-" + alias && arn == fn.arn + ":" + alias)
  }

  function Arguments(fn: LambdaFunction, arn: string): LambdaArguments {
    LambdaArguments(arn, Tagged(fn, PAYLOAD_PASSTHROUGH_TAG, "true"),
                    if INVOCATION_MODE_TAG in fn.tags then fn.tags[INVOCATION_MODE_TAG] else "SYNCHRONOUS")
  }

  /** The aliases tag is a list with plus signs between its elements. */
  lemma AliasesAreListed(fn: LambdaFunction, aliases: seq<string>)
    requires aliases != [] && forall a :: a in aliases ==> '+' !in a
    ensures Tagged(fn, ALIASES_TAG, Join(aliases, "+")) ==> Aliases(fn) == aliases
    ensures ALIASES_TAG !in fn.tags ==> Aliases(fn) == []
  {
    SplitJoin(aliases, '+');
  }

  lemma MetaIsPlace(env: Environment, fn: LambdaFunction)
    requires Admitted(env, fn)
    ensures Meta(env, fn) == if env.isEnterprise then Some(Place(env, fn)) else None
  {
  }

  /** What becomes of a function, by its tags. The checks apply in this order. */
  lemma Verdicts(env: Environment, fn: LambdaFunction)
    ensures
      var r := LambdaEvents(env, fn);
      if PassedOver(env, fn) then r == Ok([])
      else if !ModeOk(fn) then r == Err(InvalidInvocationMode(fn.tags[INVOCATION_MODE_TAG]))
      else if Admitted(env, fn) then r.Ok? && r.value != []
      else r == if env.isEnterprise then Ok([]) else Err(NotEnterprise)
  {
  }

  /** What is in each event, by the tags. */
  lemma EventText(env: Environment, fn: LambdaFunction, e: Event)
    requires e in EventsOf(env, fn)
    ensures Handled(env, fn) && (e.Upsert? <==> On(fn))
    ensures e.service == NamedService(if env.isEnterprise then Some(Place(env, fn))
        else None, e.service.name, Datacenter(fn))
    ensures Claims(fn, e.service.name)
    ensures e.Upsert? ==> Registers(fn, e.service.name, e.args.arn) && e.args == Arguments(fn, e.args.arn)
  {
    Verdicts(env, fn);
    MetaIsPlace(env, fn);
    var base, aliases := BaseEvent(env, fn), Aliases(fn);
    var i :| 0 <= i <= |aliases| && e == WithAliases(base, aliases)[i];
    if i > 0 {
      assert aliases[i - 1] in aliases;
    }
  }

  lemma EventFound(env: Environment, fn: LambdaFunction, name: string) returns (e: Event)
    requires Handled(env, fn) && Claims(fn, name)
    ensures e in EventsOf(env, fn) && e.service.name == name
  {
    Verdicts(env, fn);
    var base, aliases := BaseEvent(env, fn), Aliases(fn);
    var events := WithAliases(base, aliases);
    e := events[0];
    if name != fn.name {
      var i :| 0 <= i < |aliases| && name == fn.name + "-" + aliases[i];
      e := events[i + 1];
    }
  }

  lemma UpsertFound(env: Environment, fn: LambdaFunction, name: string, arn: string) returns (e: Event)
    requires Handled(env, fn) && On(fn) && Registers(fn, name, arn)
    ensures e in EventsOf(env, fn) && e.service.name == name && e.Upsert? && e.args == Arguments(fn, arn)
  {
    hide EventsOf, Handled, Place, Datacenter;
    var any := EventFound(env, fn, fn.name);
    EventText(env, fn, any);
    NamesAndArns(env, fn, name, arn);
    forall f | f in EventsOf(env, fn) ensures f.Upsert? {
      EventText(env, fn, f);
    }
    e :| e in EventsOf(env, fn) && e.service.name == name && e.Upsert? && e.args.arn == arn;
    EventText(env, fn, e);
  }

  /******* One event *******/

  /** Writes for a service go to its datacenter, or to that of the agent if it has none. */
  function Target(env: Environment, datacenter: string, em: EnterpriseMeta): Scope {
    Scope(if datacenter == "" then env.agentDatacenter else datacenter, em)
  }

  function ServiceTarget(env: Environment, s: Service): Scope {
    Target(env, s.datacenter, if s.em.Some? then s.em.value else EnterpriseMeta("", ""))
  }

  function ParameterPath(env: Environment, s: Service): string {
    env.extensionDataPrefix + "/" + s.PartitionOrDefault() + "/" + s.NamespaceOrDefault() + "/" + s.name
  }

  /** The data that come of the answers about roots and leaf: those of the first root with the active ID. */
  ghost predicate DataFrom(r: Replies, data: ExtensionData) {
    && r.roots.Some? && r.leaf.Some?
    && exists i ::
         && 0 <= i < |r.roots.value.roots|
         && r.roots.value.roots[i].id == r.roots.value.activeRootId
         && (forall j :: 0 <= j < i ==> r.roots.value.roots[j].id != r.roots.value.activeRootId)
         && data == ExtensionData(r.leaf.value.privateKeyPEM, r.leaf.value.certPEM, r.roots.value.roots[i].rootCertPEM,
                                  r.roots.value.trustDomain, [])
  }

  lemma DataIsTLSData(r: Replies, data: ExtensionData)
    ensures TLSData(r) == Some(data) <==> DataFrom(r, data)
  {
    if r.roots.Some? && r.leaf.Some? {
      var roots, id := r.roots.value.roots, r.roots.value.activeRootId;
      NoActiveRoot(roots, id);
      if DataFrom(r, data) {
        var i :|
          && 0 <= i < |roots| && roots[i].id == id && (forall j :: 0 <= j < i ==> roots[j].id != id)
          && data == ExtensionData(r.leaf.value.privateKeyPEM, r.leaf.value.certPEM, roots[i].rootCertPEM,
                                   r.roots.value.trustDomain, []);
        ActiveRootIsFirst(roots, id, i);
      }
      if TLSData(r) == Some(data) {
        var i := FirstActive(roots, id, |roots|);
        ActiveRootIsFirst(roots, id, i);
      }
    }
  }

  lemma {:induction false} FirstActive(roots: seq<CARoot>, id: string, n: nat) returns (i: nat)
    requires n <= |roots| && exists j :: 0 <= j < n && roots[j].id == id
    ensures i < n && roots[i].id == id && forall j :: 0 <= j < i ==> roots[j].id != id
  {
    if exists j :: 0 <= j < n - 1 && roots[j].id == id {
      i := FirstActive(roots, id, n - 1);
    } else {
      i := n - 1;
    }
  }

  /** Every write that is reached and not refused takes effect, whether the answer arrives or not. */
  lemma WritesTakeEffect(env: Environment, w: World, a: Attempt)
    ensures
      var v, s, r := Step(env, w, a), a.event.service, a.replies;
      var held := CatalogEntry(s.name, ["managed-by-lambda-registrator"]);
      && (!r.defaults.Refused? ==>
            Lookup(v.defaults, DefaultsKey(ServiceTarget(env, s), s.name))
            == if a.event.Upsert? then Some(a.event.args) else None)
      && (r.defaults.Applied? && !r.catalog.Refused? ==>
            Lookup(v.catalog, CatalogKey(ServiceTarget(env, s), env.nodeName, s.name))
            == if a.event.Upsert? then Some(held) else None)
      && (r.defaults.Applied? && r.catalog.Applied? && !r.store.Refused? && env.extensionDataPrefix != "" ==>
            && (a.event.Delete? ==> ParameterPath(env, s) !in v.params)
            && (a.event.Upsert? ==>
                  forall data :: DataFrom(r, data) ==> Lookup(v.params, ParameterPath(env, s)) == Some(data)))
  {
    var v := Step(env, w, a);
    PathIsSlot(env, a.event);
    assert Lookup(v.catalog, CatalogSlot(env, a.event))
        == After(Lookup(w.catalog, CatalogSlot(env, a.event)), CatalogChange(a.event, a.replies));
    assert Lookup(v.defaults, DefaultsSlot(env, a.event))
        == After(Lookup(w.defaults, DefaultsSlot(env, a.event)), DefaultsChange(a.event, a.replies));
    assert Lookup(v.params, ParamSlot(env, a.event))
        == After(Lookup(w.params, ParamSlot(env, a.event)), ParamChange(env, a.event, a.replies));
    forall data | DataFrom(a.replies, data) ensures TLSData(a.replies) == Some(data) {
      DataIsTLSData(a.replies, data);
    }
  }

  /** Everything else stays as it is. */
  lemma OnlyItsOwn(env: Environment, w: World, a: Attempt)
    ensures
      var v, s := Step(env, w, a), a.event.service;
      && (forall c :: c != CatalogKey(ServiceTarget(env, s), env.nodeName, s.name) ==>
            Lookup(v.catalog, c) == Lookup(w.catalog, c))
      && (forall d :: d != DefaultsKey(ServiceTarget(env, s), s.name) ==>
            Lookup(v.defaults, d) == Lookup(w.defaults, d))
      && (forall p :: p != ParameterPath(env, s) ==> Lookup(v.params, p) == Lookup(w.params, p))
  {
    PathIsSlot(env, a.event);
  }

  /**
   An upsert that succeeds leaves its service in the catalog, its arguments in the defaults, and its
   data in the parameter.
   */
  lemma UpsertStores(env: Environment, w: World, a: Attempt)
    requires a.event.Upsert? && Succeeds(env, a)
    ensures
      var v, s := Step(env, w, a), a.event.service;
      && Lookup(v.catalog, CatalogKey(ServiceTarget(env, s), env.nodeName, s.name))
         == Some(CatalogEntry(s.name, ["managed-by-lambda-registrator"]))
      && Lookup(v.defaults, DefaultsKey(ServiceTarget(env, s), s.name)) == Some(a.event.args)
      && (env.extensionDataPrefix != "" ==>
            ParameterPath(env, s) in v.params && DataFrom(a.replies, v.params[ParameterPath(env, s)]))
  {
    PathIsSlot(env, a.event);
    if env.extensionDataPrefix != "" {
      DataIsTLSData(a.replies, TLSData(a.replies).value);
    }
  }

  /** A delete that succeeds leaves nothing. */
  lemma DeleteRemoves(env: Environment, w: World, a: Attempt)
    requires a.event.Delete? && Succeeds(env, a)
    ensures
      var v, s := Step(env, w, a), a.event.service;
      && CatalogKey(ServiceTarget(env, s), env.nodeName, s.name) !in v.catalog
      && DefaultsKey(ServiceTarget(env, s), s.name) !in v.defaults
      && (env.extensionDataPrefix != "" ==> ParameterPath(env, s) !in v.params)
  {
    PathIsSlot(env, a.event);
    assert Lookup(Step(env, w, a).catalog, CatalogSlot(env, a.event)) == None;
    assert Lookup(Step(env, w, a).defaults, DefaultsSlot(env, a.event)) == None;
    assert env.extensionDataPrefix != "" ==> Lookup(Step(env, w, a).params, ParamSlot(env, a.event)) == None;
  }

  lemma PathIsSlot(env: Environment, e: Event)
    ensures ParamSlot(env, e) == ParameterPath(env, e.service)
  {
    var s := e.service;
    assert env.extensionDataPrefix + ("/" + s.PartitionOrDefault() + "/" + s.NamespaceOrDefault() + "/" + s.name)
        == env.extensionDataPrefix + "/" + s.PartitionOrDefault() + "/" + s.NamespaceOrDefault() + "/" + s.name;
  }

  /** A step that is not answered is an error, and those behind it do nothing. A refused one changes nothing itself. */
  lemma FailuresStop(env: Environment, w: World, a: Attempt)
    ensures
      var v, r := Step(env, w, a), a.replies;
      && (!r.defaults.Applied? ==> !Succeeds(env, a) && v == w.(defaults := v.defaults))
      && (r.defaults.Refused? ==> v.defaults == w.defaults)
      && (!r.catalog.Applied? ==> !Succeeds(env, a) && v.params == w.params)
      && (r.catalog.Refused? ==> v.catalog == w.catalog)
      && (env.extensionDataPrefix == "" || r.store.Refused? ==> v.params == w.params)
      && (env.extensionDataPrefix != "" && !r.store.Applied? ==> !Succeeds(env, a))
      && (env.extensionDataPrefix != "" && a.event.Upsert? && (forall data :: !DataFrom(r, data)) ==>
            !Succeeds(env, a) && v.params == w.params)
  {
    if TLSData(a.replies).Some? {
      DataIsTLSData(a.replies, TLSData(a.replies).value);
    }
  }

  /** With every step answered that has to be, the attempt succeeds. */
  lemma AnswersSuffice(env: Environment, a: Attempt, data: ExtensionData)
    requires a.replies.defaults.Applied? && a.replies.catalog.Applied?
    requires env.extensionDataPrefix != "" ==> a.replies.store.Applied? && (a.event.Upsert? ==>
          DataFrom(a.replies, data))
    ensures Succeeds(env, a)
  {
    DataIsTLSData(a.replies, data);
  }

  /******* One function *******/

  /** The stores hold what the function asks for under one of its names. */
  ghost predicate Registered(env: Environment, w: World, fn: LambdaFunction, name: string, arn: string) {
    var place := Target(env, Datacenter(fn), Place(env, fn));
    && Lookup(w.catalog, CatalogKey(place, env.nodeName, name))
       == Some(CatalogEntry(name, ["managed-by-lambda-registrator"]))
    && Lookup(w.defaults, DefaultsKey(place, name)) == Some(Arguments(fn, arn))
  }

  predicate Gone(env: Environment, w: World, fn: LambdaFunction, name: string) {
    var place := Target(env, Datacenter(fn), Place(env, fn));
    CatalogKey(place, env.nodeName, name) !in w.catalog && DefaultsKey(place, name) !in w.defaults
  }

  function FunctionPath(env: Environment, fn: LambdaFunction, name: string): string {
    env.extensionDataPrefix + "/" + NameOrDefault(fn, PARTITION_TAG) + "/" + NameOrDefault(fn,
        NAMESPACE_TAG) + "/" + name
  }

  lemma FunctionSlots(env: Environment, fn: LambdaFunction, e: Event)
    requires e in EventsOf(env, fn)
    ensures CatalogSlot(env, e) == CatalogKey(Target(env, Datacenter(fn), Place(env, fn)), env.nodeName, e.service.name)
    ensures DefaultsSlot(env, e) == DefaultsKey(Target(env, Datacenter(fn), Place(env, fn)), e.service.name)
    ensures ParamSlot(env, e) == FunctionPath(env, fn, e.service.name)
  {
    hide EventsOf;
    EventText(env, fn, e);
    PathIsSlot(env, e);
  }

  /** Attempts at the events of one function that succeed leave each of its slots as one of them alone does. */
  lemma FunctionSettled(env: Environment, w: World, fn: LambdaFunction, L: seq<Attempt>, a: Attempt)
    requires forall b :: b in L ==> b.event in EventsOf(env, fn) && Succeeds(env, b)
    requires a in L
    ensures Lookup(Run(env, w, L).catalog, CatalogSlot(env, a.event))
         == if a.event.Upsert? then Some(Registration(a.event.service.name)) else None
    ensures Lookup(Run(env, w, L).defaults, DefaultsSlot(env, a.event))
         == if a.event.Upsert? then Some(a.event.args) else None
  {
    RunCatalog(env, w, L);
    RunDefaults(env, w, L);
    hide Run, EventsOf, Mapped, UpdateAll, TLSData;
    forall b | b in L && DefaultsSlot(env, b.event) == DefaultsSlot(env, a.event) ensures b.event == a.event {
      SlotAgrees(env, fn, a.event, b.event);
    }
    MappedSettled(w.catalog, L, CatalogWrite(env), a);
    MappedSettled(w.defaults, L, DefaultsWrite(env), a);
  }

  lemma SlotAgrees(env: Environment, fn: LambdaFunction, e: Event, f: Event)
    requires e in EventsOf(env, fn) && f in EventsOf(env, fn) && DefaultsSlot(env, e) == DefaultsSlot(env, f)
    ensures e == f
  {
    hide EventsOf;
    OneFunctionAgrees(env, fn, e, f);
  }

  /** An enabled function whose events all succeed is registered under each of its names. */
  lemma FunctionRegistered(env: Environment, w: World, fn: LambdaFunction, replies: nat -> Replies, name: string,
                           arn: string)
    requires Handled(env, fn) && On(fn) && Registers(fn, name, arn)
    requires forall a :: a in Attempts(EventsOf(env, fn), replies) ==> Succeeds(env, a)
    ensures
      var L := Attempts(EventsOf(env, fn), replies);
      var v := Run(env, w, L);
      && Registered(env, v, fn, name, arn)
      && (env.extensionDataPrefix != "" ==>
            && FunctionPath(env, fn, name) in v.params
            && exists a :: a in L && DataFrom(a.replies, v.params[FunctionPath(env, fn, name)]))
  {
    hide EventsOf, Run, Handled, On, Registers, Place, Datacenter, Arguments, Succeeds, FunctionPath, DataFrom;
    var L := Attempts(EventsOf(env, fn), replies);
    var e := UpsertFound(env, fn, name, arn);
    var a := AttemptAt(EventsOf(env, fn), replies, e);
    AttemptsAreEvents(EventsOf(env, fn), replies);
    FunctionSettled(env, w, fn, L, a);
    FunctionSlots(env, fn, e);
    if env.extensionDataPrefix != "" {
      ParameterWritten(env, w, fn, L, a);
    }
  }

  lemma AttemptAt(events: seq<Event>, replies: nat -> Replies, e: Event) returns (a: Attempt)
    requires e in events
    ensures a in Attempts(events, replies) && a.event == e
  {
    var i :| 0 <= i < |events| && events[i] == e;
    a := Attempts(events, replies)[i];
  }

  lemma AttemptsAreEvents(events: seq<Event>, replies: nat -> Replies)
    ensures forall a :: a in Attempts(events, replies) ==> a.event in events
  {
  }

  lemma ParameterWritten(env: Environment, w: World, fn: LambdaFunction, L: seq<Attempt>, a: Attempt)
    requires forall b :: b in L ==> b.event in EventsOf(env, fn) && Succeeds(env, b)
    requires a in L && On(fn) && env.extensionDataPrefix != ""
    ensures
      var slot, v := ParamSlot(env, a.event), Run(env, w, L);
      slot in v.params && exists b :: b in L && DataFrom(b.replies, v.params[slot])
  {
    hide EventsOf, Run, ParamSlot, Succeeds, DataFrom;
    var slot := ParamSlot(env, a.event);
    UpsertTouches(env, fn, a);
    SomeDecides(env, L, slot);
    var i: nat :| Decides(env, L, slot, i);
    assert L[i] in L;
    UpsertTouches(env, fn, L[i]);
    ParameterAfter(env, w, L, slot, i);
    DataIsTLSData(L[i].replies, TLSData(L[i].replies).value);
  }

  lemma UpsertTouches(env: Environment, fn: LambdaFunction, a: Attempt)
    requires a.event in EventsOf(env, fn) && On(fn) && Succeeds(env, a) && env.extensionDataPrefix != ""
    ensures a.event.Upsert? && Touches(env, a, ParamSlot(env, a.event))
  {
    hide EventsOf, ParamSlot;
    EventText(env, fn, a.event);
  }

  /** A function that is not enabled, and whose events all succeed, is gone under each of its names. */
  lemma FunctionGone(env: Environment, w: World, fn: LambdaFunction, replies: nat -> Replies, name: string)
    requires Handled(env, fn) && !On(fn) && Claims(fn, name)
    requires forall a :: a in Attempts(EventsOf(env, fn), replies) ==> Succeeds(env, a)
    ensures
      var v := Run(env, w, Attempts(EventsOf(env, fn), replies));
      && Gone(env, v, fn, name)
      && (env.extensionDataPrefix != "" ==> FunctionPath(env, fn, name) !in v.params)
  {
    hide EventsOf, Run, Handled, On, Claims, Place, Datacenter, Arguments, Succeeds, FunctionPath;
    var L := Attempts(EventsOf(env, fn), replies);
    var e := EventFound(env, fn, name);
    var a := AttemptAt(EventsOf(env, fn), replies, e);
    AttemptsAreEvents(EventsOf(env, fn), replies);
    EventText(env, fn, e);
    FunctionSettled(env, w, fn, L, a);
    FunctionSlots(env, fn, e);
    if env.extensionDataPrefix != "" {
      ParameterRemoved(env, w, fn, L, a);
    }
  }

  lemma ParameterRemoved(env: Environment, w: World, fn: LambdaFunction, L: seq<Attempt>, a: Attempt)
    requires forall b :: b in L ==> b.event in EventsOf(env, fn) && Succeeds(env, b)
    requires a in L && !On(fn) && env.extensionDataPrefix != ""
    ensures ParamSlot(env, a.event) !in Run(env, w, L).params
  {
    hide EventsOf, Run, ParamSlot, Succeeds;
    var slot := ParamSlot(env, a.event);
    DeleteTouches(env, fn, a);
    SomeDecides(env, L, slot);
    var i: nat :| Decides(env, L, slot, i);
    assert L[i] in L;
    DeleteTouches(env, fn, L[i]);
    ParameterAfter(env, w, L, slot, i);
  }

  lemma DeleteTouches(env: Environment, fn: LambdaFunction, a: Attempt)
    requires a.event in EventsOf(env, fn) && !On(fn) && Succeeds(env, a) && env.extensionDataPrefix != ""
    ensures a.event.Delete? && Touches(env, a, ParamSlot(env, a.event))
  {
    hide EventsOf, ParamSlot;
    EventText(env, fn, a.event);
  }
}
