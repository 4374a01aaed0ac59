/**
 Events that bring Consul in line with one Lambda function, and how they are read off the
 function's tags.
 */
module Events {
  import opened Wrappers
  import opened Text
  import opened Structs

  const PREFIX := "serverless.consul.hashicorp.com/v1alpha1/lambda"
  const ENABLED_TAG := PREFIX + "/enabled"
  const PAYLOAD_PASSTHROUGH_TAG := PREFIX + "/payload-passthrough"
  const DATACENTER_TAG := PREFIX + "/datacenter"
  const PARTITION_TAG := PREFIX + "/partition"
  const NAMESPACE_TAG := PREFIX + "/namespace"
  const ALIASES_TAG := PREFIX + "/aliases"
  const INVOCATION_MODE_TAG := PREFIX + "/invocation-mode"
  const ASYNCHRONOUS := "ASYNCHRONOUS"
  const SYNCHRONOUS := "SYNCHRONOUS"
  const LIST_SEPARATOR := '+'

  /** The configuration, and the datacenter of the Consul agent the client talks to. */
  datatype Environment = Environment(
    nodeName: string,
    datacenter: string,
    isEnterprise: bool,
    partitions: set<string>,
    extensionDataPrefix: string,
    agentDatacenter: string)
  {
    predicate IsManagingTLS() {
      |extensionDataPrefix| > 0
    }
  }

  datatype LambdaFunction = LambdaFunction(arn: string, name: string, tags: map<string, string>)

  datatype LambdaArguments = LambdaArguments(arn: string, payloadPassthrough: bool, invocationMode: string)

  datatype Event = Upsert(service: Service, args: LambdaArguments) | Delete(service: Service) {
    /** Appends an alias to the name, and for an upsert to the ARN. */
    function AddAlias(alias: string): Event {
      var named := service.(name := service.name + "-" + alias);
      match this
      case Upsert(_, args) => Upsert(named, args.(arn := args.arn + ":" + alias))
      case Delete(_) => Delete(named)
    }
  }

  datatype SyncError = InvalidInvocationMode(mode: string) | NotEnterprise | Unavailable

  /** The place of a service in the maps of a full sync; `EnterpriseMeta("", "")` stands for a nil pointer. */
  datatype Key = Key(em: EnterpriseMeta, name: string)

  const NO_META := EnterpriseMeta("", "")

  function EmKey(em: Option<EnterpriseMeta>): EnterpriseMeta {
    if em.Some? then em.value else NO_META
  }

  function KeyOf(e: Event): Key {
    Key(EmKey(e.service.em), e.service.name)
  }

  function TagOr(fn: LambdaFunction, tag: string, otherwise: string): string {
    if tag in fn.tags then fn.tags[tag] else otherwise
  }

  predicate Enabled(fn: LambdaFunction) {
    TagOr(fn, ENABLED_TAG, "") == "true"
  }

  function Aliases(fn: LambdaFunction): seq<string> {
    if ALIASES_TAG in fn.tags then Split(fn.tags[ALIASES_TAG], LIST_SEPARATOR) else []
  }

  function Mode(fn: LambdaFunction): string {
    TagOr(fn, INVOCATION_MODE_TAG, SYNCHRONOUS)
  }

  function TaggedMeta(fn: LambdaFunction): Option<EnterpriseMeta> {
    NewEnterpriseMeta(TagOr(fn, PARTITION_TAG, ""), TagOr(fn, NAMESPACE_TAG, ""))
  }

  function Meta(env: Environment, fn: LambdaFunction): Option<EnterpriseMeta> {
    if env.isEnterprise && TaggedMeta(fn).None? then NewEnterpriseMeta("default", "default")
    else TaggedMeta(fn)
  }

  predicate RemoteDatacenter(env: Environment, fn: LambdaFunction) {
    env.datacenter != "" && env.datacenter != TagOr(fn, DATACENTER_TAG, "")
  }

  predicate UnhandledPartition(env: Environment, fn: LambdaFunction) {
    env.isEnterprise && Meta(env, fn).Some? && Meta(env, fn).value.ap !in env.partitions
  }

  /** The event for the function itself, without an alias. */
  function BaseEvent(env: Environment, fn: LambdaFunction): Event {
    var service := NamedService(Meta(env, fn), fn.name, TagOr(fn, DATACENTER_TAG, ""));
    if Enabled(fn)
    then Upsert(service, LambdaArguments(fn.arn, TagOr(fn, PAYLOAD_PASSTHROUGH_TAG, "") == "true", Mode(fn)))
    else Delete(service)
  }

  function WithAliases(e: Event, aliases: seq<string>): seq<Event> {
    [e] + seq(|aliases|, i requires 0 <= i < |aliases| => e.AddAlias(aliases[i]))
  }

  /** What one function asks for. The checks apply in this order. */
  function LambdaEvents(env: Environment, fn: LambdaFunction): Result<seq<Event>, SyncError> {
    if RemoteDatacenter(env, fn) then Ok([])
    else if Mode(fn) != ASYNCHRONOUS && Mode(fn) != SYNCHRONOUS then Err(InvalidInvocationMode(Mode(fn)))
    else if !env.isEnterprise && TaggedMeta(fn).Some? then Err(NotEnterprise)
    else if UnhandledPartition(env, fn) then Ok([])
    else Ok(WithAliases(BaseEvent(env, fn), Aliases(fn)))
  }

  /** The loops over the aliases, alike for upserts and deletes. */
  method AddAliases(base: Event, aliases: seq<string>) returns (events: seq<Event>)
    ensures events == WithAliases(base, aliases)
  {
    events := [base];
    for i := 0 to |aliases|
      invariant events == WithAliases(base, aliases[..i])
    {
      events := events + [base.AddAlias(aliases[i])];
    }
    assert aliases[..|aliases|] == aliases;
  }

  method GetLambdaEvents(env: Environment, fn: LambdaFunction) returns (r: Result<seq<Event>, SyncError>)
    ensures r == LambdaEvents(env, fn)
  {
    hide Split, WithAliases, NewEnterpriseMeta;
    var datacenter := "";
    var createService := false;
    var payloadPassthrough := false;
    var invocationMode := SYNCHRONOUS;
    var aliases: seq<string> := [];
    if DATACENTER_TAG in fn.tags {
      datacenter := fn.tags[DATACENTER_TAG];
    }
    assert datacenter == TagOr(fn, DATACENTER_TAG, "");
    if env.datacenter != "" && env.datacenter != datacenter {
      return Ok([]);
    }
    if ENABLED_TAG in fn.tags {
      createService := fn.tags[ENABLED_TAG] == "true";
    }
    assert createService == Enabled(fn);
    if PAYLOAD_PASSTHROUGH_TAG in fn.tags {
      payloadPassthrough := fn.tags[PAYLOAD_PASSTHROUGH_TAG] == "true";
    }
    assert payloadPassthrough == (TagOr(fn, PAYLOAD_PASSTHROUGH_TAG, "") == "true");
    if INVOCATION_MODE_TAG in fn.tags {
      invocationMode := fn.tags[INVOCATION_MODE_TAG];
      if invocationMode != ASYNCHRONOUS && invocationMode != SYNCHRONOUS {
        return Err(InvalidInvocationMode(invocationMode));
      }
    }
    assert invocationMode == Mode(fn);
    hide TagOr, Enabled, Mode;
    var em := NewEnterpriseMeta(TagOr(fn, PARTITION_TAG, ""), TagOr(fn, NAMESPACE_TAG, ""));
    if !env.isEnterprise && em.Some? {
      return Err(NotEnterprise);
    }
    if env.isEnterprise && em.None? {
      em := NewEnterpriseMeta("default", "default");
    }
    assert em == Meta(env, fn);
    if env.isEnterprise && em.Some? {
      if em.value.ap !in env.partitions {
        return Ok([]);
      }
    }
    if ALIASES_TAG in fn.tags {
      aliases := Split(fn.tags[ALIASES_TAG], LIST_SEPARATOR);
    }
    var service := NamedService(em, fn.name, datacenter);
    var base := if createService
                then Upsert(service, LambdaArguments(fn.arn, payloadPassthrough, invocationMode))
                else Delete(service);
    var events := AddAliases(base, aliases);
    return Ok(events);
  }

  /** The events of a function; none where the function is rejected. */
  function EventsOf(env: Environment, fn: LambdaFunction): seq<Event> {
    var r := LambdaEvents(env, fn);
    if r.Ok? then r.value else []
  }

  /** One function never asks for two different things under one key, whatever its aliases. */
  lemma OneFunctionAgrees(env: Environment, fn: LambdaFunction, e: Event, f: Event)
    requires e in EventsOf(env, fn) && f in EventsOf(env, fn)
    requires KeyOf(e) == KeyOf(f)
    ensures e == f
  {
    var base, aliases := BaseEvent(env, fn), Aliases(fn);
    var i :| 0 <= i <= |aliases| && e == WithAliases(base, aliases)[i];
    var j :| 0 <= j <= |aliases| && f == WithAliases(base, aliases)[j];
    if i > 0 && j > 0 {
      var n := |fn.name| + 1;
      assert (fn.name + "-" + aliases[i - 1])[n..] == aliases[i - 1];
      assert (fn.name + "-" + aliases[j - 1])[n..] == aliases[j - 1];
    }
  }

  /** Every event of a function has its metadata, its datacenter, its enabled flag and its settings. */
  lemma EventShape(env: Environment, fn: LambdaFunction, e: Event)
    requires e in EventsOf(env, fn)
    ensures e.Upsert? <==> Enabled(fn)
    ensures e.service.em == Meta(env, fn)
    ensures e.service.datacenter == TagOr(fn, DATACENTER_TAG, "")
    ensures e.Upsert? ==>
              && e.args.payloadPassthrough == (TagOr(fn, PAYLOAD_PASSTHROUGH_TAG, "") == "true")
              && e.args.invocationMode == Mode(fn)
              && (e.args.invocationMode == ASYNCHRONOUS || e.args.invocationMode == SYNCHRONOUS)
    ensures env.isEnterprise <==> e.service.em.Some?
    ensures e.service.em.Some? ==>
              e.service.em.value.ap != "" && e.service.em.value.ns != "" && e.service.em.value.ap in env.partitions
  {
    var i :| 0 <= i <= |Aliases(fn)| && e == WithAliases(BaseEvent(env, fn), Aliases(fn))[i];
  }

  /**
   What is registered for an enabled function that is not passed over: the function under its
   own name and ARN, and each alias under a name and an ARN that end in it, and nothing else.
   */
  lemma NamesAndArns(env: Environment, fn: LambdaFunction, name: string, arn: string)
    requires Enabled(fn) && EventsOf(env, fn) != []
    ensures (exists e :: e in EventsOf(env, fn) && e.service.name == name && e.args.arn == arn) <==>
            || (name == fn.name && arn == fn.arn)
            || (exists alias :: alias in Aliases(fn) && name == fn.name + "-" + alias && arn == fn.arn + ":" + alias)
  {
    var base, aliases := BaseEvent(env, fn), Aliases(fn);
    var events := WithAliases(base, aliases);
    assert events[0] == base && base in events;
    if e :| e in EventsOf(env, fn) && e.service.name == name && e.args.arn == arn {
      var i :| 0 <= i <= |aliases| && e == events[i];
      if i > 0 {
        assert aliases[i - 1] in aliases;
      }
    }
    if alias :| alias in aliases && name == fn.name + "-" + alias && arn == fn.arn + ":" + alias {
      var i :| 0 <= i < |aliases| && aliases[i] == alias;
      assert events[i + 1] == base.AddAlias(alias);
      assert events[i + 1] in events;
    }
  }
}
