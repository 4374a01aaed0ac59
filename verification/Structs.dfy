/**
 Services as the registrator, the extension and the proxy name them: the upstream
 parser, the SNI printer and the parameter-store path.
 */
module Structs {
  import opened Wrappers
  import opened Text

  const INTERNAL := "internal"
  const INTERNAL_VERSION := "internal-v1"

  datatype EnterpriseMeta = EnterpriseMeta(ns: string, ap: string)

  datatype Service = Service(
    em: Option<EnterpriseMeta>,
    name: string,
    port: int,
    datacenter: string,
    trustDomain: string,
    subset: string)
  {
    function DatacenterOrDefault(): string {
      if datacenter == "" then "dc1" else datacenter
    }

    function NamespaceOrDefault(): string {
      if em.Some? && em.value.ns != "" then em.value.ns else "default"
    }

    function PartitionOrDefault(): string {
      if em.Some? && em.value.ap != "" then em.value.ap else "default"
    }

    function SNI(): string {
      var ns, ap, dc := NamespaceOrDefault(), PartitionOrDefault(), DatacenterOrDefault();
      if ap == "default" then
        if subset == "" then DotJoin([name, ns, dc, INTERNAL, trustDomain])
        else DotJoin([subset, name, ns, dc, INTERNAL, trustDomain])
      else
        if subset == "" then DotJoin([name, ns, ap, dc, INTERNAL_VERSION, trustDomain])
        else DotJoin([subset, name, ns, ap, dc, INTERNAL_VERSION, trustDomain])
    }

    function ExtensionPath(): string {
      "/" + PartitionOrDefault() + "/" + NamespaceOrDefault() + "/" + name
    }
  }

  datatype Peer = Peer(name: string, trustDomain: string)

  /** What a Lambda function needs to call into the mesh. */
  datatype ExtensionData = ExtensionData(
    privateKeyPEM: string,
    certPEM: string,
    rootCertPEM: string,
    trustDomain: string,
    peers: seq<Peer>)

  /** A service of which only the fields the registrator fills are set. */
  function NamedService(em: Option<EnterpriseMeta>, name: string, datacenter: string): Service {
    Service(em, name, 0, datacenter, "", "")
  }

  function DotJoin(parts: seq<string>): string {
    Join(parts, ".")
  }

  function NewEnterpriseMeta(ap: string, ns: string): Option<EnterpriseMeta> {
    if ap == "" && ns == "" then None
    else Some(EnterpriseMeta(if ns == "" then "default" else ns, if ap == "" then "default" else ap))
  }

  /******* The upstream parser *******/

  datatype ParseError = InvalidFormat | InvalidPort

  /** What a string in unlabeled upstream format denotes: `name[.namespace[.partition]]:port[:datacenter]`. */
  function Parse(s: string): Result<Service, ParseError> {
    var parts := Split(s, ':');
    if |parts| < 2 then Err(InvalidFormat)
    else if Atoi(parts[1]).None? then Err(InvalidPort)
    else
      var qname := Split(parts[0], '.');
      var em := if |qname| == 1 then None
                else Some(EnterpriseMeta(qname[1], if |qname| == 2 then "default" else qname[2]));
      Ok(Service(em, qname[0], Atoi(parts[1]).value, if |parts| > 2 then parts[2] else "", "", ""))
  }

  method ParseUpstream(s: string) returns (r: Result<Service, ParseError>)
    ensures r == Parse(s)
  {
    var upstream := Service(None, "", 0, "", "", "");
    var parts := Split(s, ':');
    if |parts| < 2 {
      return Err(InvalidFormat);
    }
    var port := Atoi(parts[1]);
    if port.None? {
      return Err(InvalidPort);
    }
    upstream := upstream.(port := port.value);
    var qname := Split(parts[0], '.');
    upstream := upstream.(name := qname[0]);
    if |qname| > 1 {
      upstream := upstream.(em := Some(EnterpriseMeta(qname[1], "default")));
    }
    if |qname| > 2 {
      upstream := upstream.(em := Some(upstream.em.value.(ap := qname[2])));
    }
    if |parts| > 2 {
      upstream := upstream.(datacenter := parts[2]);
    }
    return Ok(upstream);
  }

  /** The specification printer of the unlabeled upstream format. */
  function Qualified(up: Service): string {
    if up.em.None? then up.name else DotJoin([up.name, up.em.value.ns, up.em.value.ap])
  }

  function PrintUpstream(up: Service): string {
    Join([Qualified(up), Itoa(up.port)] + (if up.datacenter == "" then [] else [up.datacenter]), ":")
  }

  predicate Plain(s: string) {
    '.' !in s && ':' !in s
  }

  /** The services the format can express. */
  predicate Expressible(up: Service) {
    && Plain(up.name)
    && (up.em.Some? ==> Plain(up.em.value.ns) && Plain(up.em.value.ap))
    && ':' !in up.datacenter
    && MIN_INT <= up.port <= MAX_INT
    && up.trustDomain == "" && up.subset == ""
  }

  lemma QualifiedSplits(up: Service)
    requires Expressible(up)
    ensures ':' !in Qualified(up)
    ensures Split(Qualified(up), '.') ==
            if up.em.None? then [up.name] else [up.name, up.em.value.ns, up.em.value.ap]
  {
    if up.em.None? {
      SplitNothing(up.name, '.');
    } else {
      var ns, ap := up.em.value.ns, up.em.value.ap;
      SplitJoin([up.name, ns, ap], '.');
      JoinCons(ns, [ap], ".");
      JoinCons(up.name, [ns] + [ap], ".");
      assert [up.name, ns, ap] == [up.name] + ([ns] + [ap]);
    }
  }

  lemma ParsePrint(up: Service)
    requires Expressible(up)
    ensures Parse(PrintUpstream(up)) == Ok(up)
  {
    QualifiedSplits(up);
    AtoiItoa(up.port);
    hide Atoi, Itoa, Qualified, Join;
    SplitJoin([Qualified(up), Itoa(up.port)] + (if up.datacenter == "" then [] else [up.datacenter]), ':');
  }

  lemma ParseExpressible(s: string)
    requires Parse(s).Ok?
    ensures Expressible(Parse(s).value)
  {
    var parts := Split(s, ':');
    forall p | p in Split(parts[0], '.') ensures Plain(p) {
      if ':' in p {
        SplitChars(parts[0], '.', p, ':');
      }
    }
  }

  /** The parser yields exactly the expressible services: no more, no fewer. */
  lemma ParserImage(up: Service)
    ensures Expressible(up) <==> exists s :: Parse(s) == Ok(up)
  {
    if Expressible(up) {
      ParsePrint(up);
    }
    if s :| Parse(s) == Ok(up) {
      ParseExpressible(s);
    }
  }

  /** Printing what was parsed and parsing it again changes nothing. */
  lemma ParserRoundTrip(s: string)
    requires Parse(s).Ok?
    ensures Parse(PrintUpstream(Parse(s).value)) == Parse(s)
  {
    ParseExpressible(s);
    ParsePrint(Parse(s).value);
  }

  /** The accepted strings, described without splitting. */
  ghost predicate WellFormed(s: string) {
    exists qname: string, port: string, tail: string {:trigger qname + ":" + port + tail} ::
      s == qname + ":" + port + tail
      && ':' !in qname && ':' !in port && (tail == "" || tail[0] == ':')
      && Atoi(port).Some?
  }

  lemma ParserAccepts(s: string)
    ensures Parse(s).Ok? <==> WellFormed(s)
  {
    if Parse(s).Ok? {
      AcceptedIsWellFormed(s);
    }
    if WellFormed(s) {
      var qname: string, port: string, tail: string :|
        s == qname + ":" + port + tail
        && ':' !in qname && ':' !in port && (tail == "" || tail[0] == ':')
        && Atoi(port).Some?;
      WellFormedIsAccepted(qname, port, tail);
    }
  }

  lemma JoinTwo(qname: string, port: string, rest: seq<string>)
    ensures Join([qname, port] + rest, ":") == qname + ":" + port + (if rest == [] then "" else ":" + Join(rest, ":"))
  {
    assert [qname, port] + rest == [qname] + ([port] + rest);
    JoinCons(qname, [port] + rest, ":");
    if rest != [] {
      JoinCons(port, rest, ":");
    }
  }

  lemma AcceptedIsWellFormed(s: string)
    requires Parse(s).Ok?
    ensures WellFormed(s)
  {
    var parts := Split(s, ':');
    var qname, port, rest := parts[0], parts[1], parts[2..];
    assert parts == [qname, port] + rest && qname in parts && port in parts;
    JoinTwo(qname, port, rest);
    hide Join, Split;
    var tail := if rest == [] then "" else ":" + Join(rest, ":");
    assert s == qname + ":" + port + tail;
  }

  lemma WellFormedIsAccepted(qname: string, port: string, tail: string)
    requires ':' !in qname && ':' !in port && (tail == "" || tail[0] == ':') && Atoi(port).Some?
    ensures Parse(qname + ":" + port + tail).Ok?
  {
    FieldsSplit(qname, port, tail);
  }

  /******* What the parser makes of a string *******/

  /** One, two or three parts of a name; the partition of two is `default`, and what follows the third is ignored. */
  predicate NameParts(qname: string, name: string, em: Option<EnterpriseMeta>) {
    match em
    case None => qname == name
    case Some(m) =>
      || (qname == name + "." + m.ns && m.ap == "default")
      || qname == name + "." + m.ns + "." + m.ap
      || name + "." + m.ns + "." + m.ap + "." <= qname
  }

  /** No third field, or one that ends at the next colon; what follows it is ignored. */
  predicate DatacenterPart(tail: string, datacenter: string) {
    || (tail == "" && datacenter == "")
    || tail == ":" + datacenter
    || ":" + datacenter + ":" <= tail
  }

  lemma NamePartsSplit(qname: string, name: string, em: Option<EnterpriseMeta>)
    requires '.' !in name && (em.Some? ==> '.' !in em.value.ns && '.' !in em.value.ap)
    requires NameParts(qname, name, em)
    ensures
      var parts := Split(qname, '.');
      && parts[0] == name
      && em == if |parts| == 1 then None
               else Some(EnterpriseMeta(parts[1], if |parts| == 2 then "default" else parts[2]))
  {
    if em.None? {
      SplitNothing(name, '.');
    } else {
      var ns, ap := em.value.ns, em.value.ap;
      if qname == name + "." + ns && ap == "default" {
        SplitPrefix(name, ns, '.');
        SplitNothing(ns, '.');
      } else if qname == name + "." + ns + "." + ap {
        assert qname == name + "." + (ns + "." + ap);
        SplitPrefix(name, ns + "." + ap, '.');
        SplitPrefix(ns, ap, '.');
        SplitNothing(ap, '.');
      } else {
        var rest := qname[|name + "." + ns + "." + ap + "."|..];
        assert qname == name + "." + (ns + "." + (ap + "." + rest));
        SplitPrefix(name, ns + "." + (ap + "." + rest), '.');
        SplitPrefix(ns, ap + "." + rest, '.');
        SplitPrefix(ap, rest, '.');
      }
    }
  }

  lemma DatacenterPartSplit(tail: string, datacenter: string)
    requires ':' !in datacenter && DatacenterPart(tail, datacenter)
    ensures tail == "" ==> datacenter == ""
    ensures tail != "" ==> tail[0] == ':' && Split(tail[1..], ':')[0] == datacenter
  {
    if tail == ":" + datacenter {
      SplitNothing(datacenter, ':');
      assert tail[1..] == datacenter;
    } else if tail != "" {
      var rest := tail[|":" + datacenter + ":"|..];
      assert tail[1..] == datacenter + ":" + rest;
      SplitPrefix(datacenter, rest, ':');
    }
  }

  /** Every accepted form of an upstream and the service it stands for. */
  lemma UpstreamForms(qname: string, port: string, tail: string, name: string, em: Option<EnterpriseMeta>,
                      datacenter: string)
    requires ':' !in qname && ':' !in port && ':' !in datacenter && Atoi(port).Some?
    requires '.' !in name && (em.Some? ==> '.' !in em.value.ns && '.' !in em.value.ap)
    requires NameParts(qname, name, em) && DatacenterPart(tail, datacenter)
    ensures Parse(qname + ":" + port + tail) == Ok(Service(em, name, Atoi(port).value, datacenter, "", ""))
  {
    NamePartsSplit(qname, name, em);
    DatacenterPartSplit(tail, datacenter);
    FieldsSplit(qname, port, tail);
    hide NameParts, DatacenterPart, Atoi, Split;
  }

  lemma FieldsSplit(qname: string, port: string, tail: string)
    requires ':' !in qname && ':' !in port && (tail == "" || tail[0] == ':')
    ensures Split(qname + ":" + port + tail, ':') == [qname, port] + if tail == "" then [] else Split(tail[1..], ':')
  {
    hide Split, Join;
    assert qname + ":" + port + tail == qname + ":" + (port + tail);
    SplitPrefix(qname, port + tail, ':');
    if tail == "" {
      assert port + tail == port;
      SplitNothing(port, ':');
    } else {
      assert port + tail == port + ":" + tail[1..];
      SplitPrefix(port, tail[1..], ':');
    }
  }

  /** In particular a name with a namespace. */
  lemma TwoPartName(name: string, ns: string, port: string)
    requires Plain(name) && Plain(ns) && ':' !in port && Atoi(port).Some?
    ensures Parse(name + "." + ns + ":" + port)
         == Ok(Service(Some(EnterpriseMeta(ns, "default")), name, Atoi(port).value, "", "", ""))
  {
    UpstreamForms(name + "." + ns, port, "", name, Some(EnterpriseMeta(ns, "default")), "");
    assert name + "." + ns + ":" + port + "" == name + "." + ns + ":" + port;
  }

  /** Which of the two errors a rejected string gets. */
  lemma ParseErrors(s: string)
    ensures Parse(s) == Err(InvalidFormat) <==> ':' !in s
    ensures Parse(s) == Err(InvalidPort) <==> ':' in s && !WellFormed(s)
  {
    ParserAccepts(s);
    hide Split, Join, Atoi, WellFormed;
    if ':' !in s {
      SplitNothing(s, ':');
    } else {
      var i :| 0 <= i < |s| && s[i] == ':';
      SplitConcat(s[..i], s[i + 1..], ':');
      assert s == s[..i] + ":" + s[i + 1..];
    }
  }

  /******* Partitions and namespaces *******/

  /** A name that is not given stands for `default`. */
  function OrDefault(name: string): string {
    if name == "" then "default" else name
  }

  /** What is made of a partition and a namespace, each of which may be missing. */
  lemma MetaNames(ap: string, ns: string, name: string, datacenter: string)
    ensures
      var s := NamedService(NewEnterpriseMeta(ap, ns), name, datacenter);
      && s.PartitionOrDefault() == OrDefault(ap) && s.NamespaceOrDefault() == OrDefault(ns)
      && s.ExtensionPath() == "/" + OrDefault(ap) + "/" + OrDefault(ns) + "/" + name
      && (s.em.Some? <==> ap != "" || ns != "")
      && (s.em.Some? ==> s.em.value == EnterpriseMeta(OrDefault(ns), OrDefault(ap)))
  {
  }

  /******* SNI *******/

  /** What an SNI is meant to identify within one trust domain. */
  function Identity(s: Service): (string, string, string, string) {
    (s.name, s.NamespaceOrDefault(), s.PartitionOrDefault(), s.DatacenterOrDefault())
  }

  /** The part of an SNI after the namespace. */
  function SniTail(ap: string, dc: string, trustDomain: string): string {
    if ap == "default" then dc + "." + INTERNAL + "." + trustDomain
    else ap + "." + (dc + "." + INTERNAL_VERSION + "." + trustDomain)
  }

  lemma SniParts(s: Service)
    requires s.subset == ""
    ensures s.SNI() == s.name + "." + (s.NamespaceOrDefault() + "."
                       + SniTail(s.PartitionOrDefault(), s.DatacenterOrDefault(), s.trustDomain))
  {
    if s.PartitionOrDefault() == "default" {
      Join5(s.name, s.NamespaceOrDefault(), s.DatacenterOrDefault(), INTERNAL, s.trustDomain);
    } else {
      Join6(s.name, s.NamespaceOrDefault(), s.PartitionOrDefault(), s.DatacenterOrDefault(), INTERNAL_VERSION,
          s.trustDomain);
    }
  }

  /** A subset goes in front. */
  lemma SubsetFirst(s: Service)
    requires s.subset != ""
    ensures s.SNI() == s.subset + "." + s.(subset := "").SNI()
  {
    var ns, ap, dc := s.NamespaceOrDefault(), s.PartitionOrDefault(), s.DatacenterOrDefault();
    if ap == "default" {
      JoinCons(s.subset, [s.name, ns, dc, INTERNAL, s.trustDomain], ".");
      assert [s.subset, s.name, ns, dc, INTERNAL, s.trustDomain]
          == [s.subset] + [s.name, ns, dc, INTERNAL, s.trustDomain];
    } else {
      JoinCons(s.subset, [s.name, ns, ap, dc, INTERNAL_VERSION, s.trustDomain], ".");
      assert [s.subset, s.name, ns, ap, dc, INTERNAL_VERSION, s.trustDomain]
          == [s.subset] + [s.name, ns, ap, dc, INTERNAL_VERSION, s.trustDomain];
    }
  }

  /** The SNI of an upstream, spelled out: the partition and the version appear unless it is the default partition. */
  lemma SniText(s: Service)
    requires s.subset == "" && s.em.Some? && s.em.value.ns != "" && s.em.value.ap != "" && s.datacenter != ""
    ensures s.em.value.ap == "default" ==>
              s.SNI() == s.name + "." + s.em.value.ns + "." + s.datacenter + ".internal." + s.trustDomain
    ensures s.em.value.ap != "default" ==>
              s.SNI() == s.name + "." + s.em.value.ns + "." + s.em.value.ap + "." + s.datacenter + ".internal-v1."
                         + s.trustDomain
  {
    SniParts(s);
    assert "." + INTERNAL + "." == ".internal." && "." + INTERNAL_VERSION + "." == ".internal-v1.";
    var a, b, c, d, t := s.name, s.em.value.ns, s.em.value.ap, s.datacenter, s.trustDomain;
    hide Service.SNI, Join;
    if c == "default" {
      Regroup(a + "." + b, d, INTERNAL, t);
      Ungroup(a, b, d + "." + INTERNAL + "." + t);
    } else {
      var rest := d + "." + INTERNAL_VERSION + "." + t;
      Regroup(a + "." + b + "." + c, d, INTERNAL_VERSION, t);
      Ungroup(b, c, rest);
      Ungroup(a, b + "." + c, rest);
      assert a + "." + (b + "." + c) == a + "." + b + "." + c;
    }
  }

  lemma Ungroup(a: string, b: string, rest: string)
    ensures a + "." + (b + "." + rest) == a + "." + b + "." + rest
  {
  }

  lemma Regroup(x: string, d: string, m: string, t: string)
    ensures x + "." + (d + "." + m + "." + t) == x + "." + d + ("." + m + ".") + t
  {
  }

  /** What is missing is `default`, and `dc1` for a datacenter. */
  lemma SniDefaults(s: Service)
    ensures s.SNI() == s.(em := Some(EnterpriseMeta(if s.em.Some? then OrDefault(s.em.value.ns) else "default",
                                                    if s.em.Some? then OrDefault(s.em.value.ap) else "default")),
                          datacenter := if s.datacenter == "" then "dc1" else s.datacenter).SNI()
  {
  }

  lemma Join5(a: string, b: string, c: string, d: string, e: string)
    ensures Join([a, b, c, d, e], ".") == a + "." + (b + "." + (c + "." + d + "." + e))
  {
    JoinCons(d, [e], ".");
    JoinCons(c, [d] + [e], ".");
    JoinCons(b, [c] + ([d] + [e]), ".");
    JoinCons(a, [b] + ([c] + ([d] + [e])), ".");
    assert [a, b, c, d, e] == [a] + ([b] + ([c] + ([d] + [e])));
    assert c + "." + (d + "." + e) == c + "." + d + "." + e;
  }

  lemma Join6(a: string, b: string, c: string, d: string, e: string, f: string)
    ensures Join([a, b, c, d, e, f], ".") == a + "." + (b + "." + (c + "." + (d + "." + e + "." + f)))
  {
    Join5(b, c, d, e, f);
    JoinCons(a, [b, c, d, e, f], ".");
    assert [a, b, c, d, e, f] == [a] + [b, c, d, e, f];
  }

  lemma SuffixCancels(a: string, b: string, u: string, v: string)
    requires a + "." + u + "." + v == b + "." + u + "." + v
    ensures a == b
  {
    assert a == (a + "." + u + "." + v)[..|a|] && b == (b + "." + u + "." + v)[..|b|];
  }

  /** The default-partition form and the partitioned form never meet: the character before the last dot differs. */
  lemma FormsDiffer(x: string, y: string, t: string)
    ensures x + "." + INTERNAL + "." + t != y + "." + INTERNAL_VERSION + "." + t
  {
    var l, r := x + "." + INTERNAL + "." + t, y + "." + INTERNAL_VERSION + "." + t;
    assert l[|l| - |t| - 2] == 'l';
    assert r[|r| - |t| - 2] == '1';
  }

  lemma SniTailInjective(p: string, d: string, q: string, e: string, t: string)
    requires '.' !in p && '.' !in q
    requires SniTail(p, d, t) == SniTail(q, e, t)
    ensures p == q && d == e
  {
    var x, y := d + "." + INTERNAL_VERSION + "." + t, e + "." + INTERNAL_VERSION + "." + t;
    if p == "default" && q == "default" {
      SuffixCancels(d, e, INTERNAL, t);
    } else if p != "default" && q != "default" {
      PrefixCancels(p, x, q, y, '.');
      SuffixCancels(d, e, INTERNAL_VERSION, t);
    } else if p == "default" {
      assert q + "." + y == q + "." + e + "." + INTERNAL_VERSION + "." + t;
      FormsDiffer(d, q + "." + e, t);
    } else {
      assert p + "." + x == p + "." + d + "." + INTERNAL_VERSION + "." + t;
      FormsDiffer(e, p + "." + d, t);
    }
  }

  /**
   Two accepted upstreams under one trust domain have the same SNI exactly when they
   agree on name, namespace, partition and datacenter, although a datacenter may hold dots.
   */
  lemma SniInjective(s: string, t: string, trustDomain: string)
    requires Parse(s).Ok? && Parse(t).Ok?
    ensures
      var a := Parse(s).value.(trustDomain := trustDomain);
      var b := Parse(t).value.(trustDomain := trustDomain);
      a.SNI() == b.SNI() <==> Identity(a) == Identity(b)
  {
    var a := Parse(s).value.(trustDomain := trustDomain);
    var b := Parse(t).value.(trustDomain := trustDomain);
    ParseExpressible(s);
    ParseExpressible(t);
    SniParts(a);
    SniParts(b);
    if a.SNI() == b.SNI() {
      var x := SniTail(a.PartitionOrDefault(), a.DatacenterOrDefault(), trustDomain);
      var y := SniTail(b.PartitionOrDefault(), b.DatacenterOrDefault(), trustDomain);
      PrefixCancels(a.name, a.NamespaceOrDefault() + "." + x, b.name, b.NamespaceOrDefault() + "." + y, '.');
      PrefixCancels(a.NamespaceOrDefault(), x, b.NamespaceOrDefault(), y, '.');
      SniTailInjective(a.PartitionOrDefault(), a.DatacenterOrDefault(),
                       b.PartitionOrDefault(), b.DatacenterOrDefault(), trustDomain);
    }
  }

  /**
   Outside the parser's image the claim fails: a subset and a name can pass for a name and a
   namespace. The parser sets no subset, so this input is hypothetical.
   */
  lemma SubsetsCollide(subset: string, name: string, trustDomain: string)
    requires subset != "" && name != ""
    ensures
      var a := Service(None, name, 0, "", trustDomain, subset);
      var b := Service(Some(EnterpriseMeta(name, "default")), subset, 0, "default.dc1", trustDomain, "");
      a.SNI() == b.SNI() && Identity(a) != Identity(b)
  {
    JoinCons(subset, [name, "default", "dc1", INTERNAL, trustDomain], ".");
    Join5(name, "default", "dc1", INTERNAL, trustDomain);
    Join5(subset, name, "default.dc1", INTERNAL, trustDomain);
    assert [subset, name, "default", "dc1", INTERNAL, trustDomain]
        == [subset] + [name, "default", "dc1", INTERNAL, trustDomain];
    assert "default.dc1" == "default" + "." + "dc1";
    assert "default" + "." + ("dc1" + "." + INTERNAL + "." + trustDomain)
        == "default" + "." + "dc1" + "." + INTERNAL + "." + trustDomain;
  }

  /******* The parameter-store path *******/

  /** The directory of a service's parameter. */
  function Directory(ap: string, ns: string): string {
    "/" + ap + "/" + ns + "/"
  }

  /** The directories on the way to a service's parameter. */
  function Components(s: Service): seq<string> {
    Split(s.PartitionOrDefault() + "/" + s.NamespaceOrDefault(), '/')
  }

  /** A string that ends in a slash starts another exactly if its components do. */
  lemma ComponentsArePrefix(x: string, y: string)
    ensures x + "/" <= y + "/" <==> Split(x, '/') <= Split(y, '/')
  {
    hide Split, Join;
    if x + "/" <= y + "/" {
      var z := (y + "/")[|x| + 1..];
      assert y + "/" + "" == x + "/" + z;
      SplitConcat(y, "", '/');
      SplitConcat(x, z, '/');
      SplitNothing("", '/');
      LongerPrefix(Split(x, '/'), Split(z, '/'), Split(y, '/'));
    }
    if Split(x, '/') <= Split(y, '/') {
      var rest := Split(y, '/')[|Split(x, '/')|..];
      assert Split(y, '/') == Split(x, '/') + rest;
      if rest == [] {
        assert Split(x, '/') + rest == Split(x, '/');
        assert x == Join(Split(x, '/'), "/") == y;
      } else {
        JoinConcat(Split(x, '/'), rest, "/");
        assert y + "/" == x + "/" + (Join(rest, "/") + "/");
      }
    }
  }

  lemma LongerPrefix(a: seq<string>, b: seq<string>, c: seq<string>)
    requires b != [] && a + b == c + [""]
    ensures a <= c
  {
    assert c == (c + [""])[..|c|] == (a + b)[..|c|];
    assert |a| <= |c|;
    assert (a + b)[..|c|][..|a|] == a;
  }

  /**
   Services in the partitions and namespaces of two given ones can share a path exactly when the
   directories of one are the first directories of the other.
   */
  lemma PathsMeet(a: Service, b: Service)
    ensures (exists n1: string, n2: string :: a.(name := n1).ExtensionPath() == b.(name := n2).ExtensionPath())
            <==> Components(a) <= Components(b) || Components(b) <= Components(a)
  {
    var d1 := Directory(a.PartitionOrDefault(), a.NamespaceOrDefault());
    var d2 := Directory(b.PartitionOrDefault(), b.NamespaceOrDefault());
    DirectoriesMeet(d1, d2);
    ComponentsArePrefix(a.PartitionOrDefault() + "/" + a.NamespaceOrDefault(),
                        b.PartitionOrDefault() + "/" + b.NamespaceOrDefault());
    ComponentsArePrefix(b.PartitionOrDefault() + "/" + b.NamespaceOrDefault(),
                        a.PartitionOrDefault() + "/" + a.NamespaceOrDefault());
    InDirectory(a);
    InDirectory(b);
    SlashFirst(a.PartitionOrDefault() + "/" + a.NamespaceOrDefault(),
        b.PartitionOrDefault() + "/" + b.NamespaceOrDefault());
    hide Split, Directory;
    if n1: string, n2: string :| a.(name := n1).ExtensionPath() == b.(name := n2).ExtensionPath() {
      assert d1 + n1 == d2 + n2;
    }
    if n1: string, n2: string :| d1 + n1 == d2 + n2 {
      assert a.(name := n1).ExtensionPath() == b.(name := n2).ExtensionPath();
    }
  }

  lemma InDirectory(s: Service)
    ensures forall n: string ::
              s.(name := n).ExtensionPath() == Directory(s.PartitionOrDefault(), s.NamespaceOrDefault()) + n
    ensures Directory(s.PartitionOrDefault(), s.NamespaceOrDefault())
         == "/" + (s.PartitionOrDefault() + "/" + s.NamespaceOrDefault() + "/")
  {
  }

  lemma SlashFirst(x: string, y: string)
    ensures "/" + (x + "/") <= "/" + (y + "/") <==> x + "/" <= y + "/"
    ensures "/" + (y + "/") <= "/" + (x + "/") <==> y + "/" <= x + "/"
  {
    var p, q := "/" + (x + "/"), "/" + (y + "/");
    assert p[1..] == x + "/" && q[1..] == y + "/";
    PrefixTail(p, q);
    PrefixTail(q, p);
  }

  lemma PrefixTail(p: string, q: string)
    requires p != "" && q != "" && p[0] == q[0]
    ensures p <= q <==> p[1..] <= q[1..]
  {
    if p <= q {
      assert q[1..][..|p| - 1] == q[..|p|][1..];
    }
    if p[1..] <= q[1..] {
      assert p == [p[0]] + p[1..];
      assert q[..|p|] == [q[0]] + q[1..][..|p| - 1];
    }
  }

  /** Some string starts with both exactly if one starts with the other. */
  lemma DirectoriesMeet(d1: string, d2: string)
    ensures (exists n1: string, n2: string :: d1 + n1 == d2 + n2) <==> d1 <= d2 || d2 <= d1
  {
    if d1 <= d2 {
      assert d1 + d2[|d1|..] == d2 + "";
    }
    if d2 <= d1 {
      assert d1 + "" == d2 + d1[|d2|..];
    }
    if n1: string, n2: string :| d1 + n1 == d2 + n2 {
      assert forall i :: 0 <= i < |d1| && i < |d2| ==> (d1 + n1)[i] == d1[i] && (d2 + n2)[i] == d2[i];
    }
  }

  predicate SlashFree(s: Service) {
    '/' !in s.PartitionOrDefault() && '/' !in s.NamespaceOrDefault()
  }

  /** With slash-free partitions and namespaces a path names one service only. */
  lemma PathInjective(a: Service, b: Service)
    requires SlashFree(a) && SlashFree(b)
    ensures a.ExtensionPath() == b.ExtensionPath() <==>
            (a.PartitionOrDefault(), a.NamespaceOrDefault(), a.name)
            == (b.PartitionOrDefault(), b.NamespaceOrDefault(), b.name)
  {
    if a.ExtensionPath() == b.ExtensionPath() {
      var x, y := a.NamespaceOrDefault() + "/" + a.name, b.NamespaceOrDefault() + "/" + b.name;
      assert a.ExtensionPath()[1..] == a.PartitionOrDefault() + "/" + x;
      assert b.ExtensionPath()[1..] == b.PartitionOrDefault() + "/" + y;
      PrefixCancels(a.PartitionOrDefault(), x, b.PartitionOrDefault(), y, '/');
      PrefixCancels(a.NamespaceOrDefault(), a.name, b.NamespaceOrDefault(), b.name, '/');
    }
  }

  /** Without that premise two services can share a path. */
  lemma SlashedPathsCollide()
    ensures
      var a := NamedService(Some(EnterpriseMeta("b", "a")), "c/d", "");
      var b := NamedService(Some(EnterpriseMeta("c", "a/b")), "d", "");
      a.ExtensionPath() == b.ExtensionPath() && SlashFree(a) && !SlashFree(b)
  {
    var b := NamedService(Some(EnterpriseMeta("c", "a/b")), "d", "");
    assert b.PartitionOrDefault()[1] == '/';
  }
}
