/** The remote-backend side of the bridge (src/main.rs): answering the DNS
    server's lookups for A/ANY, SOA and NS queries, and the fixed domain
    metadata answer. */
module RemoteBackend {
  import opened Common
  import opened Text
  import opened Traefik

  /** One answer record as the remote-backend protocol carries it. */
  datatype DnsRecord = DnsRecord(qtype: string, qname: string, content: string, ttl: u32)

  /** The body of a lookup answer: `{"result": [...]}`. */
  datatype DnsResponse = DnsResponse(result: seq<DnsRecord>)

  /** The configuration every request reads: the proxy's address (also the
      address handed out in A records), its API port, and the zones this
      backend is authoritative for. It is a value; no request changes it. */
  datatype Environment = Environment(traefikIp: string, traefikApiPort: u16, myZones: seq<string>)

  /** The query types the backend distinguishes, and everything else. */
  datatype QueryType = A | ANY | SOA | NS | Other(name: string)

  /** The TTL of every record handed out, in seconds. */
  const RecordTtl: u32 := 60

  /** The query type named by the request path; matching is exact and
      case-sensitive. */
  function ParseQueryType(s: string): (q: QueryType)
    ensures q.Other? <==> s !in {"A", "ANY", "SOA", "NS"}
    ensures QueryTypeName(q) == s
  {
    match s
    case "A" => A
    case "ANY" => ANY
    case "SOA" => SOA
    case "NS" => NS
    case _ => Other(s)
  }

  /** The name a query type is written with. */
  function QueryTypeName(q: QueryType): (name: string)
    ensures !q.Other? ==> name in {"A", "ANY", "SOA", "NS"}
    ensures q.Other? ==> name == q.name
  {
    match q
    case A => "A"
    case ANY => "ANY"
    case SOA => "SOA"
    case NS => "NS"
    case Other(name) => name
  }

  /** Every query type with its canonical name reads back as itself. */
  lemma ParseQueryTypeName(q: QueryType)
    requires q.Other? ==> q.name !in {"A", "ANY", "SOA", "NS"}
    ensures ParseQueryType(QueryTypeName(q)) == q
  {
  }

  /** Lower-case spellings are not the query types they resemble. */
  lemma QueryTypeIsCaseSensitive()
    ensures ParseQueryType("a") == Other("a")
    ensures ParseQueryType("any") == Other("any")
    ensures ParseQueryType("soa") == Other("soa")
    ensures ParseQueryType("ns") == Other("ns")
  {
  }

  /** The address record for a routed host. */
  function ARecord(env: Environment, domain: string): DnsRecord {
    DnsRecord("A", domain, env.traefikIp, RecordTtl)
  }

  /** `respond_to_a_request` given the outcome of the router lookup. */
  function AAnswer(env: Environment, domain: string, found: Result<bool>): (r: Result<DnsResponse>)
    ensures r.Err? <==> found.Err?
    ensures found.Err? ==> r.error == found.error
    ensures found.Ok? ==> |r.value.result| == (if found.value then 1 else 0)
    ensures found.Ok? ==> forall rec :: rec in r.value.result ==>
      rec == DnsRecord("A", domain, env.traefikIp, 60)
  {
    match found
    case Err(e) => Err(e)
    case Ok(b) => Ok(DnsResponse(if b then [ARecord(env, domain)] else []))
  }

  /** `respond_to_a_request`: start from an empty answer, ask the proxy
      whether it routes the domain (passing a failure on), and push the
      proxy's address as an A record when it does. */
  method RespondToARequest(env: Environment, domain: string, api: RouterApi)
    returns (r: Result<DnsResponse>)
    ensures r == AAnswer(env, domain, CheckIfDomainExists(env.traefikIp, env.traefikApiPort, domain, api))
    ensures var table := api(FetchUrl(env.traefikIp, env.traefikApiPort));
      && (table.Err? ==> r == Err(table.error))
      && (table.Ok? ==>
            r.Ok? && r.value.result == (if HasDomain(table.value, domain) then [DnsRecord("A", domain, env.traefikIp, 60)] else []))
  {
    var response := DnsResponse([]);
    var found := CheckIfDomainExists(env.traefikIp, env.traefikApiPort, domain, api);
    if found.Err? {
      return Err(found.error);
    }
    if found.value {
      response := response.(result := response.result + [ARecord(env, domain)]);
      assert response.result == [ARecord(env, domain)];
    }
    return Ok(response);
  }

  /** The SOA content: primary name server, responsible mailbox, serial,
      refresh, retry, expire and minimum TTL. */
  function SoaContent(domain: string): (content: string)
    ensures |content| == 20 + |domain| + 22
    ensures content[..20] == "remote.local. admin."
    ensures content[20..20 + |domain|] == domain
    ensures content[20 + |domain|..] == ". 1000 900 900 1800 60"
  {
    "remote.local. admin." + domain + ". 1000 900 900 1800 60"
  }

  /** `respond_to_soa_request`: one SOA record when the domain is one of the
      configured zones (exact string equality), an empty answer otherwise;
      never an error. */
  function RespondToSoaRequest(env: Environment, domain: string): (r: Result<DnsResponse>)
    ensures r.Ok?
    ensures domain in env.myZones ==>
      r.value.result == [DnsRecord("SOA", domain, "remote.local. admin." + domain + ". 1000 900 900 1800 60", 60)]
    ensures domain !in env.myZones ==> r.value.result == []
  {
    var found := domain in env.myZones;
    if found then Ok(DnsResponse([DnsRecord("SOA", domain, SoaContent(domain), RecordTtl)]))
    else Ok(DnsResponse([]))
  }

  /** `respond_to_ns_request`: one NS record naming `remote.local.` when the
      domain is one of the configured zones, an empty answer otherwise;
      never an error. */
  function RespondToNsRequest(env: Environment, domain: string): (r: Result<DnsResponse>)
    ensures r.Ok?
    ensures domain in env.myZones ==> r.value.result == [DnsRecord("NS", domain, "remote.local.", 60)]
    ensures domain !in env.myZones ==> r.value.result == []
  {
    var found := domain in env.myZones;
    if found then Ok(DnsResponse([DnsRecord("NS", domain, "remote.local.", RecordTtl)]))
    else Ok(DnsResponse([]))
  }

  /** The SOA RDATA fields of section 3.3.13 of RFC 1035, in order. */
  datatype SoaRdata = SoaRdata(
    mname: string, rname: string, serial: u32, refresh: u32, retry: u32, expire: u32, minimum: u32)

  /** The fields written out in presentation form, separated by spaces. */
  function RenderSoa(f: SoaRdata): string {
    f.mname + " " + f.rname + " " + NatToDecimal(f.serial as nat) + " " + NatToDecimal(f.refresh as nat)
    + " " + NatToDecimal(f.retry as nat) + " " + NatToDecimal(f.expire as nat)
    + " " + NatToDecimal(f.minimum as nat)
  }

  /** The SOA content is the RFC 1035 layout with primary name server
      `remote.local.`, mailbox `admin.<domain>.`, serial 1000, refresh 900,
      retry 900, expire 1800 and minimum 60. */
  lemma SoaContentIsRfc1035Layout(domain: string)
    ensures SoaContent(domain) == RenderSoa(SoaRdata("remote.local.", "admin." + domain + ".", 1000, 900, 900, 1800, 60))
  {
    SoaLiteralLayout(domain);
  }

  lemma SoaLiteralLayout(domain: string)
    ensures "remote.local. admin." + domain + ". 1000 900 900 1800 60"
      == RenderSoa(SoaRdata("remote.local.", "admin." + domain + ".", 1000, 900, 900, 1800, 60))
  {
    SoaDecimals();
  }

  lemma SoaDecimals()
    ensures NatToDecimal(1000) == "1000" && NatToDecimal(900) == "900"
    ensures NatToDecimal(1800) == "1800" && NatToDecimal(60) == "60"
  {
    assert NatToDecimal(1) == "1";
    assert NatToDecimal(10) == "10";
    assert NatToDecimal(100) == "100";
    assert NatToDecimal(9) == "9";
    assert NatToDecimal(90) == "90";
    assert NatToDecimal(18) == "18";
    assert NatToDecimal(180) == "180";
    assert NatToDecimal(6) == "6";
  }

  /** Different zones get different SOA contents. */
  lemma SoaContentInjective(d1: string, d2: string)
    requires SoaContent(d1) == SoaContent(d2)
    ensures d1 == d2
  {
    assert |d1| == |d2|;
    assert d1 == SoaContent(d1)[20..20 + |d1|];
  }

  /** The outcome of a lookup request before it is turned into HTTP: the
      reference definition of the `lookup` handler's dispatch. */
  function Resolve(env: Environment, q: QueryType, domain: string, api: RouterApi): (r: Result<DnsResponse>)
    ensures r.Err? ==> (q == A || q == ANY) && api(FetchUrl(env.traefikIp, env.traefikApiPort)).Err?
    ensures r.Ok? ==> |r.value.result| <= 1
    ensures r.Ok? ==> forall rec :: rec in r.value.result ==>
      rec.qname == domain && rec.ttl == 60 && rec.qtype == QueryTypeName(if q == ANY then A else q)
  {
    match q
    case A | ANY => AAnswer(env, domain, CheckIfDomainExists(env.traefikIp, env.traefikApiPort, domain, api))
    case SOA => RespondToSoaRequest(env, domain)
    case NS => RespondToNsRequest(env, domain)
    case Other(_) => Ok(DnsResponse([]))
  }

  /** ANY is answered exactly as A is. */
  lemma AnyIsAnsweredAsA(env: Environment, domain: string, api: RouterApi)
    ensures Resolve(env, ParseQueryType("ANY"), domain, api) == Resolve(env, ParseQueryType("A"), domain, api)
  {
  }

  /** Any unrecognised query type gets an empty answer, never an error. */
  lemma UnsupportedTypeIsEmpty(env: Environment, qtype: string, domain: string, api: RouterApi)
    requires qtype !in {"A", "ANY", "SOA", "NS"}
    ensures Resolve(env, ParseQueryType(qtype), domain, api) == Ok(DnsResponse([]))
  {
  }

  /** SOA and NS queries never fail, and answer with a record exactly when the
      domain is a configured zone. */
  lemma ZoneQueriesFollowZoneList(env: Environment, q: QueryType, domain: string, api: RouterApi)
    requires q == SOA || q == NS
    ensures Resolve(env, q, domain, api).Ok?
    ensures |Resolve(env, q, domain, api).value.result| == 1 <==> domain in env.myZones
  {
  }

  /** A and ANY queries fail exactly when the router-table fetch fails, with
      the same error, and otherwise answer with the proxy's address exactly
      when the table routes the domain. */
  lemma AddressQueriesFollowRouterTable(env: Environment, q: QueryType, domain: string, api: RouterApi)
    requires q == A || q == ANY
    ensures var table := api(FetchUrl(env.traefikIp, env.traefikApiPort));
      && (table.Err? ==> Resolve(env, q, domain, api) == Err(table.error))
      && (table.Ok? && HasDomain(table.value, domain) ==>
            Resolve(env, q, domain, api) == Ok(DnsResponse([DnsRecord("A", domain, env.traefikIp, 60)])))
      && (table.Ok? && !HasDomain(table.value, domain) ==> Resolve(env, q, domain, api) == Ok(DnsResponse([])))
  {
  }

  /** A router whose rule is ``Host(`domain`)`` makes an A query answer with
      the proxy's address. */
  lemma RoutedHostGetsAddress(env: Environment, domain: string, api: RouterApi, router: Router)
    requires api(FetchUrl(env.traefikIp, env.traefikApiPort)).Ok?
    requires router in api(FetchUrl(env.traefikIp, env.traefikApiPort)).value
    requires "rule" in router && router["rule"] == String(HostNeedle(domain))
    ensures Resolve(env, A, domain, api) == Ok(DnsResponse([DnsRecord("A", domain, env.traefikIp, 60)]))
  {
    var routers := api(FetchUrl(env.traefikIp, env.traefikApiPort)).value;
    ExactRuleMatches(router, domain);
    var i :| 0 <= i < |routers| && routers[i] == router;
    assert RuleMentions(routers[i], HostNeedle(domain));
  }

  /** Requests share no hidden state: the answer depends on the proxy only
      through the router table it serves at the API URL, so repeating a
      query against an unchanged table repeats the answer, and a failed
      fetch for one query does not affect another. */
  lemma ResolveDependsOnlyOnRouterTable(env: Environment, q: QueryType, domain: string, api1: RouterApi, api2: RouterApi)
    requires api1(FetchUrl(env.traefikIp, env.traefikApiPort)) == api2(FetchUrl(env.traefikIp, env.traefikApiPort))
    ensures Resolve(env, q, domain, api1) == Resolve(env, q, domain, api2)
  {
  }

  /** The HTTP answer to a lookup: 200 with the JSON answer body, or 500
      with no body. */
  datatype HttpResponse = Success(body: DnsResponse) | InternalServerError {
    function StatusCode(): (code: u16)
      ensures code == 200 <==> Success?
      ensures code == 500 <==> InternalServerError?
    {
      if Success? then 200 else 500
    }
  }

  /** The `lookup` handler for `/dns/lookup/{domain}./{type}`: dispatch on the
      query type, then answer 200 with the result or 500 on an error. */
  method Lookup(env: Environment, domain: string, qtype: string, api: RouterApi)
    returns (resp: HttpResponse)
    ensures resp.InternalServerError? <==> Resolve(env, ParseQueryType(qtype), domain, api).Err?
    ensures resp.Success? ==> resp.body == Resolve(env, ParseQueryType(qtype), domain, api).value
    ensures resp.StatusCode() == 500 <==>
      qtype in {"A", "ANY"} && api(FetchUrl(env.traefikIp, env.traefikApiPort)).Err?
  {
    var response: Result<DnsResponse>;
    match ParseQueryType(qtype) {
      case A =>
        response := RespondToARequest(env, domain, api);
      case ANY =>
        response := RespondToARequest(env, domain, api);
      case SOA =>
        response := RespondToSoaRequest(env, domain);
      case NS =>
        response := RespondToNsRequest(env, domain);
      case Other(_) =>
        response := Ok(DnsResponse([]));
    }
    match response {
      case Ok(output) =>
        resp := Success(output);
      case Err(_) =>
        resp := InternalServerError;
    }
  }

  /** The body of `/dns/getAllDomainMetadata/{domain}`: `{"result": {...}}`
      holding a fixed record that echoes the domain. */
  datatype DomainMetadata = DomainMetadata(id: int, zone: string, kind: string, serial: int)
  datatype MetadataResponse = MetadataResponse(result: DomainMetadata)

  function GetAllDomainMetadata(domain: string): (m: MetadataResponse)
    ensures m.result.id == 1 && m.result.zone == domain && m.result.kind == "NATIVE" && m.result.serial == 11
  {
    MetadataResponse(DomainMetadata(1, domain, "NATIVE", 11))
  }

  /** The worked example: zone `example.com`, proxy at `10.0.0.5` with the
      default API port, and one router, for `svc.example.com`. */
  function ExampleEnvironment(): Environment {
    Environment("10.0.0.5", 8080, ["example.com"])
  }

  predicate ServesExampleTable(api: RouterApi) {
    api("http://10.0.0.5:8080/api/http/routers") == Ok([map["rule" := String("Host(`svc.example.com`)")]])
  }

  /** With a table holding one single-host router for a backtick-free host,
      an A lookup of a backtick-free domain gets the proxy's address exactly
      when the domain is that host. */
  lemma SingleRouterTableAnswer(env: Environment, host: string, domain: string, api: RouterApi)
    requires '`' !in host && '`' !in domain
    requires api(FetchUrl(env.traefikIp, env.traefikApiPort)) == Ok([map["rule" := String(HostNeedle(host))]])
    ensures Resolve(env, A, domain, api)
      == Ok(DnsResponse(if host == domain then [DnsRecord("A", domain, env.traefikIp, 60)] else []))
  {
    SingleHostRuleIsExact(host, domain);
    AddressQueriesFollowRouterTable(env, A, domain, api);
  }

  /** The example's router table, stated through `FetchUrl` and `HostNeedle`. */
  lemma ExampleTable(api: RouterApi)
    requires ServesExampleTable(api)
    ensures api(FetchUrl(ExampleEnvironment().traefikIp, ExampleEnvironment().traefikApiPort))
      == Ok([map["rule" := String(HostNeedle("svc.example.com"))]])
  {
    ExampleUrl();
    ExampleNeedle();
  }

  lemma ExampleNeedle()
    ensures HostNeedle("svc.example.com") == "Host(`svc.example.com`)"
  {
  }

  /** In the example, `svc.example.com` gets the proxy's address. */
  lemma ExampleRoutedHost(api: RouterApi)
    requires ServesExampleTable(api)
    ensures Resolve(ExampleEnvironment(), A, "svc.example.com", api)
      == Ok(DnsResponse([DnsRecord("A", "svc.example.com", "10.0.0.5", 60)]))
  {
    ExampleTable(api);
    SingleRouterTableAnswer(ExampleEnvironment(), "svc.example.com", "svc.example.com", api);
  }

  /** In the example, `other.com` gets an empty answer. */
  lemma ExampleUnroutedHost(api: RouterApi)
    requires ServesExampleTable(api)
    ensures Resolve(ExampleEnvironment(), A, "other.com", api) == Ok(DnsResponse([]))
  {
    ExampleTable(api);
    assert "svc.example.com" != "other.com";
    SingleRouterTableAnswer(ExampleEnvironment(), "svc.example.com", "other.com", api);
  }

  /** In the example, the zone `example.com` gets its SOA record. */
  lemma ExampleZoneSoa(api: RouterApi)
    ensures Resolve(ExampleEnvironment(), SOA, "example.com", api)
      == Ok(DnsResponse([DnsRecord("SOA", "example.com", "remote.local. admin.example.com. 1000 900 900 1800 60", 60)]))
  {
    assert "remote.local. admin." + "example.com" + ". 1000 900 900 1800 60"
      == "remote.local. admin.example.com. 1000 900 900 1800 60";
  }

  lemma ExampleUrl()
    ensures FetchUrl("10.0.0.5", 8080) == "http://10.0.0.5:8080/api/http/routers"
  {
    DefaultPortDecimal();
    assert "http://" + "10.0.0.5" + ":" + "8080" + "/api/http/routers" == "http://10.0.0.5:8080/api/http/routers";
  }

  lemma DefaultPortDecimal()
    ensures NatToDecimal(8080) == "8080"
  {
    assert NatToDecimal(8) == "8";
    assert NatToDecimal(80) == "80";
    assert NatToDecimal(808) == "808";
  }
}
