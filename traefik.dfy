/** The proxy side of the bridge (src/traefik.rs): deciding from the proxy's
    router table whether a host name is currently routed, and the URL the
    router table is fetched from. */
module Traefik {
  import opened Common
  import opened Text

  /** A decoded JSON value. Only strings are inspected; the other kinds are
      carried so that a router's fields may hold anything. */
  datatype JsonValue =
    | Null
    | Bool(b: bool)
    | Number(n: int)
    | String(s: string)
    | Array(items: seq<JsonValue>)
    | Object(fields: map<string, JsonValue>)
  {
    /** `serde_json::Value::as_str` */
    function AsStr(): (r: Option<string>)
      ensures r.Some? <==> String?
      ensures r.Some? ==> r.value == s
    {
      if String? then Some(s) else None
    }
  }

  /** One entry of the router table: a JSON object, not validated beyond
      its `"rule"` field. */
  type Router = map<string, JsonValue>

  /** What the proxy answers to a GET of the given URL, already decoded:
      the router table, or why the fetch failed. */
  type RouterApi = string -> Result<seq<Router>>

  /** The substring a rule must contain to route `domain`. */
  function HostNeedle(domain: string): (needle: string)
    ensures |needle| == |domain| + 8
    ensures needle[..6] == "Host(`"
    ensures needle[6..6 + |domain|] == domain
    ensures needle[6 + |domain|..] == "`)"
  {
    "Host(`" + domain + "`)"
  }

  /** Different domains give different needles. */
  lemma HostNeedleInjective(d1: string, d2: string)
    requires HostNeedle(d1) == HostNeedle(d2)
    ensures d1 == d2
  {
    assert d1 == HostNeedle(d1)[6..6 + |d1|];
  }

  /** The rule text of a router: its `"rule"` entry when that is a string,
      the empty string otherwise (`get`, `and_then(as_str)`, `unwrap_or("")`). */
  function RuleOf(router: Router): (rule: string)
    ensures "rule" in router && router["rule"].String? ==> rule == router["rule"].s
    ensures !("rule" in router && router["rule"].String?) ==> rule == ""
  {
    var field := if "rule" in router then Some(router["rule"]) else None;
    var text := if field.Some? then field.value.AsStr() else None;
    text.UnwrapOr("")
  }

  /** `routers.iter().any(|route| RuleOf(route).contains(needle))` */
  function AnyRuleContains(routers: seq<Router>, needle: string): (r: bool)
    ensures r <==> exists i :: 0 <= i < |routers| && Contains(RuleOf(routers[i]), needle)
  {
    if routers == [] then false
    else
      var rest := AnyRuleContains(routers[1..], needle);
      assert forall i :: 1 <= i < |routers| ==> routers[i] == routers[1..][i - 1];
      Contains(RuleOf(routers[0]), needle) || rest
  }

  /** The router's `"rule"` entry is a string that contains `needle`. */
  predicate RuleMentions(router: Router, needle: string) {
    "rule" in router && router["rule"].String? && Contains(router["rule"].s, needle)
  }

  /** A router without a string `"rule"` never matches, since its rule reads
      as the empty string and the needle is never empty. */
  lemma MissingRuleNeverMatches(router: Router, domain: string)
    requires !("rule" in router && router["rule"].String?)
    ensures !Contains(RuleOf(router), HostNeedle(domain))
  {
    EmptyContainsOnlyEmpty(HostNeedle(domain));
  }

  /** `has_domain`: some router's rule is a string containing
      ``Host(`domain`)``. */
  function HasDomain(routers: seq<Router>, domain: string): (r: bool)
    ensures r <==> exists i :: 0 <= i < |routers| && RuleMentions(routers[i], HostNeedle(domain))
  {
    var needle := HostNeedle(domain);
    assert forall i :: 0 <= i < |routers| ==>
        (Contains(RuleOf(routers[i]), needle) <==> RuleMentions(routers[i], needle)) by {
      forall i | 0 <= i < |routers|
        ensures Contains(RuleOf(routers[i]), needle) <==> RuleMentions(routers[i], needle)
      {
        if !("rule" in routers[i] && routers[i]["rule"].String?) {
          MissingRuleNeverMatches(routers[i], domain);
        }
      }
    }
    AnyRuleContains(routers, needle)
  }

  /** An empty router table routes nothing. */
  lemma HasDomainEmpty(domain: string)
    ensures !HasDomain([], domain)
  {
  }

  /** The answer for a concatenated table is the disjunction of the answers
      for its parts. */
  lemma {:induction false} HasDomainAppend(rs1: seq<Router>, rs2: seq<Router>, domain: string)
    ensures HasDomain(rs1 + rs2, domain) <==> HasDomain(rs1, domain) || HasDomain(rs2, domain)
  {
    var needle := HostNeedle(domain);
    var rs := rs1 + rs2;
    if HasDomain(rs, domain) {
      var i :| 0 <= i < |rs| && RuleMentions(rs[i], needle);
      if i < |rs1| {
        assert rs1[i] == rs[i];
      } else {
        assert rs2[i - |rs1|] == rs[i];
      }
    }
    if HasDomain(rs1, domain) {
      var i :| 0 <= i < |rs1| && RuleMentions(rs1[i], needle);
      assert rs[i] == rs1[i];
    }
    if HasDomain(rs2, domain) {
      var i :| 0 <= i < |rs2| && RuleMentions(rs2[i], needle);
      assert rs[|rs1| + i] == rs2[i];
    }
  }

  /** Adding routers to the table never turns a routed host into an unrouted one. */
  lemma HasDomainMonotone(routers: seq<Router>, more: seq<Router>, domain: string)
    requires HasDomain(routers, domain)
    ensures HasDomain(routers + more, domain)
  {
    HasDomainAppend(routers, more, domain);
  }

  /** Only which routers are present matters, not their order or repetition. */
  lemma HasDomainDependsOnlyOnMembers(rs1: seq<Router>, rs2: seq<Router>, domain: string)
    requires forall r :: r in rs1 <==> r in rs2
    ensures HasDomain(rs1, domain) == HasDomain(rs2, domain)
  {
    var needle := HostNeedle(domain);
    if HasDomain(rs1, domain) {
      var i :| 0 <= i < |rs1| && RuleMentions(rs1[i], needle);
      assert rs1[i] in rs2;
      var j :| 0 <= j < |rs2| && rs2[j] == rs1[i];
    }
    if HasDomain(rs2, domain) {
      var i :| 0 <= i < |rs2| && RuleMentions(rs2[i], needle);
      assert rs2[i] in rs1;
      var j :| 0 <= j < |rs1| && rs1[j] == rs2[i];
    }
  }

  /** A router whose rule is exactly ``Host(`domain`)`` routes `domain`. */
  lemma ExactRuleMatches(router: Router, domain: string)
    requires "rule" in router && router["rule"] == String(HostNeedle(domain))
    ensures HasDomain([router], domain)
  {
    ContainsSelf(HostNeedle(domain));
    assert RuleMentions([router][0], HostNeedle(domain));
  }

  /** Matching is by substring: one rule naming two hosts with `||` routes
      both of them. */
  lemma CombinedRuleMatchesBoth(a: string, b: string)
    ensures var router := map["rule" := String(HostNeedle(a) + " || " + HostNeedle(b))];
      HasDomain([router], a) && HasDomain([router], b)
  {
    var router := map["rule" := String(HostNeedle(a) + " || " + HostNeedle(b))];
    ContainsInfix("", HostNeedle(a), " || " + HostNeedle(b));
    assert "" + HostNeedle(a) + (" || " + HostNeedle(b)) == router["rule"].s;
    assert RuleMentions([router][0], HostNeedle(a));
    ContainsInfix(HostNeedle(a) + " || ", HostNeedle(b), "");
    assert HostNeedle(a) + " || " + HostNeedle(b) + "" == router["rule"].s;
    assert RuleMentions([router][0], HostNeedle(b));
  }

  /** Within a single-host rule the needle can only sit at the front, since
      a backtick-free domain leaves exactly two backticks in the rule. */
  lemma SingleHostContainment(x: string, d: string)
    requires '`' !in x && '`' !in d
    ensures Contains(HostNeedle(x), HostNeedle(d)) <==> x == d
  {
    var s, n := HostNeedle(x), HostNeedle(d);
    if x == d {
      ContainsSelf(s);
    }
    if Contains(s, n) {
      var i :| 0 <= i <= |s| && OccursAt(s, n, i);
      assert n[5] == '`' && s[i + 5] == n[5];
      assert forall k :: 6 <= k < 6 + |x| ==> s[k] == x[k - 6];
      assert i + 5 == 5;
      assert n[6 + |d|] == '`' && s[6 + |d|] == n[6 + |d|];
      assert forall k :: 6 <= k < 6 + |d| ==> s[k] == n[k] && n[k] == d[k - 6];
      assert |d| == |x|;
      assert x == s[6..6 + |x|] == n[6..6 + |d|] == d;
    }
  }

  /** The needle carries the ``Host(` `` prefix and the closing ``` `) ```, so
      a rule for one backtick-free host routes no other host, not even one
      that is a suffix of it. */
  lemma SingleHostRuleIsExact(x: string, d: string)
    requires '`' !in x && '`' !in d
    ensures HasDomain([map["rule" := String(HostNeedle(x))]], d) <==> x == d
  {
    SingleHostContainment(x, d);
    var router := map["rule" := String(HostNeedle(x))];
    assert RuleMentions([router][0], HostNeedle(d)) <==> Contains(HostNeedle(x), HostNeedle(d));
  }

  /** ``Host(`notb.com`)`` does not route `b.com`. */
  lemma SuffixHostDoesNotMatch()
    ensures !HasDomain([map["rule" := String("Host(`notb.com`)")]], "b.com")
  {
    assert HostNeedle("notb.com") == "Host(`notb.com`)";
    SingleHostRuleIsExact("notb.com", "b.com");
  }

  /** The URL of the router table: ``http://<ip>:<port>/api/http/routers``. */
  function FetchUrl(ip: string, port: u16): (url: string)
    ensures |url| == 7 + |ip| + 1 + |NatToDecimal(port as nat)| + 17
    ensures url[..7] == "http://" && url[7..7 + |ip|] == ip && url[7 + |ip|] == ':'
    ensures url[|url| - 17..] == "/api/http/routers"
  {
    "http://" + ip + ":" + NatToDecimal(port as nat) + "/api/http/routers"
  }

  /** The URL is the scheme, then the proxy address, a colon, the port in
      decimal (which reads back as the port), and the API path. */
  lemma FetchUrlLayout(ip: string, port: u16)
    ensures var url := FetchUrl(ip, port);
      && |url| == 7 + |ip| + 1 + |NatToDecimal(port as nat)| + 17
      && url[..7] == "http://"
      && url[7..7 + |ip|] == ip
      && url[7 + |ip|] == ':'
      && (forall i :: 8 + |ip| <= i < |url| - 17 ==> IsDigit(url[i]))
      && DecimalValue(url[8 + |ip|..|url| - 17]) == port as nat
      && url[|url| - 17..] == "/api/http/routers"
  {
    var url := FetchUrl(ip, port);
    var digits := NatToDecimal(port as nat);
    assert url[8 + |ip|..|url| - 17] == digits;
    DecimalRoundTrip(port as nat);
  }

  /** `check_if_domain_exists`: fetch the router table from the proxy's API
      URL and look for the domain in it; a failed fetch is passed on. */
  function CheckIfDomainExists(ip: string, port: u16, domain: string, api: RouterApi): (r: Result<bool>)
    ensures api(FetchUrl(ip, port)).Err? ==> r == Err(api(FetchUrl(ip, port)).error)
    ensures api(FetchUrl(ip, port)).Ok? ==> r == Ok(HasDomain(api(FetchUrl(ip, port)).value, domain))
  {
    match api(FetchUrl(ip, port))
    case Err(e) => Err(e)
    case Ok(routers) => Ok(HasDomain(routers, domain))
  }
}
