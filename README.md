# traefik-powerdns-bridge, modelled in Dafny

The bridge answers the lookups a PowerDNS authoritative server sends to its
"remote backend" over HTTP. An A or ANY lookup for a host is answered with the
Traefik proxy's own address, but only if the proxy currently has a router whose
rule names that host. SOA and NS lookups are answered only for the zones the
bridge is configured to own. Every other query type gets an empty answer.

The model has four modules:

- `Common` (`common.dfy`): the Rust integer widths used (`u16` for the port and
  HTTP status, `u32` for the TTL), `Option`, and the `anyhow::Result` shape. Its
  error type names the three ways a router-table fetch fails: transport,
  non-success status, and an undecodable body.
- `Text` (`text.dfy`): substring containment (`str::contains`) and decimal
  rendering of unsigned integers (what `format!` does with the port).
- `Traefik` (`traefik.dfy`), from `src/traefik.rs`:
  - `HostNeedle` builds the ``Host(`domain`)`` needle.
  - `HasDomain` scans the router table.
  - `FetchUrl` builds the table's URL.
  - `CheckIfDomainExists` combines these with an abstract fetch.
- `RemoteBackend` (`remote_backend.dfy`), from `src/main.rs`:
  - the record, response and environment types;
  - the A, SOA and NS handlers;
  - the query-type dispatch of the `lookup` handler and its 200/500 mapping;
  - the fixed domain-metadata body.

How the proxy is represented: the HTTP GET and the JSON decoding of its answer
are replaced by a parameter, `api: RouterApi` (`string -> Result<seq<Router>>`).
It stands for whatever the proxy serves at a URL, already decoded. Handlers ask
`api` only at `FetchUrl(ip, port)`, so the lemmas can state that nothing else
about the proxy affects an answer. A router is a `map<string, JsonValue>`; only
its `"rule"` entry is looked at.

`respond_to_a_request` builds its answer step by step: an empty response, then a
conditional push. It is therefore the method `RespondToARequest`. The `lookup`
handler calls it, so `Lookup` is a method as well. `Resolve` is the reference
function for the handler's dispatch, and the lemmas about answers are stated
about `Resolve`. The SOA and NS handlers and the router scan are pure
expressions in the source, and so they are functions here.

`Environment` is an immutable value. That no handler changes the configuration
therefore holds by construction.

## Model

| member | source | states |
|---|---|---|
| `Traefik.HostNeedle` | src/traefik.rs:4 | the needle is ``Host(` ``, then the domain verbatim, then ``` `) ```, and is eight characters longer than the domain |
| `Traefik.HostNeedleInjective` | src/traefik.rs:4 | different domains give different needles |
| `Traefik.JsonValue.AsStr` | src/traefik.rs:9 | `as_str` yields a value exactly for JSON strings, and that value is the string |
| `Traefik.RuleOf` | src/traefik.rs:7-10 | a router's rule text is its `"rule"` entry when that is a JSON string, and the empty string when the key is missing or holds any other kind of value |
| `Traefik.AnyRuleContains` | src/traefik.rs:6-12 | `iter().any`: true iff the rule text of some router in the table contains the needle |
| `Traefik.MissingRuleNeverMatches` | src/traefik.rs:8-11 | a router without a string rule never matches, since "" cannot contain the non-empty needle |
| `Traefik.HasDomain` | src/traefik.rs:3-13 | true iff some router has a `"rule"` entry that is a string containing ``Host(`domain`)`` as a substring |
| `Text.Contains` | src/traefik.rs:11 | `str::contains`: some index of the rule starts an occurrence of the needle; a needle longer than the text is never found, and the empty needle always is |
| `Traefik.HasDomainEmpty` | src/traefik.rs:6-12 | an empty router table routes no domain |
| `Traefik.HasDomainAppend` | src/traefik.rs:6-12 | for a concatenation of two tables, the answer is the disjunction of the two tables' answers |
| `Traefik.HasDomainMonotone` | src/traefik.rs:6-12 | appending routers never turns true into false |
| `Traefik.HasDomainDependsOnlyOnMembers` | src/traefik.rs:6-12 | two tables with the same routers, in any order or repetition, give the same answer |
| `Traefik.ExactRuleMatches` | src/traefik.rs:4-11 | a router whose rule is exactly ``Host(`d`)`` routes `d` |
| `Traefik.CombinedRuleMatchesBoth` | src/traefik.rs:11 | a rule ``Host(`a`) \|\| Host(`b`)`` routes both `a` and `b`, because the test is substring containment |
| `Traefik.SingleHostContainment` | src/traefik.rs:4-11 | for backtick-free `x` and `d`, ``Host(`x`)`` contains ``Host(`d`)`` iff `x == d` |
| `Traefik.SingleHostRuleIsExact` | src/traefik.rs:4-11 | for backtick-free hosts, a single-host rule for `x` routes `d` iff `x == d` |
| `Traefik.SuffixHostDoesNotMatch` | src/traefik.rs:4-11 | the rule ``Host(`notb.com`)`` does not route `b.com` |
| `Text.NatToDecimal` | src/traefik.rs:21 | the port in the URL is rendered as a non-empty string of decimal digits with no leading zero; 0 is rendered as exactly "0" |
| `Text.DecimalRoundTrip` | src/traefik.rs:21 | reading the rendered digits back gives the number |
| `Traefik.FetchUrl` | src/traefik.rs:21 | the URL starts with `http://`, then the proxy address verbatim, then `:`, and ends with `/api/http/routers`; the part in between is as long as the port's decimal rendering |
| `Traefik.FetchUrlLayout` | src/traefik.rs:21 | the URL is `http://`, the proxy address, `:`, the port's decimal digits (which read back as the port) and `/api/http/routers` |
| `Traefik.CheckIfDomainExists` | src/traefik.rs:15-31 | the table is fetched from `FetchUrl(ip, port)`; a failed fetch is returned with its error unchanged; otherwise the answer is `HasDomain` on the fetched table |
| `RemoteBackend.ParseQueryType` | src/main.rs:103-110 | only the exact strings "A", "ANY", "SOA" and "NS" name handled types; every type's name reads back as the original string |
| `RemoteBackend.QueryTypeName` | src/main.rs:103-107 | the four handled types are written "A", "ANY", "SOA" and "NS"; an unhandled type keeps the string it was read from |
| `RemoteBackend.ParseQueryTypeName` | src/main.rs:103-110 | a canonical query type survives writing its name and parsing it again |
| `RemoteBackend.QueryTypeIsCaseSensitive` | src/main.rs:103-107 | "a", "any", "soa" and "ns" are unsupported types |
| `RemoteBackend.AAnswer` | src/main.rs:33-51 | the A answer fails iff the router lookup failed, with the same error; otherwise it has one record exactly when the lookup found the domain, and that record is ("A", domain, proxy address, 60) |
| `RemoteBackend.RespondToARequest` | src/main.rs:29-52 | a failed router fetch returns its error unchanged; otherwise the answer is one A record (domain, proxy address, TTL 60) if the table routes the domain, and empty if it does not |
| `RemoteBackend.SoaContent` | src/main.rs:61 | the SOA content is `remote.local. admin.`, the domain verbatim, then `. 1000 900 900 1800 60` |
| `RemoteBackend.RespondToSoaRequest` | src/main.rs:54-71 | never an error; one SOA record with content `remote.local. admin.<domain>. 1000 900 900 1800 60` and TTL 60 iff the domain exactly equals a configured zone, else empty |
| `RemoteBackend.RespondToNsRequest` | src/main.rs:73-90 | never an error; one NS record with content `remote.local.` and TTL 60 iff the domain exactly equals a configured zone, else empty |
| `RemoteBackend.SoaContentIsRfc1035Layout` | src/main.rs:61 | the SOA content is the RDATA of section 3.3.13 of RFC 1035 written out: MNAME `remote.local.`, RNAME `admin.<domain>.`, SERIAL 1000, REFRESH 900, RETRY 900, EXPIRE 1800, MINIMUM 60 |
| `RemoteBackend.SoaContentInjective` | src/main.rs:61 | different zones get different SOA contents |
| `RemoteBackend.Resolve` | src/main.rs:103-111 | only an A or ANY lookup can fail, and only when the router fetch fails; a success has at most one record, and that record names the queried domain, has TTL 60 and has the query's type ("A" for ANY) |
| `RemoteBackend.AnyIsAnsweredAsA` | src/main.rs:104 | "ANY" and "A" get identical answers for every domain and proxy state |
| `RemoteBackend.UnsupportedTypeIsEmpty` | src/main.rs:107-110 | any other type string gets an empty success, never an error |
| `RemoteBackend.ZoneQueriesFollowZoneList` | src/main.rs:54-90 | SOA and NS never fail, and have a record iff the domain is a configured zone |
| `RemoteBackend.AddressQueriesFollowRouterTable` | src/main.rs:29-52 | A/ANY fail with the fetch's own error iff the fetch fails; otherwise they return one A record iff the table routes the domain, and an empty answer iff it does not |
| `RemoteBackend.RoutedHostGetsAddress` | src/main.rs:35-48 | a router with rule ``Host(`d`)`` in the fetched table makes an A lookup of `d` return the proxy's address |
| `RemoteBackend.SingleRouterTableAnswer` | src/main.rs:35-49 | with a table of one router ``Host(`h`)`` (h and the domain backtick-free), an A lookup returns the proxy's address exactly when the domain is `h`, and an empty answer otherwise |
| `RemoteBackend.ResolveDependsOnlyOnRouterTable` | src/main.rs:92-120 | an answer depends on the proxy only through what it serves at the API URL: a repeated query against the same table gets the same answer |
| `RemoteBackend.Lookup` | src/main.rs:92-120 | 500 with no body exactly when the dispatched result is an error; otherwise 200 with that result; 500 happens iff the type is "A" or "ANY" and the router fetch fails |
| `RemoteBackend.HttpResponse.StatusCode` | src/main.rs:113-118 | a 200 answer carries the JSON result and a 500 answer carries none: status 200 iff `Success`, 500 iff `InternalServerError` |
| `RemoteBackend.GetAllDomainMetadata` | src/main.rs:122-128 | the fixed metadata stub: a `result` object holding id 1, zone = the requested domain, kind "NATIVE", serial 11 |
| `RemoteBackend.ExampleRoutedHost` | src/main.rs:103-104 | with zones ["example.com"], proxy 10.0.0.5:8080 and one router ``Host(`svc.example.com`)``, an A lookup of `svc.example.com` returns that address |
| `RemoteBackend.ExampleUnroutedHost` | src/main.rs:103-104 | in the same setting, an A lookup of `other.com` returns an empty answer |
| `RemoteBackend.ExampleZoneSoa` | src/main.rs:103-105 | in the same setting, the SOA for `example.com` is `remote.local. admin.example.com. 1000 900 900 1800 60` |

## Left out

- The HTTP GET, `error_for_status` and JSON decoding in `check_if_domain_exists` (src/traefik.rs:20-28) are network I/O and library code. They are replaced by the `RouterApi` parameter, and their failures by the three-case `Error`.
- The actix-web server, its route macros and `main` (src/main.rs:122-165) are left out. So are the JSON serialisation of the 200 body and of the metadata stub. Answers are modelled as values, not as JSON text.
- Configuration loading from the environment is left out: the `MY_ZONES` comma split, the `TRAEFIK_API_PORT` parse with its 8080 default, `LISTEN`, and the exit on a missing variable (src/main.rs:132-154). `Environment` arrives already built.
- async/await and concurrent requests: the core holds no shared mutable state, so each request is modelled as one sequential computation.
- The `println!` logging (src/main.rs:108, src/main.rs:116, src/main.rs:144-148) has no effect on answers.
- The no-op `if` at src/main.rs:100 has no effect.
- Routing of `/dns/lookup/{domain}./{type}` is done by actix-web and is not modelled. That route only matches a path whose domain segment ends in `.`, and it captures the segment without that dot; a path without the dot never reaches the handler. actix-web also percent-decodes both segments. The model's inputs are the captured, decoded domain and type strings.
- `Traefik.JsonValue.Number` holds an unbounded integer in place of serde's number representation. Numbers are never inspected.
