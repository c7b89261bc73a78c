/**
 * The remote resolver: a `PermissionResolver` that asks the authority
 * service over HTTP. The HTTP exchange is abstracted as a network: a
 * function from the requested URL to what came back, either a transport
 * failure or a response with a status and a body text. Only the body
 * decides the verdict, and every failure collapses to a denial.
 */
module RemotePermission {
  import opened Wrappers
  import opened Permission
  import Text

  datatype HttpOutcome = TransportError | Response(status: nat, body: string)

  /** What one PUT to a URL yields. */
  type Network = string -> HttpOutcome

  datatype RemoteResolver = RemoteResolver(baseUrl: string)

  const CouldNotReach: string := "Could not reach out to remote service"
  const CouldNotParse: string := "Could not parse response"

  /** The path segment naming a dimension. */
  function Segment(dim: Dimension): string {
    match dim
    case Slot => "slot"
    case Round => "round"
    case Session => "session"
  }

  /**
   * The URL `do_resolve_*` formats: the base, `/authorize/`, the dimension,
   * `/`, the value in decimal. It lies under the base URL and names its
   * query unambiguously: reading it back gives the query.
   */
  function RequestUrl(baseUrl: string, q: Query): (url: string)
    ensures AfterPrefix(url, baseUrl + "/authorize/").Some?
    ensures ParseUrl(baseUrl, url) == Some(q)
  {
    FormattedUrlReadsBack(baseUrl, q);
    baseUrl + "/authorize/" + Segment(q.Dim()) + "/" + Text.Render(q.Value())
  }

  /** The rest of `s` after `prefix`, if `s` starts with it. */
  function AfterPrefix(s: string, prefix: string): (r: Option<string>)
    ensures r.Some? <==> |prefix| <= |s| && s[..|prefix|] == prefix
    ensures r.Some? ==> s == prefix + r.value
  {
    if |prefix| <= |s| && s[..|prefix|] == prefix then Some(s[|prefix|..]) else None
  }

  /**
   * Which query a URL under `baseUrl` asks about, read the way the serving
   * side would read it: the inverse of `RequestUrl`.
   */
  function ParseUrl(baseUrl: string, url: string): Option<Query> {
    match AfterPrefix(url, baseUrl + "/authorize/")
    case None => None
    case Some(rest) => ParseClaimPath(rest)
  }

  /** Reads `<dimension>/<decimal value>`, refusing a value too wide for the dimension's argument. */
  function ParseClaimPath(rest: string): Option<Query> {
    if AfterPrefix(rest, "slot/").Some? then
      match Text.ParseDecimal(AfterPrefix(rest, "slot/").value)
      case Some(n) => if n < 0x1_0000_0000_0000_0000 then Some(SlotQuery(n as u64)) else None
      case None => None
    else if AfterPrefix(rest, "round/").Some? then
      match Text.ParseDecimal(AfterPrefix(rest, "round/").value)
      case Some(n) => if n < 0x1_0000_0000_0000_0000 then Some(RoundQuery(n as u64)) else None
      case None => None
    else if AfterPrefix(rest, "session/").Some? then
      match Text.ParseDecimal(AfterPrefix(rest, "session/").value)
      case Some(n) => if n < 0x1_0000_0000 then Some(SessionQuery(n as u32)) else None
      case None => None
    else None
  }

  /** The dimension segment and the decimal value read back as the query they were formatted from. */
  lemma ClaimPathReadsBack(q: Query)
    ensures ParseClaimPath(Segment(q.Dim()) + "/" + Text.Render(q.Value())) == Some(q)
  {
    var digits := Text.Render(q.Value());
    var rest := Segment(q.Dim()) + "/" + digits;
    Text.ParseRender(q.Value());
    match q
    case SlotQuery(_) =>
      assert rest == "slot/" + digits;
    case RoundQuery(_) =>
      assert rest == "round/" + digits;
      assert rest[0] == 'r';
    case SessionQuery(_) =>
      assert rest == "session/" + digits;
      assert rest[0] == 's' && rest[1] == 'e';
  }

  /** The formatted URL of a query reads back as that query. */
  lemma FormattedUrlReadsBack(baseUrl: string, q: Query)
    ensures ParseUrl(baseUrl, baseUrl + "/authorize/" + Segment(q.Dim()) + "/" + Text.Render(q.Value())) == Some(q)
  {
    var rest := Segment(q.Dim()) + "/" + Text.Render(q.Value());
    assert baseUrl + "/authorize/" + Segment(q.Dim()) + "/" + Text.Render(q.Value()) == (baseUrl + "/authorize/") + rest;
    ClaimPathReadsBack(q);
  }

  /** Distinct queries are sent to distinct URLs. */
  lemma UrlInjective(baseUrl: string, q1: Query, q2: Query)
    ensures RequestUrl(baseUrl, q1) == RequestUrl(baseUrl, q2) ==> q1 == q2
  {
  }

  /**
   * `do_resolve_slot`, `do_resolve_round` and `do_resolve_session`: one PUT
   * to the query's URL; a transport failure or a body that does not parse
   * as a boolean is an error, otherwise the parsed body is the answer. The
   * status is never looked at.
   */
  function DoResolve(self: RemoteResolver, q: Query, net: Network): (r: Result<bool, string>)
    ensures net(RequestUrl(self.baseUrl, q)).TransportError? <==> r == Err(CouldNotReach)
    ensures var o := net(RequestUrl(self.baseUrl, q));
      o.Response? && Text.ParseBool(o.body).Ok? ==> r == Ok(Text.ParseBool(o.body).value)
    ensures r == Err(CouldNotParse) <==>
      net(RequestUrl(self.baseUrl, q)).Response? && Text.ParseBool(net(RequestUrl(self.baseUrl, q)).body).Err?
    ensures r.Ok? ==> net(RequestUrl(self.baseUrl, q)).body == Text.BoolText(r.value)
  {
    match net(RequestUrl(self.baseUrl, q))
    case TransportError => Err(CouldNotReach)
    case Response(_, body) =>
      match Text.ParseBool(body)
      case Ok(b) => Ok(b)
      case Err(_) => Err(CouldNotParse)
  }

  /**
   * `resolve_*`: an error becomes a denial. Fail-closed: the verdict is
   * true exactly when the transport succeeded and the body was the text
   * "true".
   */
  function Resolve(self: RemoteResolver, q: Query, net: Network): (granted: bool)
    ensures granted <==> net(RequestUrl(self.baseUrl, q)).Response? && net(RequestUrl(self.baseUrl, q)).body == "true"
  {
    match DoResolve(self, q, net)
    case Ok(b) => b
    case Err(_) => false
  }

  function ResolveSlot(self: RemoteResolver, slot: u64, net: Network): (granted: bool)
    ensures var o := net(self.baseUrl + "/authorize/slot/" + Text.Render(slot as nat));
      granted <==> o.Response? && o.body == "true"
  {
    assert "/authorize/" + "slot" + "/" == "/authorize/slot/";
    assert RequestUrl(self.baseUrl, SlotQuery(slot)) == self.baseUrl + "/authorize/slot/" + Text.Render(slot as nat);
    Resolve(self, SlotQuery(slot), net)
  }

  function ResolveRound(self: RemoteResolver, round: u64, net: Network): (granted: bool)
    ensures var o := net(self.baseUrl + "/authorize/round/" + Text.Render(round as nat));
      granted <==> o.Response? && o.body == "true"
  {
    assert "/authorize/" + "round" + "/" == "/authorize/round/";
    assert RequestUrl(self.baseUrl, RoundQuery(round)) == self.baseUrl + "/authorize/round/" + Text.Render(round as nat);
    Resolve(self, RoundQuery(round), net)
  }

  function ResolveSession(self: RemoteResolver, sessionIndex: u32, net: Network): (granted: bool)
    ensures var o := net(self.baseUrl + "/authorize/session/" + Text.Render(sessionIndex as nat));
      granted <==> o.Response? && o.body == "true"
  {
    assert "/authorize/" + "session" + "/" == "/authorize/session/";
    assert RequestUrl(self.baseUrl, SessionQuery(sessionIndex)) == self.baseUrl + "/authorize/session/" + Text.Render(sessionIndex as nat);
    Resolve(self, SessionQuery(sessionIndex), net)
  }

  /**
   * The verdict depends on nothing but the body answered at the query's own
   * URL: two networks whose responses there carry the same body, whatever
   * their statuses, give the same verdict, and so do two that both fail.
   */
  lemma OnlyBodyDecides(self: RemoteResolver, q: Query, net1: Network, net2: Network)
    requires var o1, o2 := net1(RequestUrl(self.baseUrl, q)), net2(RequestUrl(self.baseUrl, q));
      (o1.TransportError? && o2.TransportError?) || (o1.Response? && o2.Response? && o1.body == o2.body)
    ensures Resolve(self, q, net1) == Resolve(self, q, net2)
    ensures DoResolve(self, q, net1) == DoResolve(self, q, net2)
  {
  }

  /** The connection-failure test: an unreachable service yields a denial on every dimension. */
  lemma TransportFailureDenies(self: RemoteResolver, q: Query, net: Network)
    requires net(RequestUrl(self.baseUrl, q)) == TransportError
    ensures !Resolve(self, q, net)
    ensures DoResolve(self, q, net) == Err(CouldNotReach)
  {
  }

  /** The mock-server tests: a 200 response with body "true" grants slot 1, and one with body "false" denies round 1. */
  lemma MockServerScenario(self: RemoteResolver, net: Network)
    requires net(self.baseUrl + "/authorize/slot/1") == Response(200, "true")
    requires net(self.baseUrl + "/authorize/round/1") == Response(200, "false")
    ensures ResolveSlot(self, 1, net)
    ensures !ResolveRound(self, 1, net)
  {
    assert Text.Render(1) == "1";
    assert self.baseUrl + "/authorize/slot/" + Text.Render(1) == self.baseUrl + "/authorize/slot/1";
    assert self.baseUrl + "/authorize/round/" + Text.Render(1) == self.baseUrl + "/authorize/round/1";
  }
}
