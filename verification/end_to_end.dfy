/**
 * The remote resolver talking to the central arbiter. The service answers
 * each request with the handler's verdict as text, or the exchange fails in
 * transport; either way a client believes it was granted only when the
 * arbiter granted it, so two clients never both win the same claim.
 */
module EndToEnd {
  import Permission
  import opened RemotePermission
  import Handler
  import Authority
  import Text

  /** The service request a client query becomes. */
  function ToRequest(q: Permission.Query): (req: Handler.Request)
    ensures req.Claim? && req.dim == q.Dim() && req.value == q.Value()
  {
    Handler.Claim(q.Dim(), q.Value())
  }

  /** Distinct client queries become distinct arbiter claims, so a per-claim guarantee is a per-query one. */
  lemma ToRequestInjective(q1: Permission.Query, q2: Permission.Query)
    ensures ToRequest(q1) == ToRequest(q2) ==> q1 == q2
  {
  }

  function ToRequests(qs: seq<Permission.Query>): (reqs: seq<Handler.Request>)
    ensures |reqs| == |qs|
    ensures forall k :: 0 <= k < |qs| ==> reqs[k] == ToRequest(qs[k])
  {
    seq(|qs|, k requires 0 <= k < |qs| => ToRequest(qs[k]))
  }

  /** What a client can observe of an arbiter verdict: a failed exchange, or a response (of any status) carrying the verdict text. */
  predicate Carries(o: HttpOutcome, granted: bool) {
    o.TransportError? || o.body == Text.BoolText(granted)
  }

  /** A client that gets the arbiter's answer through holds exactly the arbiter's verdict. */
  lemma RemoteVerdictIsArbiterVerdict(self: RemoteResolver, data: Authority.AuthorityData, q: Permission.Query, net: Network)
    requires net(RequestUrl(self.baseUrl, q)).Response?
    requires net(RequestUrl(self.baseUrl, q)).body == Handler.Handle(data, ToRequest(q)).Body()
    ensures Resolve(self, q, net) == Handler.Handle(data, ToRequest(q)).granted
  {
  }

  /** Fail-closed end to end: whatever the transport does, a client only believes a grant the arbiter made. */
  lemma RemoteGrantNeedsArbiterGrant(self: RemoteResolver, q: Permission.Query, net: Network, granted: bool)
    requires Carries(net(RequestUrl(self.baseUrl, q)), granted)
    ensures Resolve(self, q, net) ==> granted
  {
  }

  /**
   * Clients send queries `qs` to one arbiter, which serializes them; the
   * k-th client sees the k-th verdict or a transport failure. No two
   * clients sending the same query both believe they were granted.
   */
  lemma RemoteClientsNeverDoubleGrant(self: RemoteResolver, data: Authority.AuthorityData,
                                      qs: seq<Permission.Query>, nets: seq<Network>, i: nat, j: nat)
    requires |nets| == |qs|
    requires forall k :: 0 <= k < |qs| ==>
      Carries(nets[k](RequestUrl(self.baseUrl, qs[k])), Handler.Run(data, ToRequests(qs)).verdicts[k])
    requires i < |qs| && j < |qs| && i != j && qs[i] == qs[j]
    ensures !(Resolve(self, qs[i], nets[i]) && Resolve(self, qs[j], nets[j]))
  {
    var reqs := ToRequests(qs);
    Handler.SingleWinner(data, reqs, i, j);
    RemoteGrantNeedsArbiterGrant(self, qs[i], nets[i], Handler.Run(data, reqs).verdicts[i]);
    RemoteGrantNeedsArbiterGrant(self, qs[j], nets[j], Handler.Run(data, reqs).verdicts[j]);
  }
}
