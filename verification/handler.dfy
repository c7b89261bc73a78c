/**
 * The request handlers of the authority service. Each handler takes the one
 * lock around the arbiter state and does its check and its update before
 * releasing it, so each is modelled as one atomic step from a state to a
 * verdict and the next state. Runs of such steps model the serialized
 * stream of requests the service sees.
 */
module Handler {
  import opened Permission
  import opened RotationConfig
  import opened Authority
  import Text

  function Max(a: int, b: int): int {
    if a < b then b else a
  }

  /** The verdict of one step and the state it leaves behind. */
  datatype Response = Response(granted: bool, state: AuthorityData)
  {
    /** The response body: the verdict as `bool::to_string` renders it. */
    function Body(): string {
      Text.BoolText(granted)
    }
  }

  /**
   * `authorize`: grants iff the slot exceeds the last granted slot, and a
   * grant records it. The counter ends at the larger of the two values.
   */
  function Authorize(data: AuthorityData, slotNr: nat): (r: Response)
    ensures r.granted <==> data.currentSlot < slotNr
    ensures r.state.currentSlot == Max(data.currentSlot, slotNr)
    ensures r.state == data.(currentSlot := r.state.currentSlot)
  {
    if data.currentSlot < slotNr then Response(true, data.(currentSlot := slotNr))
    else Response(false, data)
  }

  /** The round handler routed by the service, assumed to apply the slot rule to the round counter. */
  function AuthorizeRound(data: AuthorityData, round: nat): (r: Response)
    ensures r.granted <==> data.currentRound < round
    ensures r.state.currentRound == Max(data.currentRound, round)
    ensures r.state == data.(currentRound := r.state.currentRound)
  {
    if data.currentRound < round then Response(true, data.(currentRound := round))
    else Response(false, data)
  }

  /** The session handler routed by the service, assumed to apply the slot rule to the session counter. */
  function AuthorizeSession(data: AuthorityData, sessionIndex: nat): (r: Response)
    ensures r.granted <==> data.currentSession < sessionIndex
    ensures r.state.currentSession == Max(data.currentSession, sessionIndex)
    ensures r.state == data.(currentSession := r.state.currentSession)
  {
    if data.currentSession < sessionIndex then Response(true, data.(currentSession := sessionIndex))
    else Response(false, data)
  }

  /**
   * `authorize_fix_order`: grants iff `name` has the current turn, and a
   * grant consumes exactly that one turn. The counters are never touched.
   */
  function AuthorizeFixOrder(data: AuthorityData, name: string): (r: Response)
    ensures r.granted <==> Pending(data.config) != [] && Pending(data.config)[0] == name
    ensures r.granted ==> Pending(data.config) == [name] + Pending(r.state.config)
    ensures !r.granted ==> r.state == data
    ensures r.state == data.(config := r.state.config)
  {
    if IsAuthorized(data.config, name) then Response(true, data.(config := Next(data.config).rest))
    else Response(false, data)
  }

  /** One request the service can receive. */
  datatype Request = Claim(dim: Dimension, value: nat) | FixOrder(name: string)

  /** Routes a request to its handler. */
  function Handle(data: AuthorityData, req: Request): (r: Response)
    ensures req.Claim? ==> (r.granted <==> data.Counter(req.dim) < req.value)
    ensures req.Claim? ==> r.state == data.WithCounter(req.dim, Max(data.Counter(req.dim), req.value))
    ensures req.FixOrder? ==> r.state.config == data.config || r.granted
    ensures req.FixOrder? ==> forall dim :: r.state.Counter(dim) == data.Counter(dim)
    ensures forall dim :: r.state.Counter(dim) >= data.Counter(dim)
  {
    match req
    case Claim(Slot, n) => Authorize(data, n)
    case Claim(Round, n) => AuthorizeRound(data, n)
    case Claim(Session, n) => AuthorizeSession(data, n)
    case FixOrder(name) => AuthorizeFixOrder(data, name)
  }

  /** The verdicts of a serialized stream of requests and the state it ends in. */
  datatype Trace = Trace(verdicts: seq<bool>, final: AuthorityData)

  function Run(data: AuthorityData, reqs: seq<Request>): (t: Trace)
    ensures |t.verdicts| == |reqs|
    ensures forall dim :: t.final.Counter(dim) >= data.Counter(dim)
    decreases |reqs|
  {
    if reqs == [] then Trace([], data)
    else
      var t := Run(data, reqs[..|reqs| - 1]);
      var r := Handle(t.final, reqs[|reqs| - 1]);
      Trace(t.verdicts + [r.granted], r.state)
  }

  /** Running two streams back to back is running their concatenation. */
  lemma {:induction false} RunAppend(data: AuthorityData, p: seq<Request>, q: seq<Request>)
    ensures var mid := Run(data, p);
      Run(data, p + q) == Trace(mid.verdicts + Run(mid.final, q).verdicts, Run(mid.final, q).final)
  {
    var mid := Run(data, p);
    if q == [] {
      assert p + q == p;
    } else {
      var q' := q[..|q| - 1];
      assert (p + q)[..|p + q| - 1] == p + q';
      assert (p + q)[|p + q| - 1] == q[|q| - 1];
      RunAppend(data, p, q');
      var t := Run(mid.final, q');
      var r := Handle(t.final, q[|q| - 1]);
      assert mid.verdicts + t.verdicts + [r.granted] == mid.verdicts + (t.verdicts + [r.granted]);
    }
  }

  /** The verdict for request `j` is what its handler answers in the state the first `j` requests left. */
  lemma RunStep(data: AuthorityData, reqs: seq<Request>, j: nat)
    requires j < |reqs|
    ensures Run(data, reqs).verdicts[j] == Handle(Run(data, reqs[..j]).final, reqs[j]).granted
    ensures Run(data, reqs[..j + 1]).final == Handle(Run(data, reqs[..j]).final, reqs[j]).state
  {
    assert reqs[..j + 1][..j] == reqs[..j];
    assert reqs == reqs[..j + 1] + reqs[j + 1..];
    RunAppend(data, reqs[..j + 1], reqs[j + 1..]);
  }

  /** A counter only ever grows along a stream: the state after a longer prefix holds at least as much. */
  lemma CounterGrowsAlongRun(data: AuthorityData, reqs: seq<Request>, a: nat, b: nat, dim: Dimension)
    requires a <= b <= |reqs|
    ensures Run(data, reqs[..a]).final.Counter(dim) <= Run(data, reqs[..b]).final.Counter(dim)
  {
    assert reqs[..b] == reqs[..a] + reqs[a..b];
    RunAppend(data, reqs[..a], reqs[a..b]);
  }

  /**
   * Monotonicity: on one dimension, a value granted earlier in the stream
   * is strictly below any value granted later, so once `v` is granted no
   * request for a value at or below `v` is ever granted again.
   */
  lemma GrantsStrictlyIncrease(data: AuthorityData, reqs: seq<Request>, i: nat, j: nat)
    requires i < j < |reqs|
    requires reqs[i].Claim? && reqs[j].Claim? && reqs[i].dim == reqs[j].dim
    ensures Run(data, reqs).verdicts[i] && Run(data, reqs).verdicts[j] ==> reqs[i].value < reqs[j].value
    ensures Run(data, reqs).verdicts[i] && reqs[j].value <= reqs[i].value ==> !Run(data, reqs).verdicts[j]
  {
    var dim := reqs[i].dim;
    RunStep(data, reqs, i);
    RunStep(data, reqs, j);
    CounterGrowsAlongRun(data, reqs, i + 1, j, dim);
  }

  /** Single winner: the same claim sent twice in one stream is granted at most once. */
  lemma SingleWinner(data: AuthorityData, reqs: seq<Request>, i: nat, j: nat)
    requires i < |reqs| && j < |reqs| && i != j
    requires reqs[i].Claim? && reqs[i] == reqs[j]
    ensures !(Run(data, reqs).verdicts[i] && Run(data, reqs).verdicts[j])
  {
    if i < j {
      GrantsStrictlyIncrease(data, reqs, i, j);
    } else {
      GrantsStrictlyIncrease(data, reqs, j, i);
    }
  }

  /** The identities a stream was granted turns for, in grant order. */
  function TurnsGranted(reqs: seq<Request>, verdicts: seq<bool>): seq<string>
    requires |verdicts| == |reqs|
  {
    if reqs == [] then []
    else
      var last := reqs[|reqs| - 1];
      TurnsGranted(reqs[..|reqs| - 1], verdicts[..|reqs| - 1])
        + (if last.FixOrder? && verdicts[|reqs| - 1] then [last.name] else [])
  }

  /**
   * Rotation progress: the turns granted along any stream, followed by the
   * turns still pending at its end, are exactly the turns pending at its
   * start. Turns are handed out front to back, one per grant, none skipped.
   */
  lemma {:induction false} RotationProgress(data: AuthorityData, reqs: seq<Request>)
    ensures var t := Run(data, reqs);
      TurnsGranted(reqs, t.verdicts) + Pending(t.final.config) == Pending(data.config)
  {
    if reqs != [] {
      var prefix := reqs[..|reqs| - 1];
      var last := reqs[|reqs| - 1];
      var t := Run(data, prefix);
      var r := Handle(t.final, last);
      var v := t.verdicts + [r.granted];
      assert Run(data, reqs) == Trace(v, r.state);
      RotationProgress(data, prefix);
      assert v[..|reqs| - 1] == t.verdicts;
      var g := TurnsGranted(prefix, t.verdicts);
      assert TurnsGranted(reqs, v) == g + (if last.FixOrder? && r.granted then [last.name] else []);
      if last.FixOrder? && r.granted {
        assert Pending(t.final.config) == [last.name] + Pending(r.state.config);
      } else {
        assert r.state.config == t.final.config;
      }
    }
  }

  /**
   * From a freshly loaded turn order, the identities granted along any
   * stream are a prefix of the declared order, and the rest of the declared
   * order is still pending.
   */
  lemma DeclaredOrderIsServed(declared: seq<string>, reqs: seq<Request>)
    ensures var t := Run(Authority.Create(FromJson(declared)), reqs);
      && TurnsGranted(reqs, t.verdicts) <= declared
      && TurnsGranted(reqs, t.verdicts) + Pending(t.final.config) == declared
  {
    RotationProgress(Authority.Create(FromJson(declared)), reqs);
    PendingFromJson(declared);
  }

  /** From the unset sentinel, the first claim of any value on any dimension is granted. */
  lemma FreshClaimGranted(cfg: Config, dim: Dimension, n: nat)
    ensures Handle(Authority.Create(cfg), Claim(dim, n)).granted
    ensures Handle(Authority.Create(cfg), Claim(dim, n)).state.Counter(dim) == n
  {
  }

  /** The slot handler test: slot 1, slot 1 again, slot 2 are answered true, false, true. */
  lemma SlotScenario()
    ensures var r1 := Authorize(Authority.New(), 1);
      var r2 := Authorize(r1.state, 1);
      var r3 := Authorize(r2.state, 2);
      [r1.granted, r2.granted, r3.granted] == [true, false, true]
  {
  }

  /** The turn-order handler test: declared order node3, node1, node2, requests node1, node3, node2, node1, node2. */
  lemma FixOrderScenario()
    ensures var r1 := AuthorizeFixOrder(Authority.Create(FromJson(["node3", "node1", "node2"])), "node1");
      var r2 := AuthorizeFixOrder(r1.state, "node3");
      var r3 := AuthorizeFixOrder(r2.state, "node2");
      var r4 := AuthorizeFixOrder(r3.state, "node1");
      var r5 := AuthorizeFixOrder(r4.state, "node2");
      [r1.granted, r2.granted, r3.granted, r4.granted, r5.granted] == [false, true, false, true, true]
  {
    var s0 := Authority.Create(FromJson(["node3", "node1", "node2"]));
    assert s0.config.order == ["node2", "node1", "node3"];
    var r1 := AuthorizeFixOrder(s0, "node1");
    assert !r1.granted && r1.state == s0;
    var r2 := AuthorizeFixOrder(r1.state, "node3");
    assert r2.granted && r2.state.config.order == ["node2", "node1"];
    var r3 := AuthorizeFixOrder(r2.state, "node2");
    assert !r3.granted && r3.state == r2.state;
    var r4 := AuthorizeFixOrder(r3.state, "node1");
    assert r4.granted && r4.state.config.order == ["node2"];
  }
}
