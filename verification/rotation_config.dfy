/**
 * The fixed turn order of the authority service. The declared list is
 * reversed once when the configuration is loaded, so that popping the tail
 * of the stored list yields the identities in declared order.
 */
module RotationConfig {
  import opened Wrappers

  /** `order` holds the identities still to be served, stored reversed: the one whose turn it is sits at the tail. */
  datatype Config = Config(order: seq<string>)

  function Reverse<T>(s: seq<T>): (r: seq<T>)
    ensures |r| == |s|
    ensures forall i :: 0 <= i < |s| ==> r[i] == s[|s| - 1 - i]
  {
    if s == [] then [] else Reverse(s[1..]) + [s[0]]
  }

  /** `Config::new`: no identities at all. */
  function New(): (c: Config)
    ensures c.order == []
    ensures forall name :: !IsAuthorized(c, name)
  {
    Config([])
  }

  /**
   * `Config::from_json` once the JSON text has been parsed into the declared
   * list (earliest turn first): the list is stored reversed.
   */
  function FromJson(declared: seq<string>): (c: Config)
    ensures |c.order| == |declared|
    ensures forall i :: 0 <= i < |declared| ==> c.order[i] == declared[|declared| - 1 - i]
  {
    Config(Reverse(declared))
  }

  /** What `next` returns together with the configuration it leaves behind. */
  datatype Popped = Popped(item: Option<string>, rest: Config)

  /** `Config::next`: pops the tail of the stored list. */
  function Next(c: Config): (p: Popped)
    ensures c.order == [] ==> p == Popped(None, c)
    ensures c.order != [] ==> p.item == Some(c.order[|c.order| - 1]) && p.rest.order == c.order[..|c.order| - 1]
    ensures p.item.Some? ==> p.rest.order + [p.item.value] == c.order
  {
    if c.order == [] then Popped(None, c)
    else Popped(Some(c.order[|c.order| - 1]), Config(c.order[..|c.order| - 1]))
  }

  /** The identities still to be served, in turn order: what successive `next` calls return until `None`. */
  function Pending(c: Config): (s: seq<string>)
    ensures |s| == |c.order|
    decreases |c.order|
  {
    match Next(c).item
    case None => []
    case Some(x) => [x] + Pending(Next(c).rest)
  }

  /** `Config::is_authorized`: compares the name with the tail of the stored list. */
  function IsAuthorized(c: Config, name: string): (b: bool)
    ensures b <==> Next(c).item == Some(name)
    ensures b <==> Pending(c) != [] && Pending(c)[0] == name
  {
    |c.order| > 0 && c.order[|c.order| - 1] == name
  }

  /** The i-th pending turn is the i-th stored identity counted from the tail. */
  lemma {:induction false} PendingAt(c: Config, i: nat)
    requires i < |c.order|
    ensures Pending(c)[i] == c.order[|c.order| - 1 - i]
    decreases i
  {
    var rest := Next(c).rest;
    assert Pending(c) == [c.order[|c.order| - 1]] + Pending(rest);
    if i > 0 {
      PendingAt(rest, i - 1);
    }
  }

  /** For every configuration, the turns still to be served are the stored list read back to front. */
  lemma PendingIsReverse(c: Config)
    ensures Pending(c) == Reverse(c.order)
  {
    forall i | 0 <= i < |c.order|
      ensures Pending(c)[i] == Reverse(c.order)[i]
    {
      PendingAt(c, i);
    }
  }

  /** Successive `next` calls after loading return the declared list, in declared order. */
  lemma {:induction false} PendingFromJson(declared: seq<string>)
    ensures Pending(FromJson(declared)) == declared
  {
    if declared != [] {
      var c := FromJson(declared);
      assert c.order == Reverse(declared[1..]) + [declared[0]];
      assert Next(c).rest == FromJson(declared[1..]);
      PendingFromJson(declared[1..]);
    }
  }

  /** Right after loading, the identity declared first, and only it, is authorized. */
  lemma FirstDeclaredIsAuthorized(declared: seq<string>, name: string)
    ensures IsAuthorized(FromJson(declared), name) <==> declared != [] && declared[0] == name
  {
    PendingFromJson(declared);
  }

  /** Once every turn is consumed, no identity is authorized any more, and `next` keeps returning `None`. */
  lemma ExhaustedDeniesAll(c: Config, name: string)
    requires Pending(c) == []
    ensures !IsAuthorized(c, name)
    ensures Next(c) == Popped(None, c)
  {
  }

  /** The configuration loading test: five declared names come back one by one, in declared order. */
  lemma NextTestScenario()
    ensures var cfg := FromJson(["node1", "node2", "node1", "node2", "node2"]);
      |cfg.order| == 5 && Pending(cfg) == ["node1", "node2", "node1", "node2", "node2"]
  {
    PendingFromJson(["node1", "node2", "node1", "node2", "node2"]);
  }
}
