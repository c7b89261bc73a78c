# Authority permission arbitration, modelled in Dafny

This project models the permission-arbitration core of the substrate-raft
authority components. Validators call a `PermissionResolver` capability
before they act on a slot, round or session. The resolver must never tell two
callers "yes" for the same claim. The modelled pieces are:

- the fixed turn order of the authority service (`config.rs`). The declared
  list of identities is reversed once at load time. `next` pops the tail.
  `is_authorized` compares a name with the tail. Together they serve the
  identities in declared order (module `RotationConfig`);
- the arbiter state (`authority.rs`). It has three counters (slot, round,
  session) that start at the sentinel -1, plus the turn order (module
  `Authority`);
- the request handlers (`handler.rs`). Each handler runs under the one mutex.
  Each is modelled as one atomic step from a state to a verdict and a new
  state. `Handler.Run` models the serialized stream of requests the service
  sees, and the lemmas about runs state monotonicity, single winner and
  rotation progress (module `Handler`);
- the capability surface and the two constant resolvers with their factories
  (`primitives/authority-permission`, module `Permission`);
- the remote resolver (`client/authority-permission`, module
  `RemotePermission`). The HTTP exchange is a parameter `net` that maps the
  requested URL to a transport error or to a response with a status and a body.
  The model states the URL shape, the parse of the body as a boolean, and the
  rule that every error becomes a denial;
- the composition of client and service (module `EndToEnd`). A client believes
  a grant only when the arbiter made it. So clients that send the same query
  through one arbiter never both win.

The standard-library conversions the protocol depends on are in module
`Text`: decimal rendering of the number in a request path, `bool::to_string`
and `str::parse::<bool>`. Module `Wrappers` holds `Option` and `Result`.

Notes on how the model reads the code:

- `handler.rs` compares the `i64` counter with the `usize` slot number and
  assigns one to the other. As written, that Rust code needs a conversion the
  file does not contain. The model compares and stores mathematical integers.
- The service routes `authorize_slot`, `authorize_round` and
  `authorize_session` (`main.rs:26`). `handler.rs` only has `authorize`,
  mounted at `/authorize/<slot_nr>`, and `authorize_fix_order`. The client
  requests `/authorize/slot/<n>`, `/authorize/round/<n>` and
  `/authorize/session/<n>`. The model assumes the three routed handlers apply
  the rule of `authorize` to their own counter (`Handler.AuthorizeRound`,
  `Handler.AuthorizeSession`). `handler.rs` has no such handlers, so this is an
  assumption.
  The end-to-end lemmas assume the service answers the client's paths with
  these handlers.

## Model

| member | source | states |
|---|---|---|
| `Text.Render` | client/authority-permission/src/lib.rs:20 | `{}` on an unsigned number: a non-empty run of digits with no leading zero except for the number 0 |
| `Text.BoolText` | bin/authority-service/src/handler.rs:15-17 | the body `bool::to_string` produces parses back as the same boolean |
| `Text.ParseRender` | client/authority-permission/src/lib.rs:20 | the decimal text put into a request path reads back as the number it was made from |
| `Text.RenderInjective` | client/authority-permission/src/lib.rs:20 | distinct numbers produce distinct decimal texts in the path |
| `Text.ParseBool` | client/authority-permission/src/lib.rs:27-32 | body parsing accepts exactly "true" and "false"; the result is true exactly for "true" |
| `Text.ParseBoolText` | bin/authority-service/src/handler.rs:15-17 | the service's `to_string` body parses back to the verdict, and a text parses to a verdict only if it is that verdict's rendering |
| `Permission.ResolveSlot` | primitives/authority-permission/src/lib.rs:53-55 | the always-resolver grants every slot; the never-resolver (lines 79-81) grants none |
| `Permission.ResolveRound` | primitives/authority-permission/src/lib.rs:57-59 | the always-resolver grants every round; the never-resolver (lines 83-85) grants none |
| `Permission.ResolveSession` | primitives/authority-permission/src/lib.rs:61-63 | the always-resolver grants every session; the never-resolver (lines 87-89) grants none |
| `Permission.ResolveAll` | primitives/authority-permission/src/lib.rs:32-36 | a history of calls gets one verdict per call |
| `Permission.VerdictIgnoresHistory` | primitives/authority-permission/src/lib.rs:49-89 | the resolvers carry no state: in any history, each verdict equals the verdict of that call alone, which is true only for the always-resolver |
| `Permission.Create` | primitives/authority-permission/src/lib.rs:66-99 | each factory creates the resolver of its own kind: every query is granted by what it creates iff it is the always-factory |
| `RotationConfig.Reverse` | bin/authority-service/src/config.rs:26 | reversal keeps the length and puts element i of the input at position n-1-i |
| `RotationConfig.New` | bin/authority-service/src/config.rs:11-13 | the empty order authorizes no name |
| `RotationConfig.FromJson` | bin/authority-service/src/config.rs:22-31 | loading stores the declared list reversed, with the same length |
| `RotationConfig.Next` | bin/authority-service/src/config.rs:33-35 | on an empty order it yields None and changes nothing; otherwise it yields the last element and leaves exactly the prefix; pushing the yielded item back restores the order |
| `RotationConfig.Pending` | bin/authority-service/src/config.rs:33-35 | the successive `next` results until None, one per stored identity |
| `RotationConfig.IsAuthorized` | bin/authority-service/src/config.rs:37-42 | a name is authorized iff `next` would yield it, i.e. iff it is the first pending identity; the check changes nothing |
| `RotationConfig.PendingAt` | bin/authority-service/src/config.rs:33-35 | the i-th pending turn is the i-th stored identity counted from the tail |
| `RotationConfig.PendingIsReverse` | bin/authority-service/src/config.rs:33-42 | for every configuration, the turns still to be served are the stored list read back to front |
| `RotationConfig.PendingFromJson` | bin/authority-service/src/config.rs:26-35 | after loading, successive `next` calls return the declared list in declared order |
| `RotationConfig.FirstDeclaredIsAuthorized` | bin/authority-service/src/config.rs:37-42 | right after loading, exactly the first declared identity is authorized |
| `RotationConfig.ExhaustedDeniesAll` | bin/authority-service/src/config.rs:33-42 | once nothing is pending no name is authorized and `next` keeps yielding None |
| `RotationConfig.NextTestScenario` | bin/authority-service/src/config.rs:56-76 | the five-name test list has stored length 5 and comes back in declared order |
| `Authority.New` | bin/authority-service/src/authority.rs:11-13 | all three counters are -1, no identity is authorized, and the result equals `create` of the empty order |
| `Authority.Create` | bin/authority-service/src/authority.rs:15-17 | all three counters are -1 and the given order is stored unchanged |
| `Handler.Authorize` | bin/authority-service/src/handler.rs:20-31 | grants iff the current slot is below the request; the slot counter becomes the larger of the two; nothing else in the state changes, and a denial changes nothing |
| `Handler.AuthorizeRound` | bin/authority-service/src/main.rs:26 | the assumed round handler: the slot rule on the round counter |
| `Handler.AuthorizeSession` | bin/authority-service/src/main.rs:26 | the assumed session handler: the slot rule on the session counter |
| `Handler.AuthorizeFixOrder` | bin/authority-service/src/handler.rs:7-18 | grants iff the name is the first pending identity; a grant consumes exactly that one turn; a denial changes nothing; counters are never touched |
| `Handler.Handle` | bin/authority-service/src/main.rs:24-26 | a numeric claim is granted iff it exceeds its own counter and moves only that counter (to the maximum); a turn request leaves all counters alone; no counter ever decreases |
| `Handler.Run` | bin/authority-service/src/handler.rs:12-30 | a serialized request stream gets one verdict per request, and no counter ends below where it started |
| `Handler.CounterGrowsAlongRun` | bin/authority-service/src/handler.rs:26-27 | along a stream, the state after a longer prefix has every counter at least as high |
| `Handler.GrantsStrictlyIncrease` | bin/authority-service/src/handler.rs:26-28 | on one dimension, values granted later are strictly above values granted earlier; after v is granted, no request for a value at or below v is granted |
| `Handler.SingleWinner` | bin/authority-service/src/handler.rs:25-30 | the same claim sent twice in one stream is granted at most once |
| `Handler.RotationProgress` | bin/authority-service/src/handler.rs:12-17 | the turns granted along any stream, followed by the turns still pending, are exactly the turns pending at its start |
| `Handler.DeclaredOrderIsServed` | bin/authority-service/src/config.rs:26 | from a loaded order, the identities granted turns form a prefix of the declared list, and the rest of the list is still pending |
| `Handler.FreshClaimGranted` | bin/authority-service/src/authority.rs:15-17 | from the -1 sentinel, the first claim of any value on any dimension is granted and recorded |
| `Handler.SlotScenario` | bin/authority-service/src/handler.rs:39-59 | from a fresh state, slots 1, 1, 2 are answered true, false, true |
| `Handler.FixOrderScenario` | bin/authority-service/src/handler.rs:61-104 | with declared order node3, node1, node2, requests node1, node3, node2, node1, node2 are answered false, true, false, true, true |
| `RemotePermission.AfterPrefix` | client/authority-permission/src/lib.rs:20 | a path is split after a prefix exactly when it starts with that prefix, and the two parts rebuild it |
| `RemotePermission.RequestUrl` | client/authority-permission/src/lib.rs:18-57 | the URL formatted for a query lies under `base/authorize/` and reads back as that query, so the path names dimension and value unambiguously |
| `RemotePermission.UrlInjective` | client/authority-permission/src/lib.rs:18-57 | distinct queries are sent to distinct URLs |
| `RemotePermission.DoResolve` | client/authority-permission/src/lib.rs:18-71 | the "could not reach" error arises exactly on a transport failure; a body that is not a boolean gives the parse error, and only then; a body that parses gives `Ok` of the parsed value |
| `RemotePermission.Resolve` | client/authority-permission/src/lib.rs:74-111 | fail-closed: the verdict is true exactly when the exchange succeeded and the body was "true" |
| `RemotePermission.ResolveSlot` | client/authority-permission/src/lib.rs:76-86 | asks `base/authorize/slot/<n>` and grants exactly on a "true" body |
| `RemotePermission.ResolveRound` | client/authority-permission/src/lib.rs:88-98 | asks `base/authorize/round/<n>` and grants exactly on a "true" body |
| `RemotePermission.ResolveSession` | client/authority-permission/src/lib.rs:100-110 | asks `base/authorize/session/<n>` and grants exactly on a "true" body |
| `RemotePermission.OnlyBodyDecides` | client/authority-permission/src/lib.rs:21-32 | the status is not inspected: two responses with the same body, whatever their statuses, give the same verdict and the same error |
| `RemotePermission.TransportFailureDenies` | client/authority-permission/src/lib.rs:203-208 | an unreachable service yields a denial, through the "could not reach" error |
| `RemotePermission.MockServerScenario` | client/authority-permission/src/lib.rs:119-173 | a "true" body at the slot-1 path grants slot 1; a "false" body at the round-1 path denies round 1 |
| `EndToEnd.ToRequestInjective` | client/authority-permission/src/lib.rs:18-57 | distinct client queries become distinct arbiter claims, so a per-claim guarantee holds per query |
| `EndToEnd.RemoteVerdictIsArbiterVerdict` | client/authority-permission/src/lib.rs:27-34 | a client that receives the service's body holds exactly the service's verdict |
| `EndToEnd.RemoteGrantNeedsArbiterGrant` | client/authority-permission/src/lib.rs:76-86 | whatever the transport does, a client believes a grant only if the arbiter made it |
| `EndToEnd.RemoteClientsNeverDoubleGrant` | bin/authority-service/src/handler.rs:20-31 | clients whose queries one arbiter serializes never both believe they won the same query |

## Left out

- Handler.Authorize: compares and stores unbounded integers. The code in `handler.rs` mixes an `i64` counter with a `usize` value without a conversion, so the wrap-around of a slot above 2^63-1 is not modelled.
- Handler.AuthorizeRound: the round handler is not in `handler.rs`. Its rule is assumed to be the slot rule.
- Handler.AuthorizeSession: the session handler is not in `handler.rs`. Its rule is assumed to be the slot rule.
- HTTP plumbing: Rocket routing and managed state, and the reqwest client and its construction, are framework I/O. The network is the parameter `net`. `RemotePermission.ParseUrl` is the reference inverse of the client's URL, not a model of Rocket's router.
- The mutex: each handler is one atomic step, and a stream of requests is serialized, as the single lock makes it.
- JSON parsing and file reading in `Config::from_json` / `from_json_file`: `RotationConfig.FromJson` takes the already-parsed declared list. A parse failure (`None`) is not modelled.
- Command-line handling in `main.rs` is I/O.
- The panic in `.expect("Failed to parse response")` when a body cannot be read as text is not a verdict and is not modelled. Every response carries a text body.
- Logging (`debug!`, `error!`) is plumbing.
- `PermissionResolverFactory::create` is asynchronous and returns a boxed trait object. The model returns the resolver value.
- The distributed transactional arbiter, the synchronous/asynchronous bridge and a parity resolver are not part of this model.
