/** The Privy policy route: GET lists the policies attached to a wallet, POST
    builds a transaction policy from a policy type and its configuration,
    creates it and attaches it to the wallet (replacing the wallet's policy
    list), and PATCH appends an existing policy to a wallet's list. The Privy
    API is an environment of oracles; the floating-point wei conversion and
    `Number` are oracles too. */
module PolicyRoute {

  import opened Wrappers
  import opened Json
  import opened Http

  /** The `policyType` values the payload switch knows, and everything else. */
  datatype PolicyType = Allowlist | Denylist | NativeLimit | Erc20Limit | Unknown

  function TypeOf(v: Option<Json>): (t: PolicyType)
    ensures t.Unknown? <==>
              v !in {Some(JStr("allowlist")), Some(JStr("denylist")), Some(JStr("nativeLimit")), Some(JStr("erc20Limit"))}
  {
    match v
    case Some(JStr(s)) =>
      if s == "allowlist" then Allowlist
      else if s == "denylist" then Denylist
      else if s == "nativeLimit" then NativeLimit
      else if s == "erc20Limit" then Erc20Limit
      else Unknown
    case _ => Unknown
  }

  /** One condition of a rule; only the amount condition of an ERC-20 limit
      carries an ABI. An absent `value` is a config property that was not
      given. */
  datatype Condition = Condition(fieldSource: string, field: string, operator: string, value: Option<Json>, abi: Option<Json>)
  datatype Rule = Rule(name: string, conditions: seq<Condition>, action: string)
  datatype MethodRule = MethodRule(rpcMethod: string, rules: seq<Rule>)
  datatype Payload = Payload(version: string, name: Option<Json>, chainType: string, methodRules: seq<MethodRule>, defaultAction: string)

  /** The ABI of ERC-20 `transfer(address recipient, uint256 amount) returns (bool)`. */
  const TransferAbi: Json :=
    JArr([JObj([
      Field("inputs", JArr([
        JObj([Field("internalType", JStr("address")), Field("name", JStr("recipient")), Field("type", JStr("address"))]),
        JObj([Field("internalType", JStr("uint256")), Field("name", JStr("amount")), Field("type", JStr("uint256"))])])),
      Field("name", JStr("transfer")),
      Field("outputs", JArr([JObj([Field("internalType", JStr("bool")), Field("name", JStr("")), Field("type", JStr("bool"))])])),
      Field("stateMutability", JStr("nonpayable")),
      Field("type", JStr("function"))])])

  /** The Privy API and the runtime pieces the handlers lean on. */
  datatype PrivyEnv = PrivyEnv(
    getWallet: string -> Result<Option<seq<string>>, Thrown>, // walletApi.getWallet: the wallet's policyIds, if any
    fetchPolicy: string -> Result<Json, Thrown>,              // GET /v1/policies/{id}, then .json()
    createPolicy: Payload -> Result<Json, Thrown>,            // POST /v1/policies; a non-ok reply is an Error with its text
    patchWallet: (string, seq<Json>) -> Result<Json, Thrown>, // PATCH /v1/wallets/{id}; a non-ok reply is an Error with its text
    isNumber: Option<Json> -> bool,                           // !isNaN(Number(x))
    weiHex: Option<Json> -> string,                           // (Number(x) * 1e18).toString(16)
    typeError: Thrown)                                        // what startsWith on a non-string, or a property read on null, throws

  /** The external calls a handler made, in order. */
  datatype Step =
    | CreatePolicy(payload: Payload)
    | PatchWallet(walletId: string, policyIds: seq<Json>)

  // ---------------------------------------------------------------------------
  // GET

  /** `Promise.all(policyIds.map(fetch))`, taken in order: one fetch per id,
      the results in the ids' order, and a failure if any fetch fails. */
  function FetchAll(ids: seq<string>, fetch: string -> Result<Json, Thrown>): (r: Result<seq<Json>, Thrown>)
    ensures r.Success? <==> forall i :: 0 <= i < |ids| ==> fetch(ids[i]).Success?
    ensures r.Success? ==> |r.value| == |ids| && forall i :: 0 <= i < |ids| ==> fetch(ids[i]) == Success(r.value[i])
  {
    if |ids| == 0 then Success([])
    else match fetch(ids[0])
      case Failure(t) => Failure(t)
      case Success(p) =>
        match FetchAll(ids[1..], fetch)
        case Failure(t) => Failure(t)
        case Success(ps) =>
          assert forall i :: 1 <= i < |ids| ==> ids[i] == ids[1..][i - 1];
          Success([p] + ps)
  }

  /** GET: a missing wallet id is a 400; a wallet without policies gives an
      empty list; otherwise the list holds each policy fetched by its id, in
      the wallet's order. Every failure is one fixed 500. */
  function HandleGet(walletId: Option<string>, env: PrivyEnv): (r: Response)
    ensures !Present(walletId) ==> r == ErrorResponse(400, "Wallet ID is required")
    ensures Present(walletId) ==> r.status in {200, 500}
    ensures r.status == 500 ==> r == ErrorResponse(500, "Failed to fetch policies")
    ensures r.status == 200 <==>
              && Present(walletId) && env.getWallet(walletId.value).Success?
              && forall i :: 0 <= i < |env.getWallet(walletId.value).value.GetOr([])| ==>
                   env.fetchPolicy(env.getWallet(walletId.value).value.GetOr([])[i]).Success?
    ensures r.status == 200 ==>
              var ids := env.getWallet(walletId.value).value.GetOr([]);
              && r.body.JArr? && |r.body.items| == |ids|
              && forall i :: 0 <= i < |ids| ==> env.fetchPolicy(ids[i]) == Success(r.body.items[i])
  {
    if !Present(walletId) then
      ErrorResponse(400, "Wallet ID is required")
    else match env.getWallet(walletId.value)
      case Failure(_) => ErrorResponse(500, "Failed to fetch policies")
      case Success(ids) =>
        if ids.None? || |ids.value| == 0 then Response(200, JArr([]))
        else match FetchAll(ids.value, env.fetchPolicy)
          case Failure(_) =>
            assert ids.GetOr([]) == ids.value;
            ErrorResponse(500, "Failed to fetch policies")
          case Success(policies) => Response(200, JArr(policies))
  }

  // ---------------------------------------------------------------------------
  // POST

  /** What a validation check decided. */
  datatype Check = Pass | Reject(response: Response) | Throw(error: Thrown)

  /** `config.contractAddress?.startsWith('0x')`: undefined for an absent or
      null address, a throw for any other non-string. */
  function StartsWith0x(v: Option<Json>, typeError: Thrown): (r: Result<bool, Thrown>)
    ensures v.None? || v == Some(JNull) ==> r == Success(false)
    ensures v.Some? && v.value.JStr? ==> r == Success(|v.value.s| >= 2 && v.value.s[..2] == "0x")
    ensures r.Failure? <==> v.Some? && !v.value.JNull? && !v.value.JStr?
  {
    match v
    case None => Success(false)
    case Some(JNull) => Success(false)
    case Some(JStr(s)) => Success(|s| >= 2 && s[..2] == "0x")
    case Some(_) => Failure(typeError)
  }

  /** The two POST checks: an ERC-20 limit needs a contract address starting
      with "0x", a native limit a numeric maximum. Other types pass. */
  function ValidateCreate(t: PolicyType, config: seq<Field>, env: PrivyEnv): (c: Check)
    ensures c.Reject? ==> c.response.status == 400
    ensures !t.Erc20Limit? && !t.NativeLimit? ==> c.Pass?
    ensures t.Erc20Limit? ==>
              match StartsWith0x(FieldValue(config, "contractAddress"), env.typeError)
              case Success(ok) => c == if ok then Pass else Reject(ErrorResponse(400, "Invalid ERC20 contract address"))
              case Failure(e) => c == Throw(e)
    ensures t.NativeLimit? ==>
              c == if env.isNumber(FieldValue(config, "nativeMax")) then Pass
                   else Reject(ErrorResponse(400, "Invalid native token amount"))
  {
    if t.Erc20Limit? then
      match StartsWith0x(FieldValue(config, "contractAddress"), env.typeError)
      case Failure(e) => Throw(e)
      case Success(ok) => if ok then Pass else Reject(ErrorResponse(400, "Invalid ERC20 contract address"))
    else if t.NativeLimit? && !env.isNumber(FieldValue(config, "nativeMax")) then
      Reject(ErrorResponse(400, "Invalid native token amount"))
    else
      Pass
  }

  /** A rule on `eth_sendTransaction` with one named rule. */
  function SendRule(name: string, conditions: seq<Condition>, action: string): MethodRule {
    MethodRule("eth_sendTransaction", [Rule(name, conditions, action)])
  }

  /** The policy the POST handler sends for a type and its configuration. */
  function PayloadFor(policyName: Option<Json>, t: PolicyType, config: seq<Field>, weiHex: Option<Json> -> string)
    : (p: Payload)
    ensures p.version == "1.0" && p.name == policyName && p.chainType == "ethereum"
    // one rule on eth_sendTransaction for each known type, none otherwise
    ensures |p.methodRules| == if t.Unknown? then 0 else 1
    ensures forall m :: m in p.methodRules ==> m.rpcMethod == "eth_sendTransaction" && |m.rules| == 1
    // only a deny list denies, and only a deny list allows by default
    ensures forall m :: m in p.methodRules ==> (m.rules[0].action == "DENY" <==> t.Denylist?)
    ensures forall m :: m in p.methodRules ==> m.rules[0].action in {"ALLOW", "DENY"}
    ensures p.defaultAction == if t.Denylist? then "ALLOW" else "DENY"
    ensures t.Allowlist? ==>
              p.methodRules[0].rules[0].conditions ==
                [Condition("ethereum_transaction", "to", "eq", FieldValue(config, "allowlistAddress"), None)]
    ensures t.Denylist? ==>
              p.methodRules[0].rules[0].conditions ==
                [Condition("ethereum_transaction", "to", "eq", FieldValue(config, "denylistAddress"), None)]
    ensures t.NativeLimit? ==>
              p.methodRules[0].rules[0].conditions ==
                [Condition("ethereum_transaction", "value", "lte", Some(JStr("0x" + weiHex(FieldValue(config, "nativeMax")))), None)]
    // an ERC-20 limit: the token contract, the chain, then the transferred amount
    ensures t.Erc20Limit? ==>
              var cs := p.methodRules[0].rules[0].conditions;
              && |cs| == 3
              && cs[0] == Condition("ethereum_transaction", "to", "eq", FieldValue(config, "contractAddress"), None)
              && cs[1] == Condition("ethereum_transaction", "chain_id", "eq", FieldValue(config, "chainId"), None)
              && cs[2] == Condition("ethereum_calldata", "transfer.amount", "lte",
                                    Some(JStr("0x" + weiHex(FieldValue(config, "maxAmount")))), Some(TransferAbi))
  {
    var rules := (match t
      case Allowlist =>
        [SendRule("Allowlist Contract",
                  [Condition("ethereum_transaction", "to", "eq", FieldValue(config, "allowlistAddress"), None)], "ALLOW")]
      case Denylist =>
        [SendRule("Denylist Address",
                  [Condition("ethereum_transaction", "to", "eq", FieldValue(config, "denylistAddress"), None)], "DENY")]
      case NativeLimit =>
        [SendRule("Native Transfer Limit",
                  [Condition("ethereum_transaction", "value", "lte", Some(JStr("0x" + weiHex(FieldValue(config, "nativeMax")))), None)],
                  "ALLOW")]
      case Erc20Limit =>
        [SendRule("ERC20 Transfer Limit",
                  [Condition("ethereum_transaction", "to", "eq", FieldValue(config, "contractAddress"), None),
                   Condition("ethereum_transaction", "chain_id", "eq", FieldValue(config, "chainId"), None),
                   Condition("ethereum_calldata", "transfer.amount", "lte",
                             Some(JStr("0x" + weiHex(FieldValue(config, "maxAmount")))), Some(TransferAbi))],
                  "ALLOW")]
      case Unknown => []);
    Payload("1.0", policyName, "ethereum", rules, if t.Denylist? then "ALLOW" else "DENY")
  }

  /** `policyPayload`: start from the base payload (no rules, deny by
      default), push the type's rule, and let a deny list allow by default. */
  method BuildPayload(policyName: Option<Json>, t: PolicyType, config: seq<Field>, weiHex: Option<Json> -> string)
    returns (p: Payload)
    ensures p == PayloadFor(policyName, t, config, weiHex)
  {
    p := Payload("1.0", policyName, "ethereum", [], "DENY");
    match t {
      case Allowlist =>
        p := p.(methodRules := p.methodRules + [SendRule("Allowlist Contract",
          [Condition("ethereum_transaction", "to", "eq", FieldValue(config, "allowlistAddress"), None)], "ALLOW")]);
      case Denylist =>
        p := p.(methodRules := p.methodRules + [SendRule("Denylist Address",
          [Condition("ethereum_transaction", "to", "eq", FieldValue(config, "denylistAddress"), None)], "DENY")]);
        p := p.(defaultAction := "ALLOW");
      case NativeLimit =>
        var limit := "0x" + weiHex(FieldValue(config, "nativeMax"));
        p := p.(methodRules := p.methodRules + [SendRule("Native Transfer Limit",
          [Condition("ethereum_transaction", "value", "lte", Some(JStr(limit)), None)], "ALLOW")]);
      case Erc20Limit =>
        var limit := "0x" + weiHex(FieldValue(config, "maxAmount"));
        p := p.(methodRules := p.methodRules + [SendRule("ERC20 Transfer Limit",
          [Condition("ethereum_transaction", "to", "eq", FieldValue(config, "contractAddress"), None),
           Condition("ethereum_transaction", "chain_id", "eq", FieldValue(config, "chainId"), None),
           Condition("ethereum_calldata", "transfer.amount", "lte", Some(JStr(limit)), Some(TransferAbi))], "ALLOW")]);
      case Unknown =>
    }
  }

  const CreateFailed: string := "Policy creation failed"

  /** `[policy.id]`: reading `id` of a null body throws; on any other value
      an absent id is serialised as null inside an array. */
  function CreatedIds(policy: Json, typeError: Thrown): (r: Result<seq<Json>, Thrown>)
    ensures policy == JNull ==> r == Failure(typeError)
    ensures policy != JNull ==> r.Success? && |r.value| == 1
    ensures policy != JNull && Get(Some(policy), "id").Some? ==> r.value == [Get(Some(policy), "id").value]
    ensures policy != JNull && Get(Some(policy), "id").None? ==> r.value == [JNull]
  {
    if policy == JNull then Failure(typeError)
    else Success([Get(Some(policy), "id").GetOr(JNull)])
  }

  /** POST. A rejected request calls nothing. A valid one creates the policy
      and only then, if that succeeded, sets the wallet's policy list to the
      new policy alone; the response is the created policy. Everything thrown
      becomes a 500 with the error's message, or "Policy creation failed". */
  method HandlePost(walletId: string, policyName: Option<Json>, policyType: Option<Json>, config: seq<Field>, env: PrivyEnv)
    returns (r: Response, steps: seq<Step>)
    ensures ValidateCreate(TypeOf(policyType), config, env).Reject? ==>
              r == ValidateCreate(TypeOf(policyType), config, env).response && steps == []
    ensures ValidateCreate(TypeOf(policyType), config, env).Throw? ==>
              r == ErrorResponse(500, CaughtMessage(env.typeError, CreateFailed)) && steps == []
    ensures ValidateCreate(TypeOf(policyType), config, env).Pass? ==>
              && 1 <= |steps| <= 2
              && steps[0] == CreatePolicy(PayloadFor(policyName, TypeOf(policyType), config, env.weiHex))
              && r.status in {200, 500}
    // no wallet update without a created policy whose id could be read
    ensures |steps| == 2 <==>
              && ValidateCreate(TypeOf(policyType), config, env).Pass? && env.createPolicy(steps[0].payload).Success?
              && env.createPolicy(steps[0].payload).value != JNull
    ensures |steps| == 2 ==>
              steps[1] == PatchWallet(walletId, CreatedIds(env.createPolicy(steps[0].payload).value, env.typeError).value)
    ensures r.status == 200 <==> |steps| == 2 && env.patchWallet(walletId, steps[1].policyIds).Success?
    ensures r.status == 200 ==> env.createPolicy(steps[0].payload) == Success(r.body)
    ensures |steps| == 1 && env.createPolicy(steps[0].payload).Failure? ==>
              r == ErrorResponse(500, CaughtMessage(env.createPolicy(steps[0].payload).error, CreateFailed))
    // `policy.id` on a null body throws before the wallet is touched
    ensures |steps| == 1 && env.createPolicy(steps[0].payload).Success? ==>
              env.createPolicy(steps[0].payload).value == JNull
              && r == ErrorResponse(500, CaughtMessage(env.typeError, CreateFailed))
    ensures |steps| == 2 && r.status != 200 ==>
              r == ErrorResponse(500, CaughtMessage(env.patchWallet(walletId, steps[1].policyIds).error, CreateFailed))
  {
    var t := TypeOf(policyType);
    match ValidateCreate(t, config, env) {
      case Reject(response) =>
        return response, [];
      case Throw(e) =>
        return ErrorResponse(500, CaughtMessage(e, CreateFailed)), [];
      case Pass =>
    }
    var payload := BuildPayload(policyName, t, config, env.weiHex);
    steps := [CreatePolicy(payload)];
    match env.createPolicy(payload) {
      case Failure(e) =>
        r := ErrorResponse(500, CaughtMessage(e, CreateFailed));
      case Success(policy) =>
        var created := CreatedIds(policy, env.typeError);
        if created.Failure? {
          return ErrorResponse(500, CaughtMessage(created.error, CreateFailed)), steps;
        }
        var ids := created.value;
        steps := steps + [PatchWallet(walletId, ids)];
        match env.patchWallet(walletId, ids) {
          case Failure(e) =>
            r := ErrorResponse(500, CaughtMessage(e, CreateFailed));
          case Success(_) =>
            r := Response(200, policy);
        }
    }
  }

  // ---------------------------------------------------------------------------
  // PATCH

  /** `[...(current || []), policyId]`: the wallet's ids in order, then the
      new one. */
  function AppendedIds(current: Option<seq<string>>, policyId: Json): (r: seq<Json>)
    ensures |r| == |current.GetOr([])| + 1
    ensures forall i :: 0 <= i < |current.GetOr([])| ==> r[i] == JStr(current.GetOr([])[i])
    ensures r[|r| - 1] == policyId
  {
    var ids := current.GetOr([]);
    seq(|ids|, i requires 0 <= i < |ids| => JStr(ids[i])) + [policyId]
  }

  /** PATCH: read the wallet's current ids, then write them back with the
      policy appended. Every failure is one fixed 500, and a failed read
      writes nothing. */
  function HandlePatch(walletId: string, policyId: Json, env: PrivyEnv): (r: (Response, seq<Step>))
    ensures env.getWallet(walletId).Failure? ==> r == (ErrorResponse(500, "Policy update failed"), [])
    ensures env.getWallet(walletId).Success? ==>
              r.1 == [PatchWallet(walletId, AppendedIds(env.getWallet(walletId).value, policyId))]
    ensures r.0.status == 200 <==>
              env.getWallet(walletId).Success? && env.patchWallet(walletId, r.1[0].policyIds).Success?
    ensures r.0.status == 200 ==> env.patchWallet(walletId, r.1[0].policyIds) == Success(r.0.body)
    ensures r.0.status != 200 ==> r.0 == ErrorResponse(500, "Policy update failed")
  {
    match env.getWallet(walletId)
    case Failure(_) => (ErrorResponse(500, "Policy update failed"), [])
    case Success(current) =>
      var ids := AppendedIds(current, policyId);
      match env.patchWallet(walletId, ids)
      case Failure(_) => (ErrorResponse(500, "Policy update failed"), [PatchWallet(walletId, ids)])
      case Success(updated) => (Response(200, updated), [PatchWallet(walletId, ids)])
  }

  /** Appending keeps what the wallet had: after a PATCH every earlier
      policy is still attached, and the new one is too. */
  lemma AppendKeepsEarlierPolicies(current: seq<string>, policyId: Json)
    ensures forall id :: id in current ==> JStr(id) in AppendedIds(Some(current), policyId)
    ensures policyId in AppendedIds(Some(current), policyId)
  {
    var r := AppendedIds(Some(current), policyId);
    forall id | id in current
      ensures JStr(id) in r
    {
      var i :| 0 <= i < |current| && current[i] == id;
      assert r[i] == JStr(id);
    }
    assert r[|r| - 1] == policyId;
  }

  /** Two PATCHes in a row append both policies in order. */
  lemma SuccessivePatchesAccumulate(current: seq<string>, first: string, second: Json)
    ensures AppendedIds(Some(current + [first]), second) == AppendedIds(Some(current), JStr(first)) + [second]
  {
  }

  /** POST's list, the created policy alone, is what a PATCH with that id
      writes to a wallet that has no policies. */
  lemma ReplaceIsAppendToEmpty(policy: Json, typeError: Thrown)
    requires Get(Some(policy), "id").Some?
    ensures CreatedIds(policy, typeError) == Success(AppendedIds(None, Get(Some(policy), "id").value))
    ensures CreatedIds(policy, typeError) == Success(AppendedIds(Some([]), Get(Some(policy), "id").value))
  {
    var id := Get(Some(policy), "id").value;
    assert policy != JNull;
    assert AppendedIds(None, id) == [id];
    assert AppendedIds(Some([]), id) == [id];
  }
}
