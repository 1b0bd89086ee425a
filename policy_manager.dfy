/** The policy manager panel: look up a wallet's policies, create a policy
    from a type and a JSON configuration, and attach a policy to a wallet.
    Each handler runs up to its request, then settles with the reply it is
    given; a refresh the handler starts runs with its own reply. */
module PolicyManager {

  import opened Wrappers
  import opened Json
  import opened Http

  /** The create form. */
  datatype NewPolicy = NewPolicy(walletId: string, policyName: string, policyType: string, config: Json)

  /** The update form. */
  datatype UpdateData = UpdateData(walletId: string, policyId: string)

  /** A request the panel sends, by path below the backend URL. */
  datatype Request =
    | GetPolicies(walletId: string)
    | PostPolicy(body: Json)
    | PatchPolicy(body: Json)

  /** The configuration sent for a policy type. A deny list sends only the
      `denylistAddress` read from the parsed text (reading it from `null`
      throws, like unparsable text); every other type sends the parsed JSON.
      `parsed` is `JSON.parse(configText)`, `None` when it throws. */
  function ConfigFor(policyType: string, parsed: Option<Json>): (r: Result<Json, string>)
    ensures policyType == "denylist" ==>
              (r.Failure? <==> parsed.None? || parsed == Some(JNull))
    ensures policyType == "denylist" && r.Failure? ==> r.error == "Invalid denylist address format"
    ensures policyType == "denylist" && r.Success? ==>
              r.value.JObj? && |r.value.fields| <= 1
              && FieldValue(r.value.fields, "denylistAddress") == Get(parsed, "denylistAddress")
    ensures policyType != "denylist" ==>
              (r.Failure? <==> parsed.None?) && (r.Success? ==> r.value == parsed.value)
    ensures policyType != "denylist" && r.Failure? ==> r.error == "Invalid JSON in config"
  {
    if policyType == "denylist" then
      if parsed.None? || parsed == Some(JNull) then Failure("Invalid denylist address format")
      else Success(JObj(Defined("denylistAddress", Get(parsed, "denylistAddress"))))
    else if parsed.None? then Failure("Invalid JSON in config")
    else Success(parsed.value)
  }

  function NewPolicyFields(p: NewPolicy): seq<Field> {
    [Field("walletId", JStr(p.walletId)), Field("policyName", JStr(p.policyName)),
     Field("policyType", JStr(p.policyType)), Field("config", p.config)]
  }

  /** `{ ...newPolicy, config: configJson }`: the form with only `config`
      replaced, in the same key order. */
  function PolicyData(p: NewPolicy, config: Json): (r: Json)
    ensures r.JObj? && |r.fields| == 4
    ensures forall i :: 0 <= i < 4 ==> r.fields[i].key == NewPolicyFields(p)[i].key
    ensures FieldValue(r.fields, "config") == Some(config)
    ensures forall k :: k != "config" ==> FieldValue(r.fields, k) == FieldValue(NewPolicyFields(p), k)
  {
    FieldValueFound(NewPolicyFields(p), 3, "config");
    JObj(Set(NewPolicyFields(p), "config", config))
  }

  function UpdateBody(u: UpdateData): Json {
    JObj([Field("walletId", JStr(u.walletId)), Field("policyId", JStr(u.policyId))])
  }

  /** The message for a reply that is not ok: the server's `error`, or the
      handler's generic message when the body cannot be read. */
  function ServerError(prefix: string, generic: string, reply: Reply): string {
    match reply.json
    case Success(errorData) =>
      if errorData == JNull then generic else prefix + Template(Get(Some(errorData), "error"))
    case Failure(_) => generic
  }

  /** How the create request settles: the success message with the new id,
      or the error message. */
  function CreateMessage(reply: Reply): (r: Result<string, string>)
    ensures !reply.ok ==> r == Failure(ServerError("Error creating policy: ", "Error creating policy.", reply))
    ensures r.Success? <==> reply.ok && reply.json.Success? && reply.json.value != JNull
    ensures r.Success? ==>
              r.value == "Policy created successfully with ID: " + Template(Get(Some(reply.json.value), "id"))
    ensures reply.ok && r.Failure? ==> r.error == "Error creating policy."
  {
    if !reply.ok then Failure(ServerError("Error creating policy: ", "Error creating policy.", reply))
    else match reply.json
      case Success(data) =>
        if data == JNull then Failure("Error creating policy.")
        else Success("Policy created successfully with ID: " + Template(Get(Some(data), "id")))
      case Failure(_) => Failure("Error creating policy.")
  }

  /** How the update request settles. */
  function UpdateMessage(reply: Reply): (r: Result<string, string>)
    ensures !reply.ok ==> r == Failure(ServerError("Error updating wallet: ", "Error updating wallet.", reply))
    ensures r.Success? <==> reply.ok && reply.json.Success?
    ensures r.Success? ==> r.value == "Wallet updated successfully with new policy."
    ensures reply.ok && r.Failure? ==> r.error == "Error updating wallet."
  {
    if !reply.ok then Failure(ServerError("Error updating wallet: ", "Error updating wallet.", reply))
    else if reply.json.Failure? then Failure("Error updating wallet.")
    else Success("Wallet updated successfully with new policy.")
  }

  // ---------------------------------------------------------------------------
  // The refresh after a create

  /** Which wallet's policies the refresh after a successful create asks
      for: none when the form had no wallet id; `""` means the refresh only
      shows "Please enter a wallet ID.". */
  datatype Refresh = NoRefresh | RefreshFor(walletId: string)

  /** As written: `setWalletId(newPolicy.walletId); fetchPolicies();` calls
      the `fetchPolicies` of the render the submit came from, which still
      reads the wallet id that was on screen before. */
  function RefreshAsWritten(viewedWalletId: string, formWalletId: string): (r: Refresh)
    ensures r.NoRefresh? <==> formWalletId == ""
    ensures r.RefreshFor? ==> r.walletId == viewedWalletId
  {
    if formWalletId == "" then NoRefresh else RefreshFor(viewedWalletId)
  }

  /** The refresh as written shows the policies of the wallet viewed before,
      or none at all, while the wallet field switches to the form's wallet. */
  lemma RefreshAsWrittenMissesNewWallet()
    ensures RefreshAsWritten("", "w1") == RefreshFor("")
    ensures RefreshAsWritten("w0", "w1") == RefreshFor("w0")
  {
  }

  /** Intended: the refresh lists the policies of the wallet the policy was
      created for. */
  function RefreshCorrected(viewedWalletId: string, formWalletId: string): (r: Refresh)
    ensures r.NoRefresh? <==> formWalletId == ""
    ensures r.RefreshFor? ==> r.walletId == formWalletId && r.walletId != ""
  {
    if formWalletId == "" then NoRefresh else RefreshFor(formWalletId)
  }

  const EnterWalletId: string := "Please enter a wallet ID."
  const FetchedOk: string := "Policies fetched successfully."
  const FetchFailed: string := "Error fetching policies."

  class PolicyPanel {
    var walletId: string
    var policies: Json
    var fetchMessage: string
    var newPolicy: NewPolicy
    var createMessage: string
    var updateData: UpdateData
    var updateMessage: string
    var configText: string

    constructor()
      ensures walletId == "" && policies == JArr([]) && fetchMessage == ""
      ensures newPolicy == NewPolicy("", "", "allowlist", JObj([])) && createMessage == ""
      ensures updateData == UpdateData("", "") && updateMessage == "" && configText == "{}"
    {
      walletId := "";
      policies := JArr([]);
      fetchMessage := "";
      newPolicy := NewPolicy("", "", "allowlist", JObj([]));
      createMessage := "";
      updateData := UpdateData("", "");
      updateMessage := "";
      configText := "{}";
    }

    /** The form fields' `onChange` handlers. */
    method EditForms(walletId: string, newPolicy: NewPolicy, configText: string, updateData: UpdateData)
      modifies this
      ensures this.walletId == walletId && this.newPolicy == newPolicy
      ensures this.configText == configText && this.updateData == updateData
      ensures policies == old(policies) && fetchMessage == old(fetchMessage)
      ensures createMessage == old(createMessage) && updateMessage == old(updateMessage)
    {
      this.walletId := walletId;
      this.newPolicy := newPolicy;
      this.configText := configText;
      this.updateData := updateData;
    }

    /** `fetchPolicies` for a wallet id: an empty id only sets the prompt;
        otherwise the reply's body becomes the list, whatever its status,
        and an unreadable body sets the error message. */
    method FetchPolicies(id: string, reply: Reply) returns (request: Option<Request>)
      modifies this
      ensures id == "" ==> request.None? && fetchMessage == EnterWalletId && policies == old(policies)
      ensures id != "" ==> request == Some(GetPolicies(id))
      ensures id != "" && reply.json.Success? ==>
                policies == reply.json.value && fetchMessage == FetchedOk
      ensures id != "" && reply.json.Failure? ==>
                policies == old(policies) && fetchMessage == FetchFailed
      ensures walletId == old(walletId) && newPolicy == old(newPolicy) && configText == old(configText)
      ensures updateData == old(updateData) && createMessage == old(createMessage) && updateMessage == old(updateMessage)
    {
      if id == "" {
        fetchMessage := EnterWalletId;
        return None;
      }
      request := Some(GetPolicies(id));
      match reply.json {
        case Success(data) =>
          policies := data;
          fetchMessage := FetchedOk;
        case Failure(_) =>
          fetchMessage := FetchFailed;
      }
    }

    /** `createPolicy`: a configuration that does not parse sends nothing;
        otherwise the form goes out with its configuration replaced, and
        after a successful create the panel switches to the form's wallet
        and lists its policies. `parse` is `JSON.parse`. */
    method CreatePolicy(parse: string -> Option<Json>, reply: Reply, refreshReply: Reply) returns (requests: seq<Request>)
      modifies this
      ensures ConfigFor(old(newPolicy).policyType, parse(old(configText))).Failure? ==>
                && requests == []
                && createMessage == ConfigFor(old(newPolicy).policyType, parse(old(configText))).error
                && walletId == old(walletId) && policies == old(policies)
      ensures ConfigFor(old(newPolicy).policyType, parse(old(configText))).Success? ==>
                && 1 <= |requests| <= 2
                && requests[0] == PostPolicy(PolicyData(old(newPolicy), ConfigFor(old(newPolicy).policyType, parse(old(configText))).value))
                && createMessage == (match CreateMessage(reply) case Success(m) => m case Failure(m) => m)
      // the refresh: only after a successful create into a named wallet, and for that wallet
      ensures |requests| == 2 <==>
                && ConfigFor(old(newPolicy).policyType, parse(old(configText))).Success?
                && CreateMessage(reply).Success? && old(newPolicy).walletId != ""
      ensures |requests| == 2 ==> requests[1] == GetPolicies(old(newPolicy).walletId) && walletId == old(newPolicy).walletId
      ensures |requests| == 2 && refreshReply.json.Success? ==>
                policies == refreshReply.json.value && fetchMessage == FetchedOk
      ensures |requests| == 2 && refreshReply.json.Failure? ==>
                policies == old(policies) && fetchMessage == FetchFailed
      ensures |requests| < 2 ==> walletId == old(walletId) && policies == old(policies) && fetchMessage == old(fetchMessage)
      ensures newPolicy == old(newPolicy) && configText == old(configText)
      ensures updateData == old(updateData) && updateMessage == old(updateMessage)
    {
      requests := [];
      var config := ConfigFor(newPolicy.policyType, parse(configText));
      if config.Failure? {
        createMessage := config.error;
        return;
      }
      requests := [PostPolicy(PolicyData(newPolicy, config.value))];
      match CreateMessage(reply) {
        case Failure(message) =>
          createMessage := message;
        case Success(message) =>
          createMessage := message;
          var refresh := RefreshCorrected(walletId, newPolicy.walletId);
          if refresh.RefreshFor? {
            walletId := newPolicy.walletId;
            var sent := FetchPolicies(refresh.walletId, refreshReply);
            requests := requests + [sent.value];
          }
      }
    }

    /** `updatePolicy`: the update form goes out as it is; after a successful
        update the list refreshes only if the updated wallet is the one on
        screen. */
    method UpdatePolicy(reply: Reply, refreshReply: Reply) returns (requests: seq<Request>)
      modifies this
      ensures 1 <= |requests| <= 2 && requests[0] == PatchPolicy(UpdateBody(old(updateData)))
      ensures updateMessage == (match UpdateMessage(reply) case Success(m) => m case Failure(m) => m)
      ensures |requests| == 2 <==>
                UpdateMessage(reply).Success? && old(updateData).walletId == old(walletId) && old(walletId) != ""
      ensures |requests| == 2 ==> requests[1] == GetPolicies(old(walletId))
      ensures |requests| == 2 && refreshReply.json.Success? ==>
                policies == refreshReply.json.value && fetchMessage == FetchedOk
      ensures |requests| == 2 && refreshReply.json.Failure? ==>
                policies == old(policies) && fetchMessage == FetchFailed
      ensures UpdateMessage(reply).Success? && old(updateData).walletId == old(walletId) == "" ==>
                policies == old(policies) && fetchMessage == EnterWalletId
      ensures UpdateMessage(reply).Failure? || old(updateData).walletId != old(walletId) ==>
                policies == old(policies) && fetchMessage == old(fetchMessage)
      ensures walletId == old(walletId) && newPolicy == old(newPolicy) && configText == old(configText)
      ensures updateData == old(updateData) && createMessage == old(createMessage)
    {
      requests := [PatchPolicy(UpdateBody(updateData))];
      match UpdateMessage(reply) {
        case Failure(message) =>
          updateMessage := message;
        case Success(message) =>
          updateMessage := message;
          if updateData.walletId == walletId {
            var sent := FetchPolicies(walletId, refreshReply);
            if sent.Some? {
              requests := requests + [sent.value];
            }
          }
      }
    }
  }
}
