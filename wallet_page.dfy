/** The wallet page: lists the app's wallets, each joined with the balance
    fetched for its address, and creates new wallets. */
module WalletPage {

  import opened Wrappers
  import opened Js
  import opened Json
  import opened Http

  /** `${address.slice(0, 6)}...${address.slice(-4)}`. */
  function FormatAddress(address: string): (r: string)
    ensures |address| >= 10 ==> r == address[..6] + "..." + address[|address| - 4..]
    ensures |address| >= 10 ==> |r| == 13
    ensures 6 <= |address| < 10 ==> r == address[..6] + "..." + address[|address| - 4..]
    ensures 4 <= |address| < 6 ==> r == address + "..." + address[|address| - 4..]
    ensures |address| < 4 ==> r == address + "..." + address
  {
    Slice(address, 0, 6) + "..." + SliceFrom(address, -4)
  }

  /** `${n} wallet${n !== 1 ? 's' : ''} found`: the count, then the noun,
      plural for every count but one. */
  function CountLabel(n: nat): (r: string)
    ensures |r| > |NatToString(n)| && r[..|NatToString(n)|] == NatToString(n)
    ensures r[|NatToString(n)|..] == if n == 1 then " wallet found" else " wallets found"
  {
    var count := NatToString(n);
    var r := count + " wallet" + (if n != 1 then "s" else "") + " found";
    assert r[..|count|] == count;
    r
  }

  /** `${wallet.balance || '0'} ETH`. */
  function BalanceLabel(balance: Option<Json>): (r: string)
    ensures Truthy(balance) ==> r == Text(balance.value) + " ETH"
    ensures !Truthy(balance) ==> r == "0 ETH"
  {
    (if Truthy(balance) then Text(balance.value) else "0") + " ETH"
  }

  /** The policy badges of a wallet: one per id, in order, and none (no badge
      row at all) for a wallet without policies. */
  function PolicyBadges(policyIds: seq<Json>): (r: seq<string>)
    ensures |r| == |policyIds|
    ensures forall i :: 0 <= i < |r| ==> r[i] == Text(policyIds[i])
  {
    if |policyIds| == 0 then [] else seq(|policyIds|, i requires 0 <= i < |policyIds| => Text(policyIds[i]))
  }

  /** `{ ...wallet, balance: balanceData.balance }` for one wallet, where
      `balanceOf(address)` is the balance route's body for that address.
      Reading a property of null throws `typeError`; an undefined balance is
      kept as null, which displays the same. */
  function WithBalance(wallet: Json, balanceOf: string -> Result<Json, Thrown>, typeError: Thrown): (r: Result<Json, Thrown>)
    ensures wallet == JNull ==> r == Failure(typeError)
    ensures r.Success? <==>
              && wallet != JNull
              && balanceOf(Template(Get(Some(wallet), "address"))).Success?
              && balanceOf(Template(Get(Some(wallet), "address"))).value != JNull
    // a rejected balance fetch or an unreadable balance body is what the join throws
    ensures wallet != JNull && balanceOf(Template(Get(Some(wallet), "address"))).Failure? ==>
              r == Failure(balanceOf(Template(Get(Some(wallet), "address"))).error)
    // `balanceData.balance` on a null body throws
    ensures wallet != JNull && balanceOf(Template(Get(Some(wallet), "address"))) == Success(JNull) ==>
              r == Failure(typeError)
    ensures r.Success? ==>
              && wallet != JNull
              && balanceOf(Template(Get(Some(wallet), "address"))).Success?
              && var balanceData := balanceOf(Template(Get(Some(wallet), "address"))).value;
                 && balanceData != JNull
                 && r.value.JObj?
                 && FieldValue(r.value.fields, "balance") == Some(Get(Some(balanceData), "balance").GetOr(JNull))
                 && forall k :: k != "balance" ==> FieldValue(r.value.fields, k) == FieldValue(Spread(wallet), k)
  {
    if wallet == JNull then Failure(typeError)
    else match balanceOf(Template(Get(Some(wallet), "address")))
      case Failure(e) => Failure(e)
      case Success(balanceData) =>
        if balanceData == JNull then Failure(typeError)
        else Success(JObj(Set(Spread(wallet), "balance", Get(Some(balanceData), "balance").GetOr(JNull))))
  }

  /** `Promise.all(data.map(...))`, taken in order: one balance per wallet,
      the wallets in their order, and a failure if any join fails. */
  function JoinBalances(wallets: seq<Json>, balanceOf: string -> Result<Json, Thrown>, typeError: Thrown)
    : (r: Result<seq<Json>, Thrown>)
    ensures r.Success? <==> forall i :: 0 <= i < |wallets| ==> WithBalance(wallets[i], balanceOf, typeError).Success?
    ensures r.Success? ==>
              && |r.value| == |wallets|
              && forall i :: 0 <= i < |wallets| ==> Success(r.value[i]) == WithBalance(wallets[i], balanceOf, typeError)
  {
    if |wallets| == 0 then Success([])
    else
      var first := WithBalance(wallets[0], balanceOf, typeError);
      if first.Failure? then Failure(first.error)
      else
        var rest := JoinBalances(wallets[1..], balanceOf, typeError);
        assert forall i :: 1 <= i < |wallets| ==> wallets[i] == wallets[1..][i - 1];
        if rest.Failure? then Failure(rest.error)
        else Success([first.value] + rest.value)
  }

  /** Wallet `i` is the first whose balance join fails. */
  predicate FailsFirstAt(wallets: seq<Json>, balanceOf: string -> Result<Json, Thrown>, typeError: Thrown, i: int) {
    && 0 <= i < |wallets|
    && WithBalance(wallets[i], balanceOf, typeError).Failure?
    && forall j :: 0 <= j < i ==> WithBalance(wallets[j], balanceOf, typeError).Success?
  }

  /** Past a wallet that joined, the join of the rest decides. */
  lemma JoinPastJoined(wallets: seq<Json>, balanceOf: string -> Result<Json, Thrown>, typeError: Thrown)
    requires |wallets| > 0 && WithBalance(wallets[0], balanceOf, typeError).Success?
    requires JoinBalances(wallets, balanceOf, typeError).Failure?
    ensures JoinBalances(wallets[1..], balanceOf, typeError).Failure?
    ensures JoinBalances(wallets, balanceOf, typeError).error == JoinBalances(wallets[1..], balanceOf, typeError).error
  {
  }

  /** The first failure of the rest, shifted past a wallet that joined. */
  lemma FailsFirstAtShift(wallets: seq<Json>, balanceOf: string -> Result<Json, Thrown>, typeError: Thrown, k: int)
    requires |wallets| > 0 && WithBalance(wallets[0], balanceOf, typeError).Success?
    requires FailsFirstAt(wallets[1..], balanceOf, typeError, k)
    ensures FailsFirstAt(wallets, balanceOf, typeError, k + 1)
    ensures wallets[k + 1] == wallets[1..][k]
  {
    forall j | 0 <= j < k + 1
      ensures WithBalance(wallets[j], balanceOf, typeError).Success?
    {
      if j > 0 {
        assert wallets[j] == wallets[1..][j - 1];
      }
    }
  }

  /** A failed join reports the first wallet whose balance join failed, with
      that join's error: the wallets before it all joined. */
  lemma {:induction false} JoinReportsFirstFailure(wallets: seq<Json>, balanceOf: string -> Result<Json, Thrown>,
                                                   typeError: Thrown)
    requires JoinBalances(wallets, balanceOf, typeError).Failure?
    ensures exists i :: FailsFirstAt(wallets, balanceOf, typeError, i)
              && JoinBalances(wallets, balanceOf, typeError).error == WithBalance(wallets[i], balanceOf, typeError).error
  {
    if WithBalance(wallets[0], balanceOf, typeError).Failure? {
      assert FailsFirstAt(wallets, balanceOf, typeError, 0);
    } else {
      JoinPastJoined(wallets, balanceOf, typeError);
      JoinReportsFirstFailure(wallets[1..], balanceOf, typeError);
      var k :| FailsFirstAt(wallets[1..], balanceOf, typeError, k)
               && JoinBalances(wallets[1..], balanceOf, typeError).error
                  == WithBalance(wallets[1..][k], balanceOf, typeError).error;
      FailsFirstAtShift(wallets, balanceOf, typeError, k);
    }
  }

  /** What a listing yields: the listed wallets with their balances, or what
      was thrown (an unreadable body, or a body that is not an array). */
  function Listed(listReply: Reply, balanceOf: string -> Result<Json, Thrown>, typeError: Thrown)
    : (r: Result<seq<Json>, Thrown>)
    ensures listReply.json.Failure? ==> r == Failure(listReply.json.error)
    ensures listReply.json.Success? && listReply.json.value.JArr? ==>
              r == JoinBalances(listReply.json.value.items, balanceOf, typeError)
    // `.map` on a body that is not an array throws
    ensures listReply.json.Success? && !listReply.json.value.JArr? ==> r == Failure(typeError)
  {
    match listReply.json
    case Failure(e) => Failure(e)
    case Success(JArr(items)) => JoinBalances(items, balanceOf, typeError)
    case Success(_) => Failure(typeError)
  }

  /** `{ policyIds: selectedPolicies }`. */
  function CreateBody(selected: seq<string>): (r: Json)
    ensures Get(Some(r), "policyIds").Some? && Get(Some(r), "policyIds").value.JArr?
    ensures |Get(Some(r), "policyIds").value.items| == |selected|
    ensures forall i :: 0 <= i < |selected| ==> Get(Some(r), "policyIds").value.items[i] == JStr(selected[i])
  {
    JObj([Field("policyIds", JArr(seq(|selected|, i requires 0 <= i < |selected| => JStr(selected[i]))))])
  }

  /** The requests the page sends. */
  datatype Request = ListWallets | PostWallet(body: Json)

  class WalletList {
    var wallets: seq<Json>
    var loading: bool
    var selectedPolicies: seq<string>

    constructor()
      ensures wallets == [] && loading && selectedPolicies == []
    {
      wallets := [];
      loading := true;
      selectedPolicies := [];
    }

    /** `fetchWallets`: the list is replaced only when every step succeeds,
        and loading ends either way. */
    method FetchWallets(listReply: Reply, balanceOf: string -> Result<Json, Thrown>, typeError: Thrown)
      returns (request: Request)
      modifies this
      ensures request == ListWallets
      ensures !loading
      ensures Listed(listReply, balanceOf, typeError).Success? ==> wallets == Listed(listReply, balanceOf, typeError).value
      ensures Listed(listReply, balanceOf, typeError).Failure? ==> wallets == old(wallets)
      ensures selectedPolicies == old(selectedPolicies)
    {
      request := ListWallets;
      var listed := Listed(listReply, balanceOf, typeError);
      if listed.Success? {
        wallets := listed.value;
      }
      loading := false;
    }

    /** `createWallet`: create with the selected policies, and list again only
        when the create reply is ok; loading ends either way. */
    method CreateWallet(createReply: Reply, listReply: Reply, balanceOf: string -> Result<Json, Thrown>, typeError: Thrown)
      returns (requests: seq<Request>)
      modifies this
      ensures |requests| >= 1
      ensures requests[0] == PostWallet(CreateBody(old(selectedPolicies)))
      ensures requests[1..] == if createReply.ok then [ListWallets] else []
      ensures !loading
      ensures createReply.ok && Listed(listReply, balanceOf, typeError).Success? ==>
                wallets == Listed(listReply, balanceOf, typeError).value
      ensures !createReply.ok || Listed(listReply, balanceOf, typeError).Failure? ==> wallets == old(wallets)
      ensures selectedPolicies == old(selectedPolicies)
    {
      loading := true;
      requests := [PostWallet(CreateBody(selectedPolicies))];
      if createReply.ok {
        var listing := FetchWallets(listReply, balanceOf, typeError);
        requests := requests + [listing];
      }
      loading := false;
    }
  }
}
