/** The wallet route: GET lists every Ethereum wallet of the app by following
    the provider's pagination cursor; POST creates an Ethereum wallet. */
module WalletRoute {

  import opened Wrappers
  import opened Json
  import opened Http

  /** One page of `walletApi.getWallets`. */
  datatype Page = Page(data: seq<Json>, nextCursor: Option<string>)

  /** The loop stops after this reply: it failed, or it gave no cursor. */
  predicate Stops(reply: Result<Page, Thrown>) {
    reply.Failure? || !Present(reply.value.nextCursor)
  }

  /** The wallets of the successful pages among `replies`, in page order. */
  function Collected(replies: seq<Result<Page, Thrown>>): seq<Json> {
    if |replies| == 0 then []
    else
      Collected(replies[..|replies| - 1])
      + (if replies[|replies| - 1].Success? then replies[|replies| - 1].value.data else [])
  }

  /** Collecting two runs of pages one after the other gives the wallets of
      the first run, then those of the second. */
  lemma {:induction false} CollectedConcat(a: seq<Result<Page, Thrown>>, b: seq<Result<Page, Thrown>>)
    ensures Collected(a + b) == Collected(a) + Collected(b)
  {
    if |b| == 0 {
      assert a + b == a;
    } else {
      assert (a + b)[..|a + b| - 1] == a + b[..|b| - 1];
      assert (a + b)[|a + b| - 1] == b[|b| - 1];
      CollectedConcat(a, b[..|b| - 1]);
    }
  }

  /** GET. `replies[k]` is what the `k`-th page request gets; `cursors`
      lists the cursor each request sent. At least one page is requested;
      the first without a cursor, each later one with the cursor the page
      before returned, and the loop stops at the first reply without a
      cursor. The response is every wallet of every page, in order, or one
      fixed 500 if any request failed. */
  method HandleGet(replies: seq<Result<Page, Thrown>>) returns (r: Response, cursors: seq<Option<string>>)
    requires exists k :: 0 <= k < |replies| && Stops(replies[k])
    ensures 1 <= |cursors| <= |replies|
    ensures cursors[0] == None
    ensures forall k :: 0 < k < |cursors| ==> replies[k - 1].Success? && cursors[k] == replies[k - 1].value.nextCursor
    ensures forall k :: 0 <= k < |cursors| - 1 ==> !Stops(replies[k])
    ensures Stops(replies[|cursors| - 1])
    ensures r.status == 200 <==> replies[|cursors| - 1].Success?
    ensures r.status == 200 ==> r.body == JArr(Collected(replies[..|cursors|]))
    ensures r.status != 200 ==> r == ErrorResponse(500, "Failed to fetch wallets")
  {
    var wallets: seq<Json> := [];
    var nextCursor: Option<string> := None;
    cursors := [];
    var k := 0;
    while true
      invariant k < |replies|
      invariant |cursors| == k
      invariant forall i :: 0 <= i < k ==> !Stops(replies[i])
      invariant k == 0 ==> nextCursor == None
      invariant k > 0 ==> nextCursor == replies[k - 1].value.nextCursor
      invariant forall i :: 0 < i < k ==> cursors[i] == replies[i - 1].value.nextCursor
      invariant k > 0 ==> cursors[0] == None
      invariant wallets == Collected(replies[..k])
      decreases |replies| - k
    {
      cursors := cursors + [nextCursor];
      var reply := replies[k];
      if reply.Failure? {
        return ErrorResponse(500, "Failed to fetch wallets"), cursors;
      }
      assert replies[..k + 1][..k] == replies[..k];
      wallets := wallets + reply.value.data;
      nextCursor := reply.value.nextCursor;
      if !Present(nextCursor) {
        return Response(200, JArr(wallets)), cursors;
      }
      k := k + 1;
    }
  }

  /** The request a new wallet is created with. */
  datatype WalletRequest = WalletRequest(chainType: string, policyIds: Json)

  /** `{ chainType: 'ethereum', policyIds: policyIds || [] }`. */
  function CreateRequest(policyIds: Option<Json>): (q: WalletRequest)
    ensures q.chainType == "ethereum"
    ensures Truthy(policyIds) ==> q.policyIds == policyIds.value
    ensures !Truthy(policyIds) ==> q.policyIds == JArr([])
  {
    WalletRequest("ethereum", if Truthy(policyIds) then policyIds.value else JArr([]))
  }

  /** POST: the created wallet, or one fixed 500. */
  function HandlePost(policyIds: Option<Json>, create: WalletRequest -> Result<Json, Thrown>): (r: Response)
    ensures r.status == 200 <==> create(CreateRequest(policyIds)).Success?
    ensures r.status == 200 ==> r.body == create(CreateRequest(policyIds)).value
    ensures r.status != 200 ==> r == ErrorResponse(500, "Wallet creation failed")
  {
    match create(CreateRequest(policyIds))
    case Success(wallet) => Response(200, wallet)
    case Failure(_) => ErrorResponse(500, "Wallet creation failed")
  }
}
