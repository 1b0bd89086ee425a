/** What the collection and NFT routes share once a create request has passed
    validation: load the signing keypair from the environment, top up its SOL
    balance, submit the `createNft` transaction and wait for the new asset to
    become visible. The chain SDK is an environment of oracles. */
module Mint {

  import opened Wrappers
  import opened Json
  import opened Http
  import opened Poller

  /** A signing keypair; only its public key is observable here. */
  datatype Keypair = Keypair(publicKey: string)

  const LamportsPerSol: nat := 1_000_000_000
  /** `airdropIfRequired(connection, user.publicKey, 1 * LAMPORTS_PER_SOL, 0.5 * LAMPORTS_PER_SOL)`. */
  const AirdropAmount: nat := LamportsPerSol
  const MinimumBalance: nat := LamportsPerSol / 2
  const KeyNotSet: string := "PRIVATE_KEY environment variable is not set"
  const InvalidKey: string := "Invalid private key format"
  const AirdropFailed: string := "Failed to ensure sufficient SOL balance"
  const MissingMintAddress: string := "Missing mintAddress parameter"
  const InvalidMintAddress: string := "Invalid mint address format"

  /** The `createNft` arguments both routes build. */
  datatype CollectionRef = CollectionRef(key: string, verified: bool)
  datatype MintParams = MintParams(
    mint: string,
    name: string,
    symbol: Option<string>,
    uri: string,
    sellerFeeBasisPoints: nat,
    isCollection: bool,
    collection: Option<CollectionRef>)

  /** The chain and the process environment, as seen by one request. */
  datatype MintEnv = MintEnv(
    privateKey: Option<string>,           // process.env.PRIVATE_KEY
    decodeKeypair: string -> Option<Keypair>, // bs58.decode + Keypair.fromSecretKey; None when either throws
    airdropSucceeds: bool,                 // airdropIfRequired resolves
    generatedMint: string,                 // generateSigner(umi).publicKey
    submitError: Option<Thrown>,           // what createNft or sendAndConfirm throws, if anything
    lookup: nat -> Lookup)                 // the poller's fetchDigitalAsset outcomes

  /** The external calls a request made, in order. */
  datatype Step =
    | Airdrop(publicKey: string, lamports: nat, minimumBalance: nat)
    | CreateNft(params: MintParams)
    | Confirm(mint: string, waits: seq<int>)

  /** `getKeypairFromEnv()`: an unset or empty key and an undecodable key are
      two different errors. */
  function KeypairFromEnv(privateKey: Option<string>, decode: string -> Option<Keypair>): (r: Result<Keypair, Thrown>)
    ensures (privateKey.None? || privateKey == Some("")) ==>
              r == Failure(Error(KeyNotSet))
    ensures privateKey.Some? && privateKey.value != "" && decode(privateKey.value).None? ==>
              r == Failure(Error(InvalidKey))
    ensures r.Success? <==> privateKey.Some? && privateKey.value != "" && decode(privateKey.value).Some?
    ensures r.Success? ==> Some(r.value) == decode(privateKey.value)
  {
    if privateKey.None? || privateKey.value == "" then
      Failure(Error(KeyNotSet))
    else match decode(privateKey.value)
      case None => Failure(Error(InvalidKey))
      case Some(k) => Success(k)
  }

  /** The three outcomes of `getKeypairFromEnv` leave nothing open: any
      result that gives the unset-key error for an unset or empty key, the
      format error for a key that does not decode, and the decoded keypair
      otherwise, is the one `KeypairFromEnv` gives. */
  lemma KeypairFromEnvIsDetermined(privateKey: Option<string>, decode: string -> Option<Keypair>,
                                   r: Result<Keypair, Thrown>)
    requires privateKey.None? || privateKey == Some("") ==> r == Failure(Error(KeyNotSet))
    requires privateKey.Some? && privateKey.value != "" && decode(privateKey.value).None? ==>
               r == Failure(Error(InvalidKey))
    requires privateKey.Some? && privateKey.value != "" && decode(privateKey.value).Some? ==>
               r == Success(decode(privateKey.value).value)
    ensures r == KeypairFromEnv(privateKey, decode)
  {
  }

  /** Loading the keypair and topping up its balance, the steps that follow
      validation in both routes. A failed airdrop surfaces as one fixed
      message, whatever the helper threw. */
  method Prepare(env: MintEnv) returns (r: Result<Keypair, Thrown>, steps: seq<Step>)
    ensures KeypairFromEnv(env.privateKey, env.decodeKeypair).Failure? ==>
              r == KeypairFromEnv(env.privateKey, env.decodeKeypair) && steps == []
    ensures KeypairFromEnv(env.privateKey, env.decodeKeypair).Success? ==>
              && steps == [Airdrop(KeypairFromEnv(env.privateKey, env.decodeKeypair).value.publicKey, AirdropAmount, MinimumBalance)]
              && (r.Success? <==> env.airdropSucceeds)
              && (r.Success? ==> r == KeypairFromEnv(env.privateKey, env.decodeKeypair))
              && (r.Failure? ==> r.error == Error(AirdropFailed))
  {
    steps := [];
    r := KeypairFromEnv(env.privateKey, env.decodeKeypair);
    if r.Failure? {
      return;
    }
    steps := steps + [Airdrop(r.value.publicKey, AirdropAmount, MinimumBalance)];
    if !env.airdropSucceeds {
      r := Failure(Error(AirdropFailed));
    }
  }

  /** A transaction that landed: the calls were the creation with `params`
      and ten-or-fewer lookups of the new mint on the doubling schedule from
      2000 ms, of which only the last confirmed, and it saw `nft`. */
  predicate Landed(env: MintEnv, params: MintParams, steps: seq<Step>, nft: Json) {
    && |steps| == 2 && steps[0] == CreateNft(params)
    && steps[1].Confirm? && steps[1].mint == params.mint
    && |steps[1].waits| <= 10 && steps[1].waits == Waits(2000, |steps[1].waits|)
    && FirstConfirmed(env.lookup, |steps[1].waits|)
    && env.lookup(|steps[1].waits| - 1) == Resolved(nft)
  }

  /** `createNft(umi, params)`, `sendAndConfirm`, then
      `waitForConfirmation(umi, mint.publicKey, 10, 2000)`. */
  method Submit(env: MintEnv, params: MintParams) returns (r: Result<Json, Thrown>, steps: seq<Step>)
    ensures |steps| >= 1 && steps[0] == CreateNft(params)
    ensures env.submitError.Some? ==> r == Failure(env.submitError.value) && steps == [CreateNft(params)]
    ensures env.submitError.None? ==>
              && |steps| == 2 && steps[1].Confirm? && steps[1].mint == params.mint
              && 1 <= |steps[1].waits| <= 10 && steps[1].waits == Waits(2000, |steps[1].waits|)
              && (r.Success? <==> exists k :: 0 <= k < 10 && Confirmed(env.lookup(k)))
              && (r.Success? ==> Landed(env, params, steps, r.value))
              && (r.Failure? ==> r.error == Error(TimeoutMessage(env.lookup, 10)))
  {
    steps := [CreateNft(params)];
    if env.submitError.Some? {
      r := Failure(env.submitError.value);
      return;
    }
    var confirmed, waits := WaitForConfirmation(env.lookup, 10, 2000);
    steps := steps + [Confirm(params.mint, waits)];
    match confirmed {
      case Success(nft) => r := Success(nft);
      case Failure(message) => r := Failure(Error(message));
    }
  }

  /** Everything after validation goes through: the keypair loads, the
      airdrop succeeds, the transaction is sent and one of the ten lookups
      sees the asset with its metadata. */
  predicate Minted(env: MintEnv) {
    && KeypairFromEnv(env.privateKey, env.decodeKeypair).Success?
    && env.airdropSucceeds && env.submitError.None?
    && exists k :: 0 <= k < 10 && Confirmed(env.lookup(k))
  }

  /** A successful creation: the airdrop, then a transaction that `Landed`,
      and the body is the snapshot the confirming lookup saw, under `key`,
      with the mint address. */
  predicate Delivered(env: MintEnv, params: MintParams, key: string, body: Json, steps: seq<Step>) {
    && |steps| == 3 && steps[0].Airdrop? && steps[2].Confirm?
    && |steps[2].waits| >= 1 && env.lookup(|steps[2].waits| - 1).Resolved?
    && Landed(env, params, steps[1..], env.lookup(|steps[2].waits| - 1).nft)
    && body == AssetBody(key, env.lookup(|steps[2].waits| - 1).nft, Some(params.mint))
  }

  /** A failed creation: the 500 answer for each stage that can fail — the
      keypair's error, the fixed airdrop message, the send's error, and the
      poller's timeout message when no lookup confirmed — where a thrown value
      that is not an `Error` is reported as `fallback`. */
  predicate Refused(env: MintEnv, fallback: string, r: Response) {
    && (KeypairFromEnv(env.privateKey, env.decodeKeypair).Failure? ==>
          r == ErrorResponse(500, CaughtMessage(KeypairFromEnv(env.privateKey, env.decodeKeypair).error, fallback)))
    && (KeypairFromEnv(env.privateKey, env.decodeKeypair).Success? && !env.airdropSucceeds ==>
          r == ErrorResponse(500, AirdropFailed))
    && (KeypairFromEnv(env.privateKey, env.decodeKeypair).Success? && env.airdropSucceeds
        && env.submitError.Some? ==>
          r == ErrorResponse(500, CaughtMessage(env.submitError.value, fallback)))
    && (KeypairFromEnv(env.privateKey, env.decodeKeypair).Success? && env.airdropSucceeds
        && env.submitError.None? && !Minted(env) ==>
          r == ErrorResponse(500, TimeoutMessage(env.lookup, 10)))
  }

  /** The `try` block both POST handlers run after validation, with its
      `catch`: load the keypair and top it up, create the asset under
      `params.mint` and wait for it, then answer 200 with the serialised
      snapshot under `key` and the mint address, or 500 with the caught
      error's message (`fallback` for anything that is not an `Error`). */
  method Create(env: MintEnv, params: MintParams, key: string, fallback: string)
    returns (r: Response, steps: seq<Step>)
    ensures r.status == 200 <==> Minted(env)
    ensures r.status != 200 ==> r.status == 500
    ensures Refused(env, fallback, r)
    ensures KeypairFromEnv(env.privateKey, env.decodeKeypair).Failure? ==> steps == []
    ensures KeypairFromEnv(env.privateKey, env.decodeKeypair).Success? && !env.airdropSucceeds ==>
              |steps| == 1 && steps[0].Airdrop?
    ensures KeypairFromEnv(env.privateKey, env.decodeKeypair).Success? && env.airdropSucceeds ==>
              |steps| >= 2 && steps[0].Airdrop? && steps[1] == CreateNft(params)
    ensures KeypairFromEnv(env.privateKey, env.decodeKeypair).Success? && env.airdropSucceeds
            && env.submitError.Some? ==>
              |steps| == 2
    ensures r.status == 200 ==> Delivered(env, params, key, r.body, steps)
  {
    var user, prepared := Prepare(env);
    steps := prepared;
    if user.Failure? {
      return ErrorResponse(500, CaughtMessage(user.error, fallback)), steps;
    }
    var created, submitted := Submit(env, params);
    steps := steps + submitted;
    assert |prepared| == 1 && steps[1..] == submitted;
    match created {
      case Success(nft) =>
        r := Response(200, AssetBody(key, nft, Some(params.mint)));
      case Failure(t) =>
        r := ErrorResponse(500, CaughtMessage(t, fallback));
    }
  }

  /** The GET handler both routes define: the missing-parameter check comes
      before the address format check, only a well-formed address is looked
      up, and the snapshot is answered under `key` (`collection` or `nft`),
      with `fallback` as the message of a non-`Error` throw. */
  function FetchAsset(key: string, fallback: string, mintAddress: Option<string>,
                      isPublicKey: string -> bool, fetch: string -> Result<Json, Thrown>)
    : (r: Response)
    ensures !Present(mintAddress) ==> r == ErrorResponse(400, MissingMintAddress)
    ensures Present(mintAddress) && !isPublicKey(mintAddress.value) ==>
              r == ErrorResponse(400, InvalidMintAddress)
    ensures Present(mintAddress) && isPublicKey(mintAddress.value) ==>
              match fetch(mintAddress.value)
              case Success(asset) => r == Response(200, AssetBody(key, asset, None))
              case Failure(t) => r == ErrorResponse(500, CaughtMessage(t, fallback))
  {
    if !Present(mintAddress) then
      ErrorResponse(400, MissingMintAddress)
    else if !isPublicKey(mintAddress.value) then
      ErrorResponse(400, InvalidMintAddress)
    else
      match fetch(mintAddress.value)
      case Success(asset) => Response(200, AssetBody(key, asset, None))
      case Failure(t) => ErrorResponse(500, CaughtMessage(t, fallback))
  }

  /** The body of a successful GET or POST, `{ success: true, [key]: asset,
      mintAddress }`, after the bigint serialiser. */
  function AssetBody(key: string, asset: Json, mintAddress: Option<string>): (r: Json)
    ensures !HasBigInt(r)
    ensures r.JObj? && FieldValue(r.fields, "success") == Some(JBool(true))
    ensures key != "success" ==> FieldValue(r.fields, key) == Some(StringifyBigInts(asset))
    ensures key != "mintAddress" && mintAddress.Some? ==>
              FieldValue(r.fields, "mintAddress") == Some(JStr(mintAddress.value))
    ensures key != "mintAddress" && mintAddress.None? ==> FieldValue(r.fields, "mintAddress").None?
  {
    var tail := Defined("mintAddress", if mintAddress.Some? then Some(JStr(mintAddress.value)) else None);
    var r := StringifyBigInts(JObj([Field("success", JBool(true)), Field(key, asset)] + tail));
    var head := [Field("success", JBool(true)), Field(key, StringifyBigInts(asset))];
    assert r.fields == head + tail by {
      assert |r.fields| == |head + tail|;
      forall i | 0 <= i < |r.fields| ensures r.fields[i] == (head + tail)[i] {
        if i >= 2 {
          assert !HasBigInt(tail[i - 2].value);
        }
      }
    }
    FieldValueAppend(head, tail, "mintAddress");
    r
  }
}
