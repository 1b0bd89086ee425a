/** The collection route: GET fetches a collection NFT by mint address; POST
    validates a name, symbol and URI, then creates a collection NFT and waits
    for it to become visible. */
module CollectionRoute {

  import opened Wrappers
  import opened Json
  import opened Http
  import opened Poller
  import opened Mint

  const MaxNameLength: nat := 32
  const MaxSymbolLength: nat := 10
  const MissingParameters: string := "Missing required parameters: name, symbol, and uri are required"
  const InvalidUri: string := "Invalid URI format"
  const TooLong: string := "Name must be <= 32 chars and symbol <= 10 chars"
  /** GET is `Mint.FetchAsset("collection", FetchFailed, ...)`. */
  const FetchFailed: string := "Failed to fetch collection"
  const CreateFailed: string := "Failed to create collection"

  /** The POST checks, in the order the handler runs them; the first failing
      check decides the 400 response, and `None` means all passed. */
  function ValidateCreate(name: Option<string>, symbol: Option<string>, uri: Option<string>, isUrl: string -> bool)
    : (r: Option<Response>)
    ensures r.Some? ==> r.value.status == 400
    ensures !Present(name) || !Present(symbol) || !Present(uri) ==>
              r == Some(ErrorResponse(400, MissingParameters))
    ensures Present(name) && Present(symbol) && Present(uri) && !isUrl(uri.value) ==>
              r == Some(ErrorResponse(400, InvalidUri))
    ensures Present(name) && Present(symbol) && Present(uri) && isUrl(uri.value) ==>
              (r.Some? <==> |name.value| > MaxNameLength || |symbol.value| > MaxSymbolLength)
    ensures r.None? <==>
              && Present(name) && Present(symbol) && Present(uri) && isUrl(uri.value)
              && |name.value| <= MaxNameLength && |symbol.value| <= MaxSymbolLength
  {
    if !Present(name) || !Present(symbol) || !Present(uri) then
      Some(ErrorResponse(400, MissingParameters))
    else if !isUrl(uri.value) then
      Some(ErrorResponse(400, InvalidUri))
    else if |name.value| > MaxNameLength || |symbol.value| > MaxSymbolLength then
      Some(ErrorResponse(400, TooLong))
    else
      None
  }

  /** A 32-character name and a 10-character symbol are accepted; one more
      character in either is refused. */
  lemma LengthLimitsAreInclusive(isUrl: string -> bool, name: string, symbol: string, uri: string)
    requires |name| == MaxNameLength && |symbol| == MaxSymbolLength && uri != "" && isUrl(uri)
    ensures ValidateCreate(Some(name), Some(symbol), Some(uri), isUrl).None?
    ensures ValidateCreate(Some(name + "x"), Some(symbol), Some(uri), isUrl)
            == Some(ErrorResponse(400, TooLong))
    ensures ValidateCreate(Some(name), Some(symbol + "x"), Some(uri), isUrl)
            == Some(ErrorResponse(400, TooLong))
  {
  }


  /** The `createNft` arguments for a collection. */
  function CollectionParams(mint: string, name: string, symbol: string, uri: string): MintParams {
    MintParams(mint, name, Some(symbol), uri, 0, true, None)
  }

  /** POST. Validation makes no external call; a valid request then loads the
      keypair, tops up the balance, creates the collection and waits for it;
      the response carries the confirmed snapshot and the new mint address. */
  method HandlePost(name: Option<string>, symbol: Option<string>, uri: Option<string>,
                    isUrl: string -> bool, env: MintEnv)
    returns (r: Response, steps: seq<Step>)
    ensures ValidateCreate(name, symbol, uri, isUrl).Some? ==>
              r == ValidateCreate(name, symbol, uri, isUrl).value && steps == []
    ensures r.status == 200 <==> ValidateCreate(name, symbol, uri, isUrl).None? && Minted(env)
    ensures r.status == 200 ==>
              && Present(name) && Present(symbol) && Present(uri)
              && Delivered(env, CollectionParams(env.generatedMint, name.value, symbol.value, uri.value),
                           "collection", r.body, steps)
    ensures r.status != 200 && ValidateCreate(name, symbol, uri, isUrl).None? ==> r.status == 500
    // after validation, every failing stage answers its own 500
    ensures ValidateCreate(name, symbol, uri, isUrl).None? ==> Refused(env, CreateFailed, r)
  {
    var invalid := ValidateCreate(name, symbol, uri, isUrl);
    if invalid.Some? {
      return invalid.value, [];
    }
    var params := CollectionParams(env.generatedMint, name.value, symbol.value, uri.value);
    r, steps := Create(env, params, "collection", CreateFailed);
  }
}
