/** The NFT route: GET fetches an NFT by mint address; POST validates a name,
    a URI and an optional collection address, then creates the NFT (attached
    to the collection when one is given) and waits for it to become visible. */
module NftRoute {

  import opened Wrappers
  import opened Json
  import opened Http
  import opened Poller
  import opened Mint
  import TweetRoute

  const MissingParameters: string := "Missing required parameters: name and uri are required"
  const InvalidUri: string := "Invalid URI format"
  const InvalidCollection: string := "Invalid collection address format"
  /** GET is `Mint.FetchAsset("nft", FetchFailed, ...)`. */
  const FetchFailed: string := "Failed to fetch NFT"
  const CreateFailed: string := "Failed to create NFT"
  /** The POST checks in handler order: required fields, then the URI, then
      the collection address, which is checked only when it is given. */
  function ValidateCreate(name: Option<string>, uri: Option<string>, collectionAddress: Option<string>,
                          isUrl: string -> bool, isPublicKey: string -> bool)
    : (r: Option<Response>)
    ensures r.Some? ==> r.value.status == 400
    ensures !Present(name) || !Present(uri) ==>
              r == Some(ErrorResponse(400, MissingParameters))
    ensures Present(name) && Present(uri) && !isUrl(uri.value) ==>
              r == Some(ErrorResponse(400, InvalidUri))
    ensures Present(name) && Present(uri) && isUrl(uri.value) && Present(collectionAddress)
            && !isPublicKey(collectionAddress.value) ==>
              r == Some(ErrorResponse(400, InvalidCollection))
    ensures r.None? <==>
              && Present(name) && Present(uri) && isUrl(uri.value)
              && (Present(collectionAddress) ==> isPublicKey(collectionAddress.value))
  {
    if !Present(name) || !Present(uri) then
      Some(ErrorResponse(400, MissingParameters))
    else if !isUrl(uri.value) then
      Some(ErrorResponse(400, InvalidUri))
    else if Present(collectionAddress) && !isPublicKey(collectionAddress.value) then
      Some(ErrorResponse(400, InvalidCollection))
    else
      None
  }

  /** An absent or empty collection address is never checked, whatever the
      address parser would say. */
  lemma AbsentCollectionNotChecked(name: string, uri: string, isUrl: string -> bool,
                                   isPublicKey: string -> bool)
    requires name != "" && uri != "" && isUrl(uri)
    ensures ValidateCreate(Some(name), Some(uri), None, isUrl, isPublicKey).None?
    ensures ValidateCreate(Some(name), Some(uri), Some(""), isUrl, isPublicKey).None?
  {
  }

  /** `nftParams`: built with no collection, then given
      `{ key: collectionAddress, verified: false }` exactly when a collection
      address was sent. */
  method BuildNftParams(mint: string, name: string, uri: string, collectionAddress: Option<string>)
    returns (p: MintParams)
    ensures p.mint == mint && p.name == name && p.uri == uri
    ensures p.sellerFeeBasisPoints == 0 && p.symbol.None? && !p.isCollection
    ensures p.collection.Some? <==> Present(collectionAddress)
    ensures p.collection.Some? ==> p.collection.value == CollectionRef(collectionAddress.value, false)
  {
    p := MintParams(mint, name, None, uri, 0, false, None);
    if Present(collectionAddress) {
      p := p.(collection := Some(CollectionRef(collectionAddress.value, false)));
    }
  }


  /** POST. A rejected request makes no external call; an accepted one
      creates the NFT with the parameters above, and its response holds the
      confirmed snapshot and the generated mint address. Everything thrown
      after validation becomes a 500 carrying the error's message, or
      "Failed to create NFT". */
  method HandlePost(name: Option<string>, uri: Option<string>, collectionAddress: Option<string>,
                    isUrl: string -> bool, isPublicKey: string -> bool, env: MintEnv)
    returns (r: Response, steps: seq<Step>)
    ensures ValidateCreate(name, uri, collectionAddress, isUrl, isPublicKey).Some? ==>
              r == ValidateCreate(name, uri, collectionAddress, isUrl, isPublicKey).value && steps == []
    ensures ValidateCreate(name, uri, collectionAddress, isUrl, isPublicKey).None? ==> r.status == 200 || r.status == 500
    ensures r.status == 200 <==> ValidateCreate(name, uri, collectionAddress, isUrl, isPublicKey).None? && Minted(env)
    ensures r.status == 200 ==>
              && Present(name) && Present(uri)
              && Delivered(env, MintParams(env.generatedMint, name.value, None, uri.value, 0, false,
                                           if Present(collectionAddress)
                                           then Some(CollectionRef(collectionAddress.value, false)) else None),
                           "nft", r.body, steps)
    // after validation, every failing stage answers its own 500
    ensures ValidateCreate(name, uri, collectionAddress, isUrl, isPublicKey).None? ==> Refused(env, CreateFailed, r)
  {
    var invalid := ValidateCreate(name, uri, collectionAddress, isUrl, isPublicKey);
    if invalid.Some? {
      return invalid.value, [];
    }
    var params := BuildNftParams(env.generatedMint, name.value, uri.value, collectionAddress);
    assert params == MintParams(env.generatedMint, name.value, None, uri.value, 0, false,
                                if Present(collectionAddress)
                                then Some(CollectionRef(collectionAddress.value, false)) else None);
    r, steps := Create(env, params, "nft", CreateFailed);
  }

  /** The tweet route asks this route for an NFT with a name, a description
      and an image but no `uri`; read from that body, `uri` is undefined, so
      the request is refused with the missing-parameters 400 before anything
      is minted. */
  lemma {:induction false} TweetNftRequestRefused(date: string, message: Option<Json>, imageData: Json,
                                                  collectionAddress: Option<string>,
                                                  isUrl: string -> bool, isPublicKey: string -> bool)
    ensures Get(Some(TweetRoute.NftBody(date, message, imageData)), "uri") == None
    ensures Get(Some(TweetRoute.NftBody(date, message, imageData)), "name") == Some(JStr("Tweet NFT - " + date))
    ensures ValidateCreate(Some("Tweet NFT - " + date), None,
                           collectionAddress, isUrl, isPublicKey)
            == Some(ErrorResponse(400, MissingParameters))
  {
    var name := [Field("name", JStr("Tweet NFT - " + date))];
    var head := name + Defined("description", message);
    var tail := Defined("image", Get(Some(imageData), "ipfsUrl"));
    assert FieldValue(name, "uri") == None;
    FieldValueAppend(name, Defined("description", message), "uri");
    FieldValueAppend(head, tail, "uri");
  }
}
