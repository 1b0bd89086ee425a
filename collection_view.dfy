/** The collection page: it lists the NFTs of one contract as the Alchemy NFT
    API returns them, opens a transfer dialog for a clicked NFT, and links
    each NFT to the block explorer by its numeric token id. */
module CollectionView {

  import opened Wrappers
  import opened Js
  import opened Json
  import opened Http

  const ContractAddress: string := "0x9B45D1C8b359f06D04F4Fa8b23774E1C854918D7"
  const ExplorerBase: string := "https://base-sepolia.blockscout.com/token/"
  const ImageFallback: string := "image/jpeg"
  const FetchFallback: string := "An error occurred while fetching NFTs"
  const NotOk: string := "Failed to fetch NFTs"

  /** The `getNFTsForCollection` URL for an API key. */
  function NftsUrl(alchemyKey: string): string {
    "https://base-sepolia.g.alchemy.com/v2/" + alchemyKey + "/getNFTsForCollection?contractAddress="
      + ContractAddress + "&withMetadata=true"
  }

  /** One NFT as the page keeps it; the optional fields stay as the API
      returned them (None for `undefined`). */
  datatype NftRecord = NftRecord(
    tokenId: Option<Json>,
    title: Option<Json>,
    description: Option<Json>,
    imageUrl: Json,
    mimeType: Json,
    attributes: Json)

  /** `v || fallback`. */
  function OrElse(v: Option<Json>, fallback: Json): (r: Json)
    ensures Truthy(v) ==> r == v.value
    ensures !Truthy(v) ==> r == fallback
  {
    if Truthy(v) then v.value else fallback
  }

  /** The record built from one API item. `nft.id.tokenId` throws when the
      item or its `id` is null or missing; every other field is optional, and
      the image URL, the MIME type and the attributes get defaults. */
  function ToRecord(nft: Json, typeError: Thrown): (r: Result<NftRecord, Thrown>)
    ensures r.Failure? <==> Get(Some(nft), "id").None? || Get(Some(nft), "id") == Some(JNull)
    ensures r.Failure? ==> r.error == typeError
    ensures r.Success? ==>
              var media := First(Get(Some(nft), "media"));
              && r.value.tokenId == Get(Get(Some(nft), "id"), "tokenId")
              && r.value.title == Get(Some(nft), "title")
              && r.value.description == Get(Some(nft), "description")
              && (Truthy(Get(media, "gateway")) ==> r.value.imageUrl == Get(media, "gateway").value)
              && (!Truthy(Get(media, "gateway")) ==> r.value.imageUrl == JStr(""))
              && (Truthy(Get(media, "format")) ==> r.value.mimeType == Get(media, "format").value)
              && (!Truthy(Get(media, "format")) ==> r.value.mimeType == JStr(ImageFallback))
              && var attributes := Get(Get(Some(nft), "metadata"), "attributes");
                 && (Truthy(attributes) ==> r.value.attributes == attributes.value)
                 && (!Truthy(attributes) ==> r.value.attributes == JArr([]))
  {
    var id := Get(Some(nft), "id");
    if id.None? || id == Some(JNull) then Failure(typeError)
    else
      var media := First(Get(Some(nft), "media"));
      Success(NftRecord(
        Get(id, "tokenId"),
        Get(Some(nft), "title"),
        Get(Some(nft), "description"),
        OrElse(Get(media, "gateway"), JStr("")),
        OrElse(Get(media, "format"), JStr(ImageFallback)),
        OrElse(Get(Get(Some(nft), "metadata"), "attributes"), JArr([]))))
  }

  /** `data.nfts.map(...)`: one record per item, in the items' order, or the
      first item's failure. */
  function MapNfts(items: seq<Json>, typeError: Thrown): (r: Result<seq<NftRecord>, Thrown>)
    ensures r.Success? <==> forall i :: 0 <= i < |items| ==> ToRecord(items[i], typeError).Success?
    ensures r.Failure? ==> r.error == typeError
    ensures r.Success? ==>
              && |r.value| == |items|
              && forall i :: 0 <= i < |items| ==> Success(r.value[i]) == ToRecord(items[i], typeError)
  {
    if |items| == 0 then Success([])
    else
      var first := ToRecord(items[0], typeError);
      if first.Failure? then Failure(first.error)
      else
        var rest := MapNfts(items[1..], typeError);
        assert forall i :: 1 <= i < |items| ==> items[i] == items[1..][i - 1];
        if rest.Failure? then Failure(rest.error)
        else Success([first.value] + rest.value)
  }

  /** What a reply yields: the records, or what the page throws. A reply
      that is not ok is refused before its body is read, and a body without
      an `nfts` array throws `typeError` at `.map`. */
  function Fetched(reply: Reply, typeError: Thrown): (r: Result<seq<NftRecord>, Thrown>)
    ensures !reply.ok ==> r == Failure(Error(NotOk))
    ensures reply.ok && reply.json.Failure? ==> r == Failure(reply.json.error)
    ensures r.Success? <==>
              && reply.ok && reply.json.Success?
              && Get(Some(reply.json.value), "nfts").Some? && Get(Some(reply.json.value), "nfts").value.JArr?
              && MapNfts(Get(Some(reply.json.value), "nfts").value.items, typeError).Success?
    ensures r.Success? ==> r == MapNfts(Get(Some(reply.json.value), "nfts").value.items, typeError)
  {
    if !reply.ok then Failure(Error(NotOk))
    else match reply.json
      case Failure(e) => Failure(e)
      case Success(data) =>
        match Get(Some(data), "nfts")
        case Some(JArr(items)) => MapNfts(items, typeError)
        case _ => Failure(typeError)
  }

  /** The explorer link of a token: `parseInt(tokenId, 16)` rendered in
      decimal, or `NaN` when the id has no hexadecimal digit. */
  function ExplorerLink(tokenId: Option<Json>): (r: string)
    ensures |r| > |ExplorerBase + ContractAddress + "/instance/"|
    ensures r[..|ExplorerBase + ContractAddress + "/instance/"|] == ExplorerBase + ContractAddress + "/instance/"
  {
    var prefix := ExplorerBase + ContractAddress + "/instance/";
    var number := match ParseHexInt(Template(tokenId))
      case Some(n) => IntToString(n)
      case None => "NaN";
    assert (prefix + number)[..|prefix|] == prefix;
    prefix + number
  }

  /** A token id as the API writes it, `0x` and zero-padded hexadecimal
      digits, links to the instance with that number in decimal. */
  lemma ExplorerLinkOfTokenId(k: nat, n: nat)
    ensures ExplorerLink(Some(JStr("0x" + Zeros(k) + ToHex(n))))
            == ExplorerBase + ContractAddress + "/instance/" + NatToString(n)
  {
    var id := "0x" + Zeros(k) + ToHex(n);
    assert Template(Some(JStr(id))) == id;
    ParseHexIntOfPaddedHex(k, n);
    assert IntToString(n) == NatToString(n);
  }

  /** A token id without hexadecimal digits links to instance `NaN`. */
  lemma ExplorerLinkOfNonHex(tokenId: string)
    requires |tokenId| > 0 && !IsWhite(tokenId[0]) && !IsHexDigit(tokenId[0])
    requires tokenId[0] != '-' && tokenId[0] != '+'
    ensures ExplorerLink(Some(JStr(tokenId))) == ExplorerBase + ContractAddress + "/instance/NaN"
  {
    assert TrimStart(tokenId) == tokenId;
    assert StripHexPrefix(tokenId) == tokenId;
  }

  class CollectionPage {
    var nfts: seq<NftRecord>
    var isLoading: bool
    var error: Option<string>
    var selected: Option<NftRecord>
    var transferOpen: bool

    constructor()
      ensures nfts == [] && isLoading && error.None? && selected.None? && !transferOpen
    {
      nfts := [];
      isLoading := true;
      error := None;
      selected := None;
      transferOpen := false;
    }

    /** `fetchNFTs`: without an API key nothing is fetched; otherwise the
        records replace the list, or the caught message is shown and the
        list is kept. Loading ends in every case. */
    method FetchNfts(alchemyKey: Option<string>, reply: Reply, typeError: Thrown)
      returns (requests: seq<string>)
      modifies this
      ensures !isLoading
      ensures !Present(alchemyKey) ==>
                requests == [] && error == Some("Alchemy API key not found") && nfts == old(nfts)
      ensures Present(alchemyKey) ==> requests == [NftsUrl(alchemyKey.value)]
      ensures Present(alchemyKey) && Fetched(reply, typeError).Success? ==>
                nfts == Fetched(reply, typeError).value && error.None?
      ensures Present(alchemyKey) && Fetched(reply, typeError).Failure? ==>
                nfts == old(nfts) && error == Some(CaughtMessage(Fetched(reply, typeError).error, FetchFallback))
      ensures selected == old(selected) && transferOpen == old(transferOpen)
    {
      isLoading := true;
      error := None;
      requests := [];
      if !Present(alchemyKey) {
        error := Some(CaughtMessage(Error("Alchemy API key not found"), FetchFallback));
      } else {
        requests := [NftsUrl(alchemyKey.value)];
        var fetched := Fetched(reply, typeError);
        match fetched {
          case Success(records) => nfts := records;
          case Failure(t) => error := Some(CaughtMessage(t, FetchFallback));
        }
      }
      isLoading := false;
    }

    /** `handleNFTClick`: select the NFT and open the transfer dialog. */
    method Click(nft: NftRecord)
      modifies this
      ensures selected == Some(nft) && transferOpen
      ensures nfts == old(nfts) && isLoading == old(isLoading) && error == old(error)
    {
      selected := Some(nft);
      transferOpen := true;
    }

    /** `handleTransferNFT`: no transfer is made; the dialog closes and the
        selection stays. */
    method Transfer(to: string)
      modifies this
      ensures !transferOpen
      ensures selected == old(selected) && nfts == old(nfts) && isLoading == old(isLoading) && error == old(error)
    {
      transferOpen := false;
    }
  }
}
