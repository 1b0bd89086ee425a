/** The tweet card: the generated tweet text, then, when there is one, the
    rendered image with its IPFS link and the minted NFT with its metadata,
    attribute badges and a link to its transaction on a block explorer. */
module TweetCard {

  import opened Wrappers
  import opened Js
  import TweetRoute

  const BaseSepoliaChainId: string := "84532"
  const BaseSepoliaTxBase: string := "https://base-sepolia.blockscout.com/tx/"
  const EtherscanTxBase: string := "https://etherscan.io/tx/"

  datatype Image = Image(ipfsHash: string, ipfsUrl: string)
  datatype Attribute = Attribute(traitType: string, value: string)
  datatype Transaction = Transaction(hash: string, caip2: string)
  datatype Metadata = Metadata(name: string, description: string, image: string, attributes: Option<seq<Attribute>>)
  datatype Nft = Nft(success: bool, transaction: Transaction, metadata: Metadata)

  /** `caip2.split(":")[1]`: the segment after the first colon, up to the
      next one; `undefined` when there is no colon. */
  function ChainId(caip2: string): (r: Option<string>)
    ensures r.Some? ==> ':' !in r.value
    ensures ':' !in caip2 ==> r.None?
  {
    var parts := Split(caip2, ':');
    assert ':' !in caip2 ==> parts == [caip2] by {
      if ':' !in caip2 { SplitNoSep(caip2, ':'); }
    }
    if |parts| >= 2 then Some(parts[1]) else None
  }

  /** A CAIP-2 id `namespace:reference` (and any further segments) has the
      reference as its chain id. */
  lemma ChainIdOfSegments(segments: seq<string>)
    requires |segments| >= 2
    requires forall i :: 0 <= i < |segments| ==> ':' !in segments[i]
    ensures ChainId(Join(segments, ':')) == Some(segments[1])
  {
    SplitJoin(segments, ':');
  }

  /** `getBlockExplorerUrl(hash, caip2)`: Base Sepolia's explorer for chain
      84532, Etherscan for every other or missing chain id. */
  function ExplorerUrl(hash: string, caip2: string): (r: string)
    ensures ChainId(caip2) == Some(BaseSepoliaChainId) ==> r == BaseSepoliaTxBase + hash
    ensures ChainId(caip2) != Some(BaseSepoliaChainId) ==> r == EtherscanTxBase + hash
  {
    match ChainId(caip2)
    case Some(id) => if id == BaseSepoliaChainId then BaseSepoliaTxBase + hash else EtherscanTxBase + hash
    case None => EtherscanTxBase + hash
  }

  /** A transaction on `eip155:84532` links to Base Sepolia's explorer and one
      on any other EVM chain to Etherscan. */
  lemma ExplorerUrlByChain(hash: string, reference: string)
    requires ':' !in reference
    ensures ExplorerUrl(hash, "eip155:" + reference)
            == (if reference == BaseSepoliaChainId then BaseSepoliaTxBase else EtherscanTxBase) + hash
  {
    assert Join(["eip155", reference], ':') == "eip155:" + reference;
    ChainIdOfSegments(["eip155", reference]);
  }

  /** The "View on IPFS" link: the Pinata gateway the image route also uses,
      followed by the hash. */
  function IpfsLink(image: Image): (r: string)
    ensures |r| == |TweetRoute.ImageGateway| + |image.ipfsHash|
    ensures r[..|TweetRoute.ImageGateway|] == TweetRoute.ImageGateway
    ensures r[|TweetRoute.ImageGateway|..] == image.ipfsHash
  {
    TweetRoute.ImageGateway + image.ipfsHash
  }

  /** The text of an attribute badge, `trait_type: value`. */
  function BadgeText(a: Attribute): (r: string)
    ensures |r| == |a.traitType| + 2 + |a.value| && r[..|a.traitType|] == a.traitType
    ensures r[|a.traitType|..] == ": " + a.value
  {
    a.traitType + ": " + a.value
  }

  /** What the card shows. */
  datatype ImageBlock = ImageBlock(src: string, ipfsLink: string)
  datatype NftBlock = NftBlock(name: string, explorerUrl: string, description: string, badges: Option<seq<string>>)
  datatype Content = Content(image: Option<ImageBlock>, nft: Option<NftBlock>)
  datatype View = View(text: string, content: Option<Content>)

  /** The badge row: one badge per attribute in order, and no row when the
      attributes are missing or empty. */
  function Badges(attributes: Option<seq<Attribute>>): (r: Option<seq<string>>)
    ensures r.Some? <==> attributes.Some? && |attributes.value| > 0
    ensures r.Some? ==>
              && |r.value| == |attributes.value|
              && forall i :: 0 <= i < |r.value| ==> r.value[i] == BadgeText(attributes.value[i])
  {
    if attributes.Some? && |attributes.value| > 0 then
      Some(seq(|attributes.value|, i requires 0 <= i < |attributes.value| => BadgeText(attributes.value[i])))
    else None
  }

  /** `TweetCard({ text, image, nft })`. */
  function Render(text: string, image: Option<Image>, nft: Option<Nft>): (r: View)
    ensures r.text == text
    ensures r.content.Some? <==> image.Some? || nft.Some?
    ensures r.content.Some? ==>
              && (r.content.value.image.Some? <==> image.Some? && image.value.ipfsUrl != "")
              && (r.content.value.nft.Some? <==> nft.Some? && nft.value.success)
    ensures r.content.Some? && r.content.value.image.Some? ==>
              r.content.value.image.value == ImageBlock(image.value.ipfsUrl, IpfsLink(image.value))
    ensures r.content.Some? && r.content.value.nft.Some? ==>
              var shown := r.content.value.nft.value;
              && shown.name == nft.value.metadata.name
              && shown.description == nft.value.metadata.description
              && shown.explorerUrl == ExplorerUrl(nft.value.transaction.hash, nft.value.transaction.caip2)
              && shown.badges == Badges(nft.value.metadata.attributes)
  {
    if image.None? && nft.None? then View(text, None)
    else
      var imageBlock :=
        if image.Some? && image.value.ipfsUrl != "" then Some(ImageBlock(image.value.ipfsUrl, IpfsLink(image.value)))
        else None;
      var nftBlock :=
        if nft.Some? && nft.value.success then
          var m := nft.value.metadata;
          Some(NftBlock(m.name, ExplorerUrl(nft.value.transaction.hash, nft.value.transaction.caip2),
                        m.description, Badges(m.attributes)))
        else None;
      View(text, Some(Content(imageBlock, nftBlock)))
  }

  /** A failed mint shows no NFT block, even next to an image, and a card
      with only a failed mint shows an empty content section. */
  lemma FailedMintIsHidden(text: string, image: Option<Image>, nft: Nft)
    requires !nft.success
    ensures Render(text, image, Some(nft)).content.Some?
    ensures Render(text, image, Some(nft)).content.value.nft.None?
    ensures image.None? ==> Render(text, image, Some(nft)).content == Some(Content(None, None))
  {
  }
}
