# Gossip Girl bot: a Dafny model of its request handlers and pages

The bot has two parts.

- A Next.js backend:
  - mints Solana NFTs and collections
  - manages Privy wallets and their transaction policies
  - relays messages to an "autonomy" agent, which turns a message into a tweet (rendered as an image and minted as an NFT) or into a feed entry
- A React frontend that drives those routes.

This project models the logic of both parts and proves what the code promises.

**Backend routes**
- Validation order and exact error responses.
- The confirmation poller, with its doubling delays.
- The bigint serialiser.
- The Privy policy payload for each policy type.
- Wallet pagination.
- The process-wide agent-id cache.
- The staged tweet pipeline.

**Frontend components**
- How each page's state changes on a reply.
- The wallet/balance join.
- Chip selection in the message box.
- The action-to-endpoint switch of the chat page.
- The policy manager's configuration handling and refreshes.
- The NFT record mapping and hexadecimal token ids of the collection page.
- The tweet card's explorer link and section visibility.

**How the model is built**
- Everything outside the code is a parameter or an "oracle" function (a function parameter standing for the external call). This covers the Solana and Privy SDKs, `fetch`, `new URL`, `new PublicKey`, bs58, the image renderer, clocks and environment variables.
- A handler returns, beside its response, the list of external calls it made, in order. So "no wallet update unless the policy was created" and "the agent lookup happens only while the cache is empty" are stated about that list.
- State that the source keeps in React `useState` or in a module-level variable becomes a class with fields. Its methods state the whole new state.
- An async handler that awaits a request is split at the await only where something can happen in between (the chat page). Elsewhere it takes the replies it will get as parameters.
- A `fetch` that rejects reaches the same `catch` as a reply whose body cannot be read. Both are represented by a reply whose `json` is a `Failure` (with `ok` set where the code checks `ok` first).

**Modules**
- `Js`: string operations with JavaScript's semantics — `trim`, `slice` with negative indices, `split`, ASCII `toLowerCase`, decimal rendering, `parseInt(s, 16)`.
- `Json`: JSON values, truthiness, property access, spread and template rendering.
- `Http`: responses, thrown errors and `fetch` replies.
- `Poller` and `Mint`: shared by the collection and NFT routes.
- One module per core file: `CollectionRoute`, `NftRoute`, `PolicyRoute`, `WalletRoute`, `TweetRoute`, `FeedRoute`, `Suggestions`, `Chat`, `PolicyManager`, `WalletPage`, `CollectionView`, `TweetCard`.
- `Agents`: the agent-id cache used by both agent routes.

**The chat page and the backend do not match**
- The chat page sends a tweet as `{ tweet }` and a secret as `{ secret }`, but the tweet and feed routes read `message`. `Chat.SubmittedTextIsNotRead` proves what each route then builds.
- The page's "General" action posts to `/api/chat`, which none of the backend route files serves.
- The tweet route asks the NFT route for a token with a name, a description and an image, but the NFT route requires `name` and `uri`. So the NFT route answers 400 "Missing required parameters…", and the tweet route fails with "NFT generation failed: 400 …". `NftRoute.TweetNftRequestRefused` proves the refusal.

## Model

| member | source | states |
|---|---|---|
| Poller.WaitForConfirmation | backend/src/app/api/collection/route.ts:44-75 | at most `maxAttempts` lookups; the wait before attempt k is `initialDelay` doubled k times (`Waits`) whether the attempt threw or was incomplete; success iff some attempt within the bound returns a snapshot with metadata, and then it is the first such one; a throw on the final attempt gives "after N attempts", otherwise the plain message; zero attempts look nothing up |
| Poller.TotalWait | backend/src/app/api/collection/route.ts:216-221 | the first n waits add up to `initialDelay * (2^n - 1)` |
| Poller.Waits | backend/src/app/api/collection/route.ts:62-69 | the k-th wait of the schedule is `initialDelay` doubled k times |
| Poller.WaitIsPow2 | backend/src/app/api/collection/route.ts:62-69 | the wait before attempt k is `initialDelay * 2^k` |
| Mint.KeypairFromEnv | backend/src/app/api/collection/route.ts:29-41 | an unset or empty key throws "PRIVATE_KEY environment variable is not set", a key that does not decode throws "Invalid private key format", and a key that decodes gives its keypair |
| Mint.KeypairFromEnvIsDetermined | backend/src/app/api/collection/route.ts:29-41 | those three outcomes fix the result: any result that agrees with them is `KeypairFromEnv`'s |
| Mint.Prepare | backend/src/app/api/collection/route.ts:178-191 | no airdrop call without a keypair; the airdrop asks for 1 SOL when below 0.5 SOL; a failed airdrop becomes "Failed to ensure sufficient SOL balance" |
| Mint.Submit | backend/src/app/api/collection/route.ts:203-221 | the create call comes first; a failed send stops before confirmation; otherwise confirmation waits on the doubling schedule from 2000 ms for at most 10 lookups, and a result is the snapshot of the first lookup that confirmed, no earlier one having done so |
| Mint.Create | backend/src/app/api/collection/route.ts:178-236 | 200 iff the keypair loads, the airdrop and the send succeed and some lookup confirms; then the calls are airdrop, create with the given params, confirmation on the 2000 ms doubling schedule, and the body is the first confirmed snapshot with the mint address; otherwise (`Refused`) a key error or a failed send gives a 500 with the error's message or the route's fallback, a failed airdrop the fixed airdrop message, and no confirming lookup the poller's timeout message |
| Mint.FetchAsset | backend/src/app/api/collection/route.ts:95-139 | the GET of both routes (the NFT route's, backend/src/app/api/nft/route.ts:90-135, answers under `nft` with "Failed to fetch NFT"): a missing address is a 400 checked before the format 400; only a valid address is fetched; the snapshot comes back under the route's key; a failure is a 500 with the error's message or the route's fallback |
| Mint.AssetBody | backend/src/app/api/collection/route.ts:126-129 | the body holds no bigint, `success: true`, the serialised asset under its key, and `mintAddress` only when given |
| Json.StringifyBigInts | backend/src/app/api/collection/route.ts:88-92 | every bigint leaf becomes its decimal string; arrays keep their length, objects their keys in order; a value without bigints is unchanged |
| Json.StringifyIdempotent | backend/src/app/api/collection/route.ts:88-92 | serialising twice is serialising once |
| Json.BigIntLeafReadsBack | backend/src/app/api/collection/route.ts:88-92 | each string that replaced a bigint parses back to that bigint |
| CollectionRoute.ValidateCreate | backend/src/app/api/collection/route.ts:147-169 | missing fields, then URI, then lengths, each a 400 with its own message; valid iff all present, the URI parses, name ≤ 32 and symbol ≤ 10 |
| CollectionRoute.LengthLimitsAreInclusive | backend/src/app/api/collection/route.ts:163-169 | a 32-character name and a 10-character symbol pass; one more character in either is refused |
| CollectionRoute.HandlePost | backend/src/app/api/collection/route.ts:142-237 | invalid requests call nothing; 200 iff valid and minting succeeds, and then the calls are the airdrop, `createNft` with the generated mint, the name, symbol and URI, no royalty and the collection flag, and confirmation on the 2000 ms doubling schedule; the body is the first confirmed snapshot plus the mint address; a valid request that fails answers `Refused`'s 500: the key's or the send's error message (or "Failed to create collection"), the fixed airdrop message, or the timeout message |
| NftRoute.ValidateCreate | backend/src/app/api/nft/route.ts:143-169 | missing fields, then URI, then (only if given) the collection address; valid iff all checks pass |
| NftRoute.AbsentCollectionNotChecked | backend/src/app/api/nft/route.ts:159-169 | an absent or empty collection address is never parsed |
| NftRoute.BuildNftParams | backend/src/app/api/nft/route.ts:202-216 | the parameters carry `collection = { key, verified: false }` exactly when a collection address was sent |
| NftRoute.HandlePost | backend/src/app/api/nft/route.ts:137-244 | invalid requests call nothing; 200 iff every stage succeeds, and then the calls are the airdrop, `createNft` with the generated mint, the name, no symbol, the URI, no royalty, not a collection and `{ key, verified: false }` iff a collection address was sent, and confirmation on the 2000 ms doubling schedule; the body is the first confirmed snapshot plus the mint address; a valid request that fails answers `Refused`'s 500: the key's or the send's error message (or "Failed to create NFT"), the fixed airdrop message, or the timeout message |
| NftRoute.TweetNftRequestRefused | backend/src/app/api/nft/route.ts:140-149 | the body the tweet route sends (backend/src/app/api/tweet/route.ts:77-81) has no `uri`, so this route refuses it with the missing-parameters 400 |
| PolicyRoute.FetchAll | backend/src/app/api/privy/policy/route.ts:25-35 | succeeds iff every policy fetch succeeds; one result per id, in the ids' order |
| PolicyRoute.HandleGet | backend/src/app/api/privy/policy/route.ts:10-42 | a missing wallet id is a 400; 200 iff the wallet and all its policies load, with the policies in order (none for a wallet without policies); any failure is the fixed 500 |
| PolicyRoute.StartsWith0x | backend/src/app/api/privy/policy/route.ts:49 | an absent or null address is not accepted, a string is accepted iff it starts with "0x", any other value throws |
| PolicyRoute.ValidateCreate | backend/src/app/api/privy/policy/route.ts:49-55 | only ERC-20 and native limits are checked, each with its own 400; the other types always pass |
| PolicyRoute.PayloadFor | backend/src/app/api/privy/policy/route.ts:57-140 | one `eth_sendTransaction` rule per known type and none for an unknown type; the rule denies iff the type is a deny list, which alone allows by default; the conditions per type, the ERC-20 one being to, chain id, then the ABI-tagged amount |
| PolicyRoute.BuildPayload | backend/src/app/api/privy/policy/route.ts:57-140 | the imperative push and default-action flip build exactly `PayloadFor` |
| PolicyRoute.CreatedIds | backend/src/app/api/privy/policy/route.ts:157-167 | reading `id` from a null create reply throws the TypeError; otherwise the wallet's new list is the created policy's id alone (null when absent) |
| PolicyRoute.HandlePost | backend/src/app/api/privy/policy/route.ts:45-181 | rejected requests call nothing; the wallet is patched iff the policy was created and its reply is not null, with that policy's id; a null reply is a 500 with the TypeError's message and no PATCH; 200 iff both calls succeed, with the created policy as body; errors are 500 with the message or "Policy creation failed" |
| PolicyRoute.AppendedIds | backend/src/app/api/privy/policy/route.ts:190-201 | the wallet's ids in order, then the new one |
| PolicyRoute.HandlePatch | backend/src/app/api/privy/policy/route.ts:184-214 | a failed wallet read writes nothing; 200 iff read and update succeed, passing the update's answer through; any failure is the fixed 500 |
| PolicyRoute.AppendKeepsEarlierPolicies | backend/src/app/api/privy/policy/route.ts:190-201 | after a PATCH every earlier policy and the new one are attached |
| PolicyRoute.SuccessivePatchesAccumulate | backend/src/app/api/privy/policy/route.ts:190-201 | two PATCHes append both policies in order |
| PolicyRoute.ReplaceIsAppendToEmpty | backend/src/app/api/privy/policy/route.ts:160-168 | POST's replacing list equals a PATCH of the new id onto a wallet with no policies |
| WalletRoute.HandleGet | backend/src/app/api/privy/wallet/route.ts:5-24 | the first page is asked without a cursor, each later one with the cursor the previous page returned; it stops at the first page without a cursor; the body is all wallets of all pages in order; any failure is the fixed 500 |
| WalletRoute.CollectedConcat | backend/src/app/api/privy/wallet/route.ts:10-17 | wallets collected from consecutive runs of pages concatenate |
| WalletRoute.CreateRequest | backend/src/app/api/privy/wallet/route.ts:30-33 | an Ethereum wallet with the given policy ids, or none when they are missing |
| WalletRoute.HandlePost | backend/src/app/api/privy/wallet/route.ts:27-38 | the created wallet, or the fixed 500 |
| Agents.LookupAgent | backend/src/app/api/tweet/route.ts:17-34 | a non-ok reply, an unreadable body and a body without agents give their own errors; success yields the first agent's `id` |
| Agents.Step | backend/src/app/api/tweet/route.ts:16-35 | a filled cache is used as it is; an empty one is filled from a successful lookup and stays empty on failure |
| Agents.Slots | backend/src/app/api/tweet/route.ts:6 | the cache before each of a series of requests is the previous cache stepped by the previous request |
| Agents.FilledCacheIsFinal | backend/src/app/api/tweet/route.ts:6-35 | once filled the cache never changes, so no later request looks the agent up |
| Agents.LookupsFormAPrefix | backend/src/app/api/tweet/route.ts:16 | lookups happen only in an unbroken run of first requests, and at most one of them fills the cache |
| Agents.LookupCalls | backend/src/app/api/tweet/route.ts:16-20 | one `GET /agents` request iff the cached id is null, none otherwise |
| Agents.AgentCache.constructor | backend/src/app/api/tweet/route.ts:6 | the cache starts as null |
| Agents.AgentCache.Resolve | backend/src/app/api/tweet/route.ts:16-35 | the new cache and the id follow `Step`; the lookup request is made iff the cache was empty |
| TweetRoute.ChatBody | backend/src/app/api/tweet/route.ts:40-42 | the prompt is the fixed prefix followed by the message |
| TweetRoute.ImageText | backend/src/app/api/tweet/route.ts:62 | the agent's first text when truthy, "Hello Puppys" otherwise; always truthy |
| TweetRoute.ImageData | backend/src/app/api/image/utils.ts:161-164 | the image result carries the hash and the Pinata gateway URL of that hash |
| TweetRoute.NftBody | backend/src/app/api/tweet/route.ts:77-81 | the NFT is named after the date and its image is the pinned image's URL |
| TweetRoute.Merged | backend/src/app/api/tweet/route.ts:90-94 | the agent's reply with `image` and `nft` set and every other property kept |
| TweetRoute.Publish | backend/src/app/api/tweet/route.ts:38-94 | the message request comes first; the image is rendered only after a readable ok reply and the NFT requested only after a rendered image; a non-ok reply gives its status message, any other failure the thrown message; 200 iff every stage succeeds, with the reply merged with the image and the NFT |
| TweetRoute.HandlePost | backend/src/app/api/tweet/route.ts:11-102 | the cache is stepped by `Step`; the calls begin with the agents lookup iff the cached id was null; a failed lookup is a 500 and nothing else is requested; otherwise the remaining calls and the response are `Publish`'s for the cached or looked-up id |
| FeedRoute.DataBody | backend/src/app/api/feed/route.ts:36-40 | a one-entry batch with the fixed id, the message and the time |
| FeedRoute.HandlePost | backend/src/app/api/feed/route.ts:7-64 | the data request goes out only once an id is known; 200 iff it succeeds, passing the agent's answer through unchanged; a failed lookup gives a 500 with its message; a non-ok data reply gives "Chat request failed: status text"; an ok reply whose body cannot be read gives a 500 with the caught message or "An unexpected error occurred" |
| Suggestions.Toggled | frontend/src/components/ui/ai-input-with-suggestions.tsx:82-84 | clicking the selected chip clears the selection, any other chip selects it |
| Suggestions.ToggleTwice | frontend/src/components/ui/ai-input-with-suggestions.tsx:82-84 | two clicks on one chip restore an empty or that-chip selection, and clear any other |
| Suggestions.Find | frontend/src/components/ui/ai-input-with-suggestions.tsx:87 | the first action with the label, or none iff no action has it |
| Suggestions.CurrentItem | frontend/src/components/ui/ai-input-with-suggestions.tsx:86-88 | nothing for a null or empty selection, otherwise the first action with the selected label |
| Suggestions.Chips | frontend/src/components/ui/ai-input-with-suggestions.tsx:177 | never more chips than actions; with no selection all actions are chips |
| Suggestions.ChipsMembers | frontend/src/components/ui/ai-input-with-suggestions.tsx:177 | an action is a chip iff it is not the selected one |
| Suggestions.ChipsDropSelected | frontend/src/components/ui/ai-input-with-suggestions.tsx:177 | the chips are the actions with the selected one removed, the rest in their order |
| Suggestions.ChipsKeepUnselected | frontend/src/components/ui/ai-input-with-suggestions.tsx:177 | a selection no action carries removes no chip |
| Suggestions.SendDisabledIffBlank | frontend/src/components/ui/ai-input-with-suggestions.tsx:165-169 | the send button is disabled exactly for all-white-space input |
| Suggestions.SuggestionInput.constructor | frontend/src/components/ui/ai-input-with-suggestions.tsx:77-78 | empty input, selection `defaultSelected ?? null` |
| Suggestions.SuggestionInput.Type | frontend/src/components/ui/ai-input-with-suggestions.tsx:120-122 | typing replaces the input and keeps the selection |
| Suggestions.SuggestionInput.Toggle | frontend/src/components/ui/ai-input-with-suggestions.tsx:82-84 | the selection becomes `Toggled`, the input is kept |
| Suggestions.SuggestionInput.Submit | frontend/src/components/ui/ai-input-with-suggestions.tsx:90-99 | blank input sends nothing and changes nothing; otherwise the untrimmed text and the selection are sent and both are cleared |
| Chat.ActionKey | frontend/src/pages/chat.tsx:51 | no action or an empty one means "general", otherwise the lower-cased action |
| Chat.ChipKeys | frontend/src/pages/chat.tsx:51 | the keys the page's chips and the message box's default chips lower-case to |
| Chat.Dispatch | frontend/src/pages/chat.tsx:48-77 | the three endpoints with their payloads; any other key is "Invalid action selected" |
| Chat.ChatActionsDispatch | frontend/src/pages/chat.tsx:6-34 | every chip of the page reaches an endpoint and so does sending with no chip; the message box's default chips are all rejected |
| Chat.SubmittedTextIsNotRead | frontend/src/pages/chat.tsx:52-74 | the tweet route prompts with "undefined" for a tweet from this page, and the feed route posts a secret without its text |
| Chat.Settle | frontend/src/pages/chat.tsx:87-98 | a non-ok reply names the action; an unreadable or null body gives the caught message; otherwise the reply's `message` is shown |
| Chat.ChatPage.constructor | frontend/src/pages/chat.tsx:37-39 | not submitting, the greeting shown, no error |
| Chat.ChatPage.Begin | frontend/src/pages/chat.tsx:41-79 | blank text or a request in flight is ignored; an unknown action shows its error, clears the reply and frees the page; otherwise the request goes to the backend and the page stays busy |
| Chat.ChatPage.Complete | frontend/src/pages/chat.tsx:87-101 | the reply's message or the error is shown (the reply cleared on error), and the page is free again |
| PolicyManager.ConfigFor | frontend/src/components/PrivyPolicy.tsx:53-72 | a deny list sends only its address, failing on unparsable or null text; every other type sends the parsed JSON, failing on unparsable text; each failure has its message |
| PolicyManager.PolicyData | frontend/src/components/PrivyPolicy.tsx:74-77 | the form with only `config` replaced, keys in the same order |
| PolicyManager.CreateMessage | frontend/src/components/PrivyPolicy.tsx:86-100 | the server's error for a non-ok reply, the new id on success, the generic message otherwise |
| PolicyManager.UpdateMessage | frontend/src/components/PrivyPolicy.tsx:115-128 | the server's error for a non-ok reply, the fixed success text, the generic message otherwise |
| PolicyManager.RefreshAsWritten | frontend/src/components/PrivyPolicy.tsx:94-97 | the refresh after a create reads the wallet id that was on screen before |
| PolicyManager.RefreshAsWrittenMissesNewWallet | frontend/src/components/PrivyPolicy.tsx:94-97 | with nothing on screen the refresh only prompts for an id; with another wallet on screen it lists that wallet's policies |
| PolicyManager.RefreshCorrected | frontend/src/components/PrivyPolicy.tsx:94-97 | the refresh lists the policies of the wallet the policy was created for |
| PolicyManager.PolicyPanel.constructor | frontend/src/components/PrivyPolicy.tsx:10-30 | the initial state: empty fields, type "allowlist", config text "{}" |
| PolicyManager.PolicyPanel.EditForms | frontend/src/components/PrivyPolicy.tsx:147-275 | the form fields take the typed values; the lists and messages are kept |
| PolicyManager.PolicyPanel.FetchPolicies | frontend/src/components/PrivyPolicy.tsx:33-47 | an empty id only prompts; otherwise the body becomes the list whatever the status, and an unreadable body sets the error message |
| PolicyManager.PolicyPanel.CreatePolicy | frontend/src/components/PrivyPolicy.tsx:50-102 | a configuration that fails sends nothing; otherwise the form goes out; the refresh (`RefreshCorrected`, see Findings and Left out) happens iff the create succeeded and the form named a wallet, and then it is for that wallet, its readable body becoming the list with "Policies fetched successfully." and an unreadable one keeping the list with "Error fetching policies." |
| PolicyManager.PolicyPanel.UpdatePolicy | frontend/src/components/PrivyPolicy.tsx:105-130 | the update form goes out; the list refreshes iff the update succeeded and the updated wallet is the one on screen (both empty: only the prompt, the list kept), a readable body becoming the list with "Policies fetched successfully." and an unreadable one keeping the list with "Error fetching policies." |
| WalletPage.FormatAddress | frontend/src/pages/privy.tsx:93-95 | the first six and last four characters around "...", 13 characters for an address of at least 10; shorter addresses as `slice` gives them |
| WalletPage.CountLabel | frontend/src/pages/privy.tsx:119 | the count, then "wallet found" for one and "wallets found" for any other count |
| WalletPage.BalanceLabel | frontend/src/pages/privy.tsx:155 | a truthy balance, otherwise "0", followed by " ETH" |
| WalletPage.PolicyBadges | frontend/src/pages/privy.tsx:161-168 | one badge per policy id in order, none (and no row) without policies |
| WalletPage.WithBalance | frontend/src/pages/privy.tsx:51-55 | succeeds iff the wallet is not null and its balance fetch gives a readable, non-null body; then the wallet with `balance` set from that body and every other property kept; a null wallet or a null balance body throws the TypeError, and a failed balance fetch throws its own error |
| WalletPage.JoinBalances | frontend/src/pages/privy.tsx:50-56 | succeeds iff every join does; one wallet per wallet, in order |
| WalletPage.JoinReportsFirstFailure | frontend/src/pages/privy.tsx:50-56 | a failed join carries the error of the first wallet whose join failed, all wallets before it having joined |
| WalletPage.Listed | frontend/src/pages/privy.tsx:47-56 | an unreadable listing fails with its error; an array body yields its joined wallets (or the first join's error); any other body throws the TypeError of `.map` |
| WalletPage.CreateBody | frontend/src/pages/privy.tsx:71 | the body's `policyIds` is the selected ids, in order |
| WalletPage.WalletList.constructor | frontend/src/pages/privy.tsx:27-30 | no wallets, loading, no policy selected |
| WalletPage.WalletList.FetchWallets | frontend/src/pages/privy.tsx:45-63 | the list is replaced only when every step succeeds, kept otherwise; loading ends |
| WalletPage.WalletList.CreateWallet | frontend/src/pages/privy.tsx:65-81 | the create request carries the selected policies; the list is fetched again iff the create reply is ok; loading ends |
| CollectionView.ToRecord | frontend/src/components/collection.tsx:53-60 | the token id, title and description are copied; the image URL defaults to "", the MIME type to "image/jpeg", the attributes to []; a null or missing `id` throws |
| CollectionView.MapNfts | frontend/src/components/collection.tsx:53 | one record per item, in the items' order |
| CollectionView.Fetched | frontend/src/components/collection.tsx:45-60 | a non-ok reply is "Failed to fetch NFTs" before the body is read; a body without an `nfts` array throws; otherwise the mapped records |
| CollectionView.ExplorerLink | frontend/src/components/collection.tsx:185-186 | the link starts with the explorer's instance URL of the contract; the two lemmas below give the number that follows |
| CollectionView.ExplorerLinkOfTokenId | frontend/src/components/collection.tsx:185-186 | a zero-padded `0x` hexadecimal token id links to its number in decimal |
| CollectionView.ExplorerLinkOfNonHex | frontend/src/components/collection.tsx:185-186 | a token id without hexadecimal digits links to instance NaN |
| Js.ParseHexIntOfPaddedHex | frontend/src/components/collection.tsx:185 | `parseInt("0x" + zeros + n.toString(16), 16)` is n |
| CollectionView.CollectionPage.constructor | frontend/src/components/collection.tsx:29-33 | no NFTs, loading, no error, nothing selected, dialog closed |
| CollectionView.CollectionPage.FetchNfts | frontend/src/components/collection.tsx:35-68 | a missing API key fails before any request; otherwise the records replace the list or the caught message is shown and the list is kept; loading ends in every case |
| CollectionView.CollectionPage.Click | frontend/src/components/collection.tsx:74-77 | the NFT is selected and the transfer dialog opens |
| CollectionView.CollectionPage.Transfer | frontend/src/components/collection.tsx:79-85 | no transfer is made: only the dialog closes |
| TweetCard.ChainId | frontend/src/components/TweetCard.tsx:31 | the segment after the first colon, none without a colon |
| TweetCard.ChainIdOfSegments | frontend/src/components/TweetCard.tsx:31 | for a colon-joined id the chain id is its second segment |
| Js.SplitJoin | frontend/src/components/TweetCard.tsx:31 | splitting a join of separator-free parts gives the parts back |
| TweetCard.ExplorerUrl | frontend/src/components/TweetCard.tsx:30-38 | Base Sepolia's explorer for chain 84532, Etherscan for any other or missing chain |
| TweetCard.ExplorerUrlByChain | frontend/src/components/TweetCard.tsx:30-38 | `eip155:84532` links to Base Sepolia and every other `eip155` reference to Etherscan |
| TweetCard.IpfsLink | frontend/src/components/TweetCard.tsx:57 | the Pinata gateway followed by the hash |
| TweetCard.BadgeText | frontend/src/components/TweetCard.tsx:90 | `trait_type: value` |
| TweetCard.Badges | frontend/src/components/TweetCard.tsx:82-94 | one badge per attribute in order; no badge row for missing or empty attributes |
| TweetCard.Render | frontend/src/components/TweetCard.tsx:40-101 | the content section iff an image or an NFT is given; the image block iff it has a URL; the NFT block iff the mint succeeded, with its name, description, explorer link and badges |
| TweetCard.FailedMintIsHidden | frontend/src/components/TweetCard.tsx:64 | a failed mint shows no NFT block, even beside an image |

## Left out

- The Solana, Metaplex, Privy and Pinata SDKs, `new URL`, `new PublicKey` and bs58 are oracle parameters. Their behaviour is not modelled.
- Network, timing and sleeping:
  - The poller records its delays instead of sleeping.
  - `Promise.all` is taken in order, one request after another. When several requests fail, the model reports the first failure in that order, which need not be the one that rejected first.
  - Concurrent requests racing on the agent-id cache are not modelled.
- Floating point:
  - `Number(x) * 1e18` in hexadecimal (the policy payload) is the `weiHex` oracle.
  - `isNaN(Number(x))` is the `isNumber` oracle.
  - `parseInt(result) / 1e18` in the balance route is not modelled.
  - Numbers are integers. JavaScript's 2^53 precision limit and exponent notation are not modelled, so a token id above 2^53 links to its exact value here.
- The balance and transaction routes and the health-check route are not part of this model. The wallet page reads balances through the `balanceOf` parameter.
- Request bodies are taken as parsed fields, so a malformed JSON body and its `SyntaxError` message are not modelled.
  - Body fields the code treats as strings are `string`. A number passed where `name.length` is read is not modelled.
  - The policy `config` is a list of fields, so a null or missing config (a TypeError in the source) is not modelled.
- A TypeError's message is the `typeError` parameter, not the runtime's text.
- Environment variables that the code interpolates (`AUTONOMY_URL`, `VITE_BACKEND_URL`) are plain string parameters. An unset one would render as "undefined" in the source.
- `toLowerCase` is ASCII only, `trim` strips exactly ECMAScript's WhiteSpace and LineTerminator characters, and `.length` counts characters rather than UTF-16 code units.
- Locale and date formatting (`toLocaleString`, `toISOString`, `Date.now()`, `formatDate`) are parameters.
- The image route's HTML rendering, headless browser and upload are not modelled.
- Presentation-only code (markup, class names, icons, skeletons, the textarea auto-resize) and `console` logging are not modelled.
- WalletRoute.HandleGet: requires that some page stops the loop (fails or has no cursor). A provider that always returns a cursor makes the source loop forever, and the model does not cover that.
- PolicyManager.PolicyPanel.CreatePolicy: refreshes with `RefreshCorrected`, the policies of the wallet the form named. The handler as written (frontend/src/components/PrivyPolicy.tsx:94-97) refreshes the previously viewed wallet, or only prompts when none was viewed; `RefreshAsWritten` models that and Findings states the difference.
- WalletPage.BalanceLabel, WalletPage.PolicyBadges: values are rendered with `String()`. JSX renders a boolean or null as nothing, an array without commas, and throws on an object; none of that is modelled. The balance route and Privy give strings and numbers here, which both render alike.
- WalletPage.WithBalance: an undefined `balance` is kept as null. Both render as "0 ETH".
- WalletPage.WalletList.CreateWallet: the button is disabled while loading, but the model does not require that.
- Chat.ChatPage.Begin: only the state and the request are modelled. The `timestamp` parameter stands for `new Date().toISOString()`.

## Findings

| source | as written | input that shows it | evidently intended | confidence | as-written member | corrected member |
|---|---|---|---|---|---|---|
| frontend/src/components/PrivyPolicy.tsx:94-97 | after a successful create, `setWalletId(newPolicy.walletId); fetchPolicies();` runs the `fetchPolicies` of the current render, which still reads the wallet id that was on screen before the create | no wallet on screen and a policy created for wallet "w1": the refresh only shows "Please enter a wallet ID."; wallet "w0" on screen: the refresh lists w0's policies while the field shows w1 | refresh the policies of the wallet the policy was created for | high, not executed | PolicyManager.RefreshAsWritten, PolicyManager.RefreshAsWrittenMissesNewWallet | PolicyManager.RefreshCorrected (used by PolicyManager.PolicyPanel.CreatePolicy) |
