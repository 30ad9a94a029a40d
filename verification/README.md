# Consilience DAO check-in, minting and AI relays in Dafny

This project models the decision logic of a small DAO collaboration demo:

- **The single-page client** lets a participant sign up, be matched with a project by an AI matchmaker, chat, submit a proof of work for a milestone NFT, and check in with a QR token.
- **Three server routes** sit behind it:
  - **check-in** validates the token `"<alias>-<millis>"` and mints reward tokens: 4 to the participant, then 1 to the operator's own key.
  - **mint-nft** mints the milestone NFT.
  - **ai-match** relays to the AI service, for a match or for a chat.
- **The helpers the routes use:** the Solana ledger helpers, the NFT metadata builder and the AI prompt builders.
- **A setup script** checks the environment variables.

## Layout

Each source file becomes one module:

| module | file | what it holds |
|---|---|---|
| `CheckIn` | `check_in.dfy` | The check-in route. A pure decision (`Decide`) covers the guard, the token parse, the freshness window and the configuration check. A method (`Post`) applies the two mints to a ledger; the first mint stays applied when the second fails. |
| `Page` | `page.dfy` | The client's handlers, as a class `App` whose fields are the page's state and whose methods are the handlers. It also holds the token the client issues and the proofs that the route reads it back. |
| `Solana` | `solana.dfy` | The network and endpoint choice, the key-loading guard, and base-unit conversion. A ledger `class` has mints, token accounts and a log of mint transactions; `createCSToken` and `mintCSTokens` act on it. |
| `MintNft`, `Nft` | `mint_nft.dfy`, `nft.dfy` | The milestone route and the metadata record it builds. |
| `AiMatch`, `OpenAi` | `ai_match.dfy`, `open_ai.dfy` | The dispatch on `action`, the two prompt templates, the chat message list and the handling of the reply content. |
| `SetupCheck` | `setup_check.dfy` | The five environment flags, the required conjunction, the count and the tips. |
| `JsText` | `js_text.dfy` | The JavaScript string and number built-ins the code relies on, written out: `split`, `join`, `trim`, `startsWith`, `parseInt` and `Number.prototype.toString`. |
| `Config` | `config.dfy` | The environment variables as one record. |
| `Wrappers` | `wrappers.dfy` | `Option` and `Result`. |

## How the foreign parts appear

These are parameters, not computations:
- **The clock** (`Date.now()`) is a `now` argument.
- **The random part of the mock wallet address** is a `walletSuffix` argument.
- **Each Solana SDK call** takes a fault argument. `Some(message)` makes that call throw with that message; otherwise the call acts on the abstract ledger.
- **The base58 decoding of the server key and `new PublicKey` address parsing** are outcomes passed in.
- **NFT creation** is a function from its arguments to the new address or the thrown error.
- **The AI completion** is a function from the request to the reply content or the thrown error. `None` stands for a null content.
- **What `JSON.parse` makes of a non-empty reply** is also a function.
- **Server replies on the client** are a `reply` argument: `Failure` when the fetch throws, `Success(response)` otherwise.

A JavaScript value that may be `undefined` is an `Option`; a string is truthy when present and non-empty. `parseInt` returns `None` for NaN, and a comparison with NaN is false. That is why a token whose timestamp does not parse is never expired.

**Two consequences of the check-in code:**
- **The timestamp field.** The route reads the time from the *second* field of `split('-')` (app/api/check-in/route.ts:20). An alias containing `-` therefore makes the route read part of the alias as the time (`Page.HyphenatedAliasMisread` and its two examples).
- **Token reuse.** The route keeps no record of used tokens (app/api/check-in/route.ts:8-57), so a token is accepted again on every scan inside its window (`CheckIn.AcceptedAgainWithinWindow`).

**The two class invariants.** `Page.App.Valid()` says a match is held only by a signed-up user and every wallet is a "0x" mock address. Every handler requires it and keeps it, so the page never holds a match without a user. Its wallet half is the condition `Page.IssuedTokenAcceptedIffFresh` puts on its user: a "0x" address is non-empty, so the route's field check passes. `Solana.Ledger.Valid()` says every record in the mint log credits an existing token account. Every ledger operation, and so `CheckIn.Post` and `Solana.MintCSTokens`, requires it and keeps it, so a balance is never credited to an account that does not exist.

## Model

| member | source | states |
|---|---|---|
| CheckIn.CheckInTime | app/api/check-in/route.ts:20-21 | A token without `-` has no time (NaN). Otherwise the time is `parseInt` of the second `-`-separated field. |
| CheckIn.Expired | app/api/check-in/route.ts:25 | A NaN time is never expired. Otherwise the token is expired exactly when the clock is more than 300000 ms past its time. |
| CheckIn.TimestampField | app/api/check-in/route.ts:20 | The timestamp is the second `-`-separated field, absent exactly when the token has no `-`. It never contains a `-`, so later fields are ignored. |
| CheckIn.Decide | app/api/check-in/route.ts:12-37 | A refusal has status 400 or 500. An issuance is only made with all fields present and a configured mint, and it grants 4 tokens to the user, then 1 to the operator. |
| CheckIn.MissingFieldsRejectedFirst | app/api/check-in/route.ts:12-17 | The result is "Missing required fields" (400) exactly when a field is absent or empty, whatever the token, clock and configuration. |
| CheckIn.ExpiredIff | app/api/check-in/route.ts:20-30 | With the fields present, "QR code expired" is returned exactly when the time parses and `now - t > 300000`. |
| CheckIn.UnparseableTimestampNeverExpires | app/api/check-in/route.ts:21-25 | A token whose time does not parse (missing, empty, not a number) is never refused as expired. It is issued whenever the mint is configured. |
| CheckIn.FreshnessBoundary | app/api/check-in/route.ts:25 | An age of exactly 300000 ms is accepted and 300001 ms is refused. A token dated in the future is always fresh. |
| CheckIn.AcceptedAgainWithinWindow | app/api/check-in/route.ts:8-30 | No token is consumed: a request accepted at some time is accepted, with the same issuance, at every earlier time. |
| CheckIn.ConfigurationCheckedLast | app/api/check-in/route.ts:32-37 | "CS Token not configured" (500) occurs exactly when both input checks pass and the mint is unset. An issuance occurs exactly when the mint is set. |
| CheckIn.RewardSplit | app/api/check-in/route.ts:43-45 | The grants total 5 tokens: first 4 to the participant, then 1 to the operator. |
| CheckIn.SetupError | app/api/check-in/route.ts:39-41 | The first error wins: the key loading's, then the user address's, then the mint address's. Nothing throws exactly when the key loads and both addresses parse. |
| CheckIn.NoIssuanceAsWritten | app/api/check-in/route.ts:39 | With the key loading as written, every request that passes the checks fails before any mint. |
| CheckIn.Issuance | app/api/check-in/route.ts:44-45 | A complete issuance appends exactly two mint records. |
| CheckIn.Post | app/api/check-in/route.ts:8-57 | A refusal leaves the ledger untouched. A throw before the first mint also leaves it untouched. A failed first mint adds no record. A failed second mint keeps the first record. Success adds both records in order and answers 200 with `tokensEarned` 4 and the two signatures. Every throw answers 500 with its message. Once the mints start, the only accounts added are the participant's (when its account step succeeds) and then the operator's own (when the first mint and the second account step succeed). |
| CheckIn.IssuanceBalances | app/api/check-in/route.ts:44-45 | A complete issuance raises the participant's account by 4·10^9 base units and the operator's by 10^9 (5·10^9 when they are the same account). |
| Page.App.SignUp | app/page.tsx:64-83 | The new user has balance 0 and a "0x" wallet. The messages become the single assistant greeting, and the screen becomes the dashboard. |
| Page.App.FindMatches | app/page.tsx:85-125 | Without a user nothing happens. Otherwise the screen becomes the chatbot, the user and the catalogue are posted, and a match reply is announced and becomes the current match; any other reply changes nothing more. |
| Page.App.AcceptMatch | app/page.tsx:127-135 | The screen becomes the chat room, and the messages are replaced by one System welcome naming the matched project ("undefined" without one). |
| Page.App.TypeChatInput | app/page.tsx:454 | The chat input holds the typed text, and nothing else changes. |
| Page.App.SendMessage | app/page.tsx:137-174 | Blank input or no user changes nothing and sends nothing. Otherwise the input is posted as the user's message and cleared. The history sent is the list before that message, and a chat reply is appended as the assistant's. |
| Page.App.SubmitProof | app/page.tsx:176-210 | Without a user and a match nothing happens. Otherwise the mint request names the wallet, the match and the user alone, and only a successful mint adds the match's reward and posts the verifier's notice. |
| Page.App.QRCheckIn | app/page.tsx:212-216 | The token becomes `alias + "-" + decimal(now)` ("undefined" without a user), and the screen becomes the QR screen. |
| Page.App.SimulateScan | app/page.tsx:218-243 | Without a user nothing happens. Otherwise the wallet, the project id (or "1") and the token are posted. Only a successful check-in changes the balance, by exactly the tokens earned. |
| Page.CheckInToken | app/page.tsx:213 | The token is the alias ("undefined" without a user), one `-`, then the decimal text of the clock. Each part can be cut back out at its position. |
| Page.RoleOf | app/page.tsx:156 | A stored message gets the assistant role exactly when "AI Assistant" sent it, and never the system role. |
| Page.AddNum | app/page.tsx:196 | The sum is a number exactly when both operands are, and it exceeds the old balance by exactly the added amount. |
| Page.ChatHistory | app/page.tsx:156 | The history has one entry per message, in order, with the message's content and the role `RoleOf(sender)`. |
| Page.ChatHistoryRoles | app/page.tsx:156 | A replayed message has the assistant role exactly when "AI Assistant" sent it, and the user role otherwise. |
| Page.ChatRequestFrames | app/page.tsx:154-157 | The messages the assistant receives are two more than the stored ones. The replayed history sits between the instruction and the new text, which comes last. |
| Page.TokenRoundTrip | app/page.tsx:213 | For an alias without `-`, the route reads back exactly the issuing time: the field is its decimal text, and it parses to that time. |
| Page.HyphenatedAliasMisread | app/page.tsx:213 | For an alias with a `-`, the route reads the alias's own second field as the time, whatever the issuing time. |
| Page.HyphenatedAliasNeverExpires | app/page.tsx:213 | Tokens issued to "mary-jane" never parse, so they never expire. |
| Page.HyphenatedAliasAlwaysExpired | app/page.tsx:213 | Tokens issued to "bob-1" are read as issued at millisecond 1, so they are expired at every clock past 300001. |
| Page.IssuedTokenAcceptedIffFresh | app/page.tsx:218-230 | The scan of a token issued to a user whose alias has no `-` passes the route's checks, with the mint configured, exactly when the token is at most five minutes old. |
| Page.ScanProjectDefault | app/page.tsx:228 | The check-in always names a project: the match's project id when there is one, "1" without a match. |
| Page.MintRequestIgnoresProof | app/page.tsx:182-190 | The mint request carries the wallet, the match's project and task, and the user as the only team member. It carries no proof text. |
| Solana.Network | utils/solana.ts:4 | The network is the variable's value when it is set and non-empty, and "devnet" otherwise. It is never empty. |
| Solana.RpcEndpoint | utils/solana.ts:5-7 | The endpoint is one of the two URLs, and it is mainnet exactly when the network is "mainnet-beta". |
| Solana.EndpointOfEnvironment | utils/solana.ts:4-7 | The server is on mainnet exactly when the variable is "mainnet-beta", and on devnet when it is unset. |
| Solana.ToBaseUnits | utils/solana.ts:50 | `amount` whole tokens are `amount · 10^9` base units, the 9 decimals of the reward mint. |
| Solana.BaseUnitsRoundTrip | utils/solana.ts:50 | The base units are `amount · 10^9`, a multiple of 10^9, and they read back as `amount` under the mint's 9 decimals. |
| Solana.GetServerKeypair | utils/solana.ts:11-18 | An unset or empty key throws "SOLANA_PRIVATE_KEY not configured". Otherwise the result is that of decoding the key. |
| Solana.GetServerKeypairAsWritten | utils/solana.ts:11-18 | As written, loading always throws: "SOLANA_PRIVATE_KEY not configured" without a key, and "Unknown encoding: base58" with one. |
| Solana.KeyNeverLoadsAsWritten | utils/solana.ts:16 | For every configured key, the as-written loading fails where a base58 decoding yields the keypair. |
| Solana.BalanceAppend | utils/solana.ts:44-51 | The balance minted into an account over two consecutive parts of the log is the sum of the two. |
| Solana.Ledger.CreateMint | utils/solana.ts:21-27 | On success the new mint is recorded with the given authorities and decimals. On a throw nothing changes. |
| Solana.Ledger.GetOrCreateAssociatedTokenAccount | utils/solana.ts:37-42 | On success the account of this owner for this mint exists afterwards, whether it existed before or not. |
| Solana.Ledger.MintTo | utils/solana.ts:44-51 | On success exactly one record is appended to an existing account of that mint, and the signature is its position. |
| Solana.CreateCSToken | utils/solana.ts:20-29 | The new mint has the payer as both mint and freeze authority and 9 decimals. |
| Solana.FirstFault | utils/solana.ts:31-54 | The account step's error wins, and the mint step's error counts only when the account step succeeds. The call fails exactly when one of its two steps throws. |
| Solana.MintCSTokens | utils/solana.ts:31-54 | The recipient's associated account is ensured first. Then `amount · 10^9` base units are minted into exactly that account, signed by the payer. The first failing step's message is thrown, and a failure adds no record. |
| Nft.MilestoneMetadata | utils/nft.ts:21-30 | The metadata has exactly three attributes. |
| Nft.MilestoneArgs | utils/nft.ts:17-34 | The payer's key is the signing identity and the recipient owns the token. The metadata is the milestone's, its name is "project - milestone", the on-chain name is "project Milestone", and the fee is 500 basis points. |
| Nft.MintMilestoneNFT | utils/nft.ts:9-37 | The result is that of one creation call signed by the payer, giving the token to the recipient with the milestone's metadata, the name "project Milestone" and a 500 basis point fee. |
| Nft.AttributesRecoverInputs | utils/nft.ts:25-29 | The attributes come in order Project, Milestone, Team Size, and the team size parses back to the team's length. |
| Nft.DescriptionNamesTeam | utils/nft.ts:23 | Every team member's name occurs in the description. |
| Nft.EmptyTeam | utils/nft.ts:23-28 | With no team, nothing follows "Team: " and the team size is "0". |
| Nft.ImageKeyedByProject | utils/nft.ts:24 | Two milestones get the same image exactly when their project names are equal. |
| MintNft.Post | app/api/mint-nft/route.ts:6-37 | Status 200 comes exactly with a minted body, and 400 exactly when a required field is missing. No other status occurs besides 500. |
| MintNft.MissingFieldsNoMint | app/api/mint-nft/route.ts:10-15 | A missing recipient, project or milestone gives 400 "Missing required fields", and no creation call is made. |
| MintNft.NoMintAsWritten | utils/solana.ts:16 | With the key loading as written, a milestone request with its fields present never reaches the creation call and answers 500, with "Unknown encoding: base58" when a key is set. |
| MintNft.CreationArguments | app/api/mint-nft/route.ts:17-26 | The creation call gets the request's fields and the payer's identity, with an empty team (size "0") when none is sent. |
| MintNft.ReplyMatchesCreation | app/api/mint-nft/route.ts:20-36 | Success reports the created address and its explorer link. Every throw reports 500 with its message. |
| MintNft.TeamOrEmpty | app/api/mint-nft/route.ts:25 | A sent team list is kept as it is, even an empty one, because an array is truthy. A missing or null list becomes the empty team. |
| MintNft.ExplorerUrl | app/api/mint-nft/route.ts:31 | The link is the explorer prefix, the address, "?cluster=" and the raw variable ("undefined" when unset), and each part can be cut back out. |
| AiMatch.Post | app/api/ai-match/route.ts:4-25 | 400 occurs exactly for an action other than "match" or "chat". 200 occurs exactly for a successful body, and a match or chat body only for its own action. |
| AiMatch.Calls | app/api/ai-match/route.ts:9-20 | A request makes at most one completion call, and none exactly for an invalid action. |
| AiMatch.ReplyDependsOnlyOnCall | app/api/ai-match/route.ts:9-20 | Two services that agree on the one call made give the same reply. |
| AiMatch.DispatchesToHelper | app/api/ai-match/route.ts:9-24 | "match" returns the matcher's result and "chat" the reply text. A throw gives 500 with its message, and any other action gives 400 "Invalid action". |
| OpenAi.ProjectLines | utils/openai.ts:36 | There is one line per project, in input order, each "- name: description (Needs: skills)". |
| OpenAi.ProjectListLines | utils/openai.ts:36 | For a non-empty catalogue, cutting the project list at newlines gives back exactly one line per project, in order, when no field holds a newline. An empty catalogue leaves one empty line in the prompt. |
| OpenAi.ParseReply | utils/openai.ts:55 | `JSON.parse(content \|\| '{}')`: a null or empty content, or "{}", gives the empty object. Any other content is handed to the parser as it is. |
| OpenAi.MatchPrompt | utils/openai.ts:28-47 | The prompt starts with the matchmaker's introduction, followed at once by the alias, and ends with the expected JSON shape. |
| OpenAi.GetAIMatch | utils/openai.ts:27-57 | A throw is passed on, and an absent or empty reply becomes a match with every field missing. Any other reply is returned exactly as parsed, with no field checked. |
| OpenAi.MatchPromptQuotesProfile | utils/openai.ts:28-34 | The prompt contains the alias, the interests and the skills verbatim. |
| OpenAi.MatchPromptListsProjects | utils/openai.ts:35-36 | The prompt contains every project's line. |
| OpenAi.VerifyPromptImageLine | utils/openai.ts:64-76 | An empty URL counts as none. A non-empty URL inserts exactly "Image URL: url" after the proof line. |
| OpenAi.VerifyTaskCompletion | utils/openai.ts:59-86 | A throw is passed on, and an absent or empty reply becomes a verdict with neither field, so `verified` is undefined. Any other reply is returned exactly as parsed. |
| OpenAi.ChatMessages | utils/openai.ts:92-99 | The message list has length \|history\| + 2. It is the system instruction, then the history unchanged, then the new user message. |
| OpenAi.ChatWithAI | utils/openai.ts:88-107 | The chat fails exactly when the service throws, with its message. A null or empty reply becomes "", and any other reply is returned as is. |
| SetupCheck.CountTrue | scripts/setup-check.js:70 | The count is at most the number of flags. It equals that number exactly when all flags are set, and 0 exactly when none is. |
| SetupCheck.CheckVariables | scripts/setup-check.js:10-65 | The OpenAI flag holds exactly for a key starting "sk-", and the network flag exactly for "devnet" or "mainnet-beta". The key, app URL and token-mint flags hold exactly for a non-empty variable. |
| SetupCheck.Tips | scripts/setup-check.js:94-105 | Tips appear exactly when the four required flags hold. The faucet tip appears only for devnet and the create-token tip only without a mint, and the last two tips are always usage and explorer. |
| SetupCheck.Run | scripts/setup-check.js:10-105 | The flags are as above. `required` is the conjunction of the four required flags, so the token mint never affects it. `total` counts the flags, and the tips are as above. |
| SetupCheck.TotalBounds | scripts/setup-check.js:69-70 | The count is at most 5. With the required four it is 4 plus one for a token mint. |
| SetupCheck.OpenAiFlagNeedsPrefix | scripts/setup-check.js:19-21 | A key with the "sk-" prefix is non-empty, and the empty key never has it. |
| SetupCheck.NetworkFlagAgainstServer | scripts/setup-check.js:31-41 | An unset network fails the check although the server then uses devnet. Each accepted value selects its own endpoint. |
| JsText.Split | app/api/check-in/route.ts:20 | `split` gives at least one part, no part contains the separator, and joining the parts with it gives the input back. |
| JsText.SplitJoin | utils/openai.ts:36 | Splitting a join of separator-free parts gives the parts back. |
| JsText.TrimEmptyIffBlank | app/page.tsx:138 | `trim()` is empty exactly when the text is all whitespace. |
| JsText.ParseInt | app/api/check-in/route.ts:21 | Blank text gives NaN. A result is negative only after a leading `-`, and never negative without one. |
| JsText.ParseDecimalString | app/api/check-in/route.ts:21 | `parseInt` of the decimal text of a natural number gives that number. |

## Findings

| source | as written | input that shows it | evidently intended | confidence | as-written member | corrected member |
|---|---|---|---|---|---|---|
| utils/solana.ts:16 | The key is decoded with `Buffer.from(key, 'base58')`, and Node's `Buffer` has no base58 encoding, so the call throws "Unknown encoding: base58". | Any non-empty SOLANA_PRIVATE_KEY: every check-in that passes the field, expiry and mint checks, and every milestone mint with its fields present, answers 500 "Unknown encoding: base58". | A base58 decoding of the key into the secret key bytes. | high, not executed | Solana.GetServerKeypairAsWritten, Solana.KeyNeverLoadsAsWritten, CheckIn.NoIssuanceAsWritten, MintNft.NoMintAsWritten | Solana.GetServerKeypair |

## Left out

- **Rendering:** the JSX screens, the scroll effect, the loading and mobile-menu flags, alerts and console output are UI, not logic.
- **Clock and randomness:** `Date.now()` and `Math.random()` are parameters. Message timestamps (`new Date()`) are not kept.
- **Numbers:** all numbers are mathematical integers, so floating point is not modelled. Clock values and amounts are assumed to be below 2^53, where JavaScript integers are exact.
- JsText.ParseInt: it reads leading whitespace, a sign, the "0x" prefix and the leading digit run exactly, but the value is a mathematical integer, so the precision JavaScript loses above 2^53 is not modelled.
- **SDK internals:** `Connection`, `createMint`, `getOrCreateAssociatedTokenAccount`, `mintTo`, `Metaplex.nfts().create` and `new PublicKey` validation are foreign calls. They are modelled as an abstract ledger plus fault arguments, and the created NFT's address is an outcome passed in.
- **Fees and confirmation:** the ledger does not model transaction fees, confirmation, or that a signature is a base58 string; a signature is the record's position in the log.
- **OpenAI:** completions are a network call to a model, so their content is an arbitrary string or null.
- **JSON.parse:** what it makes of non-empty text is a parameter. JSON serialization of request bodies and of the NFT URI is not modelled; the metadata is kept as a record.
- **Body field types:** request bodies are assumed to carry strings (or lists of strings) where the code expects them. A non-string `qrData`, for example, would make `split` throw a TypeError that answers 500.
- **JSON null:** a `null` field in an AI reply would render as "null" rather than "undefined"; the model treats every missing field as undefined.
- Page.AddNum: a `null` reward is not told apart from a missing one. JavaScript gives `balance + null == balance`, but the model gives NaN for both, so Page.App.SubmitProof turns the balance into NaN where the code would keep it.
- **Malformed request bodies:** `await request.json()` throws on a body that is not JSON, and each route then answers 500 (app/api/check-in/route.ts:10, app/api/mint-nft/route.ts:8, app/api/ai-match/route.ts:6). The route models take the body as already-parsed fields, so this 500 path is not modelled.
- Page.App.SubmitProof: a string-valued reward, which JavaScript would concatenate to the balance, is not modelled; the reward is a number or undefined.
- Page.App.SendMessage: a success reply of the wrong kind (a match body answering a chat) is treated like a failed reply. The code would append a message whose content is undefined.
- Page.App.FindMatches: a success reply without a match body is treated like a failure. The code throws a TypeError there, which it catches.
- **Screen changes:** the move from the landing screen to the signup screen is a button in the markup, not a handler.
- **createWallet** (utils/solana.ts:56-62): random key generation.
- **scripts/create-token.js:** a one-shot deployment script. Its endpoint choice repeats utils/solana.ts:4-7.
- **utils/nft.ts:4-7:** this endpoint choice repeats `Solana.RpcEndpoint`.
- **Concurrency:** concurrent requests and their interleaving are not modelled; every call is sequential.
- **Verify route:** no route or client handler calls `verifyTaskCompletion`. It is modelled as `OpenAi.VerifyTaskCompletion`, and its reply is not validated.
