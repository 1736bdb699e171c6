# FlowFi payment agent: a verified model of its routing core

FlowFi is a chat agent that turns a payment request in plain language
("send 10 USDC to vitalik.eth on Base") into candidate routes. It reads the
recipient's ENS profile for a preferred chain, token, slippage and maximum
fee. It merges Uniswap v4 hook routes with LI.FI routes, or offers a single
x402 payment route when the target URL answers HTTP 402. Around this sit
several parts:

- a fixed-window rate limiter and a 30-second quote cache;
- the single-vault (YieldRoute) and multi-vault routers that build LI.FI
  contract-call requests;
- MEV-protection helpers;
- an in-memory invoice state machine;
- payment-receipt subnames with their JSON-file store;
- small request validators;
- ERC-7828 `name@chain` notation;
- the route-path parser of the route visualizer.

The model is written in Dafny, one module per source file:

| module | source |
|---|---|
| `ChatRoute` | `src/app/api/chat/route.ts` |
| `RateLimit` | `src/lib/rate-limit.ts` |
| `RouteCache` | `src/lib/routing/route-cache.ts` |
| `YieldRouter` | `src/lib/routing/yield-router.ts` |
| `MultiVaultRouter` | `src/lib/routing/multi-vault-router.ts` |
| `ProtectedDeposit` | `src/lib/mev/protected-deposit.ts` |
| `X402Client` | `src/lib/x402/client.ts` |
| `X402Demo` | `src/app/api/x402-demo/route.ts` |
| `InvoiceApi` | `src/app/api/invoice/route.ts` |
| `InvoiceEnsApi` | `src/app/api/invoice/ens/route.ts` |
| `ExecuteApi` | `src/app/api/execute/route.ts` |
| `Receipts` | `src/lib/ens/receipts.ts` |
| `ReceiptStore` | `src/lib/ens/receipt-store.ts` |
| `ReceiptsApi` | `src/app/api/ens/receipts/route.ts` |
| `Multichain` | `src/lib/ens/multichain.ts` |
| `RouteVisualizer` | `src/components/route-visualizer.tsx` |

Helper modules:

- `Wrappers`: `Option` and `Result`.
- `Strings`: JavaScript's string operations used by the code. These are
  `||` on strings, `includes`, `startsWith`, `endsWith`, `toLowerCase`,
  `trim`, `join` and integer formatting.
- `Numbers`: `parseFloat`, and division that truncates toward zero.
- `JsonText`: `JSON.stringify` and `JSON.parse` of strings.
- `Types`: the shared `RouteOption` and `ParsedIntent` of
  `src/lib/types.ts`. `RouteOption` gains the `routeType` field that the
  routers set.
- `Lifi`: the contract-call quote request and the token registry that both
  routers use.

How the model is built:

- **Collaborators are values.** The intent parser, the ENS resolver,
  `fetch`, `findRoutes`, `findV4Routes`, `getContractCallsQuote`,
  `calculateStrategyAmounts`, the token registry and the ENS readers and
  writers are function-valued parameters. A thrown error is `Err(message)`.
- **Clocks and randomness are parameters.** The clock is an explicit `now`
  (milliseconds) or `nowIso` value. Random ids and salts are explicit too.
- **Stores are classes.** The rate limiter, the quote cache, the invoice
  map and the receipt file each have a `map` field that their methods
  reassign.
- **Each store method is specified by a pure step function**, for example
  `windows == old(windows)[key := NextEntry(...)]`. The lasting properties
  are lemmas about those functions: expiry, "other keys untouched",
  "paid is final" and "at most twenty calls per window".

## Model

| member | source | states |
|---|---|---|
| ChatRoute.Post | src/app/api/chat/route.ts:9-17 | Every call is first counted in the client's window. A client over the limit gets 429 "Too many requests…" and nothing else is evaluated. Otherwise the reply is the handler's response. |
| ChatRoute.FirstField | src/app/api/chat/route.ts:10 | The first comma-separated field of X-Forwarded-For is a prefix with no comma, ending exactly at the first comma. |
| ChatRoute.ClientKey | src/app/api/chat/route.ts:10 | The rate-limit key is never empty. It is "unknown" when the header is absent. |
| ChatRoute.FirstFieldOfList | src/app/api/chat/route.ts:10 | For `a,b` with no comma in `a`, the first field is `a`. |
| ChatRoute.ClientKeyIgnoresLaterHops | src/app/api/chat/route.ts:10 | Only the first hop of X-Forwarded-For identifies the client. |
| ChatRoute.Respond | src/app/api/chat/route.ts:18-23 | An unreadable body gives 500 with the error's message. A missing or empty message gives 400 "Message is required". A failure is always a 400 or a 500. |
| ChatRoute.EnsStage | src/app/api/chat/route.ts:34-77 | Only a recipient ending in `.eth` is resolved, and a resolver error propagates. A name with no address is `Unresolved`. Otherwise it yields the intent with the recipient's defaults applied. It also yields an ENS context built wholly from the resolver's answer: the resolved address, the "Resolved <name> → …" note, the profile slippage, the maximum fee, the avatar and the description. |
| ChatRoute.ActionMessage | src/app/api/chat/route.ts:80-88 | A transfer message starts "I'll transfer <amount> <token>" and ends ". Finding the best route...". A swap message starts "I'll swap <amount> <from> to <to>" and ends ". Comparing rates...". |
| ChatRoute.ActionMessageMentions | src/app/api/chat/route.ts:81-87 | The message names the destination chain (" on <chain>") whenever the intent has one. A transfer also names its recipient (" to <address>"), and the resolved address takes precedence over the typed one. |
| ChatRoute.ApplyEnsDefaults | src/app/api/chat/route.ts:63-68 | The preferred chain and token fill only empty intent fields, so explicit values are never overwritten. Afterwards a field is set exactly when the intent or the profile had it. Every other field is unchanged. |
| ChatRoute.EnsDefaultsIdempotent | src/app/api/chat/route.ts:63-68 | Applying the preferences twice is the same as applying them once. |
| ChatRoute.ProfileSlippage | src/app/api/chat/route.ts:70-75 | The profile slippage is used exactly when it parses to a positive number. It then becomes that number divided by 100, which is still positive. |
| ChatRoute.HalfPercentSlippage | src/app/api/chat/route.ts:70-75 | A profile slippage of "0.5" (percent) becomes 0.005. |
| ChatRoute.EffectiveSlippage | src/app/api/chat/route.ts:146 | `slippage ?? ensSlippage`: the caller's slippage, when sent, wins over the profile's. |
| ChatRoute.EnsNote | src/app/api/chat/route.ts:43-60 | The note starts with "Resolved <name> → <address>" and is never empty. |
| ChatRoute.WithNote | src/app/api/chat/route.ts:133-136 | The ENS note, when there is one, comes before the message. Without a note the message is unchanged. |
| ChatRoute.FullUrl | src/app/api/chat/route.ts:92-97 | A URL starting with '/' is prefixed with `<proto or http>://<host or localhost:3000>`. Any other URL is unchanged. The result always ends with the given URL. |
| ChatRoute.PaywallRoute | src/app/api/chat/route.ts:103-111 | The paywall route has id "x402-pay", provider "x402", fee "<amount> <token>" and no route type. |
| ChatRoute.PaywallReply | src/app/api/chat/route.ts:89-130 | A detected paywall gives exactly one route, the paywall route, and no ENS profile. No URL, or no paywall, gives no routes. The address resolved from ENS is returned either way. |
| ChatRoute.FromChain | src/app/api/chat/route.ts:142 | The source chain is the intent's when given, else "ethereum". It is never empty. |
| ChatRoute.ToChain | src/app/api/chat/route.ts:143 | The destination chain is the intent's when given. It is never empty. |
| ChatRoute.SameChainByDefault | src/app/api/chat/route.ts:142-143 | Without a destination chain, the route stays on the source chain. |
| ChatRoute.LifiRequest | src/app/api/chat/route.ts:141-156 | The LI.FI request comes from the caller's address, or the zero address when none is given. It uses the chosen chains and the effective slippage. |
| ChatRoute.MergeRoutes | src/app/api/chat/route.ts:158-170 | For a swap, the v4 routes come first and are followed by all LI.FI routes. For a transfer, only the LI.FI routes are used. |
| ChatRoute.KeepWithin | src/app/api/chat/route.ts:176-179 | The filter keeps exactly the routes whose stripped fee is NaN or at most the maximum, and never adds routes. |
| ChatRoute.KeepWithinAppend | src/app/api/chat/route.ts:176-179 | Filtering a concatenation is filtering each part and concatenating the results. So the kept routes stay in their order, duplicates included. |
| ChatRoute.KeepWithinAllWithin | src/app/api/chat/route.ts:176-179 | A list whose every route is within the fee passes through unchanged. |
| ChatRoute.KeepWithinIdempotent | src/app/api/chat/route.ts:176-179 | Filtering twice is the same as filtering once. |
| ChatRoute.PrintedFeeWithin | src/app/api/chat/route.ts:177-178 | A fee printed as "$d.cc" passes the filter exactly when that many dollars are within the maximum. |
| ChatRoute.MaxFeeLimit | src/app/api/chat/route.ts:173-175 | The filter is active exactly when the maximum fee parses to a positive number. |
| ChatRoute.ApplyMaxFee | src/app/api/chat/route.ts:173-187 | With the filter inactive, the list is unchanged. With it active, the result is the filtered list when that is non-empty. Otherwise it is the whole list, with the "No routes found within … max fee" note. |
| ChatRoute.MaxFeeOutcome | src/app/api/chat/route.ts:173-187 | Either the routes shown are exactly the routes within the fee and there is at least one, or the list is unchanged, none of its routes is within the fee, and the note is added. |
| ChatRoute.EmptyListStillNoted | src/app/api/chat/route.ts:180-185 | When a maximum is set, an empty route list still gets the note. |
| ChatRoute.ProfileOf | src/app/api/chat/route.ts:193-196 | The ENS profile is returned exactly when there is an avatar or a description. |
| ChatRoute.RoutesReply | src/app/api/chat/route.ts:138-204 | A `findRoutes` error gives 500 with its message. Otherwise the routes are the fee filter applied to the merged list. The content is the ENS note, then the action message, then the max-fee note when the filter keeps nothing. The reply carries the intent, the resolved address and the profile built from the ENS context. |
| ChatRoute.SwapFilterKeepsOrder | src/app/api/chat/route.ts:158-187 | For a swap with the fee filter active, the routes shown are the kept v4 routes followed by the kept LI.FI routes. When nothing is kept, they are the whole merged list. |
| ChatRoute.UnresolvedNameHasNoRoutes | src/app/api/chat/route.ts:34-41 | A `.eth` recipient that resolves to no address gets "Could not resolve ENS name…", the intent, and no routes, address or profile. |
| ChatRoute.PreferencesOnlyFillGaps | src/app/api/chat/route.ts:63-68 | In any reply, the intent is the parsed intent with at most its empty destination chain and token filled in. |
| ChatRoute.RoutesOnlyWhereOffered | src/app/api/chat/route.ts:89-190 | A `pay_x402` reply that carries routes carries exactly one: the x402 paywall route. |
| ChatRoute.TransfersGetRoutes | src/app/api/chat/route.ts:138-190 | A transfer or swap reply without routes happens only for an unresolved ENS name. |
| RateLimit.RateLimiter.constructor | src/lib/rate-limit.ts:6 | No client has a window at start. |
| RateLimit.RateLimiter.IsRateLimited | src/lib/rate-limit.ts:11-22 | Only the caller's entry changes. A missing or passed window restarts at count 1 and is not limited. Otherwise the count goes up by one, even when the call is refused. The call is refused when the count exceeds 20. |
| RateLimit.CallsShareWindow | src/lib/rate-limit.ts:11-22 | Calls that open a window and arrive no later than its end share that window, and its count is the number of calls. |
| RateLimit.TwentyPerWindow | src/lib/rate-limit.ts:8-22 | Within one window, the k-th call is refused exactly when k > 20. |
| RateLimit.ExpiredWindowResets | src/lib/rate-limit.ts:15-18 | A call after the window's end starts a new window and is allowed. |
| RouteCache.Cache.constructor | src/lib/routing/route-cache.ts:6 | The cache starts empty. |
| RouteCache.Cache.Get | src/lib/routing/route-cache.ts:10-18 | A read returns the data unless the key is absent or expired (`now > expiresAt`). An expired entry is deleted, and nothing else changes. |
| RouteCache.Cache.Set | src/lib/routing/route-cache.ts:20-22 | A write replaces the key's entry and sets its expiry to now + 30000 ms. |
| RouteCache.HitWithinTtl | src/lib/routing/route-cache.ts:8-21 | Reading back within 30 s of the write, the end included, returns the data and removes nothing. |
| RouteCache.MissAfterTtl | src/lib/routing/route-cache.ts:13-16 | Reading after the TTL returns nothing and removes the key. |
| RouteCache.OtherKeysUntouched | src/lib/routing/route-cache.ts:10-22 | Writes and reads of one key never change what another key reads. |
| RouteCache.ReadsAreStable | src/lib/routing/route-cache.ts:10-18 | The deletion a read makes does not change what later reads return. |
| Lifi.ChainIdOrEthereum | src/lib/routing/yield-router.ts:65 | An unknown chain name falls back to Ethereum's chain id. |
| Lifi.SlippageOrDefault | src/lib/routing/yield-router.ts:121 | A missing or zero slippage becomes 0.005. |
| Lifi.ToBaseUnits | src/lib/routing/yield-router.ts:83-85 | A number exists exactly when the amount parses. It is then the floor of amount·10^decimals. |
| Lifi.Pad2 | src/lib/routing/yield-router.ts:146 | Two digits whose value is the number. |
| Lifi.FormatFee | src/lib/routing/yield-router.ts:146 | The fee is '$', the whole dollars in decimal digits without a leading zero, '.', then exactly two digits holding the remaining cents. |
| Lifi.FormatDuration | src/lib/routing/yield-router.ts:138-140 | A known duration is ⌈seconds/60⌉ " min". An unknown or zero duration is "~3 min". |
| Lifi.FormatFeeReadsBack | src/lib/routing/yield-router.ts:146 | A fee printed from a cent count reads back, through the chat handler's fee parsing, as exactly that many dollars. |
| YieldRouter.Validate | src/lib/routing/yield-router.ts:65-80 | The checks run in the source's order: source token, then USDC on Base, then the vault, each with its message. A success carries the resolved chain ids and addresses. |
| YieldRouter.StepLabels | src/lib/routing/yield-router.ts:126-129 | One label per step: the tool's name, else the step type. |
| YieldRouter.YieldRoute | src/lib/routing/yield-router.ts:126-150 | The route has id "yield-route-0" and provider "LI.FI + YieldRouter", and is a contract-call route. Its path is "YieldRoute: <steps> -> Vault", and its fee and time come from the quote. |
| YieldRouter.GetYieldRouteQuote | src/lib/routing/yield-router.ts:62-160 | A validation error returns before the cache is touched. A NaN amount rejects. A live cache entry is returned without asking LI.FI. A LI.FI error is returned. Otherwise the new quote is cached under `yield:<chain>:<recipient>:<vault>:<wei>` and returned. |
| YieldRouter.CacheKeySeparatesAmounts | src/lib/routing/yield-router.ts:87 | Two requests that differ only in their wei amount never share a cache key. |
| YieldRouter.EnabledVaultPassesVaultCheck | src/lib/routing/yield-router.ts:165-172 | A vault that `isYieldRouteEnabled` accepts never fails the router's vault check. |
| YieldRouter.ZeroVaultNeverEnabled | src/lib/routing/yield-router.ts:165-172 | An empty or zero vault is neither enabled nor accepted by validation. |
| MultiVaultRouter.MultiVaultIffTwoActive | src/lib/routing/multi-vault-router.ts:252-256 | Multi-vault routing is needed exactly when two different allocations both have a positive percentage. |
| MultiVaultRouter.ActiveCountPositive | src/lib/routing/multi-vault-router.ts:252-256 | Some allocation is active exactly when one has a positive percentage. |
| MultiVaultRouter.RouteableStrategies | src/lib/routing/multi-vault-router.ts:101-103 | The filter keeps exactly the non-liquid strategies whose amount is positive, and never yields more strategies than it was given. |
| MultiVaultRouter.RouteableStrategiesAppend | src/lib/routing/multi-vault-router.ts:101-103 | Filtering a concatenation is filtering each part and concatenating the results, so the routeable strategies keep their input order. |
| MultiVaultRouter.PercentageOf | src/lib/routing/multi-vault-router.ts:120 | The percentage is that of the first allocation naming the strategy, or 0 when none does. |
| MultiVaultRouter.Report | src/lib/routing/multi-vault-router.ts:117-121 | There is one report line per strategy amount, in order, with its allocation's percentage. |
| MultiVaultRouter.LiquidRoute | src/lib/routing/multi-vault-router.ts:107-115 | The direct-transfer route has id "multi-vault-liquid", fee "$0.00" and the standard route type. |
| MultiVaultRouter.ErrorIsFinal | src/lib/routing/multi-vault-router.ts:158-161 | Once the loop returns an error, later strategies do not change the outcome. |
| MultiVaultRouter.BuildContractCalls | src/lib/routing/multi-vault-router.ts:129-183 | The loop returns exactly the call list, or the error, that its one-step specification gives. |
| MultiVaultRouter.PushShape | src/lib/routing/multi-vault-router.ts:133-182 | One step fails only for restaking without WETH. A strategy other than 'yield' or 'restaking' leaves the list unchanged. Those two keep the earlier calls and append exactly the call the strategy demands, with the amount in USDC base units. For 'yield' that is USDC into the YieldRouter with gas limit 300000, depositing into the configured vault. For 'restaking' it is WETH into the restaking router with gas limit 350000 and a 95% minimum out. |
| MultiVaultRouter.CallsForFails | src/lib/routing/multi-vault-router.ts:155-161 | The call list fails, with the WETH message, exactly when WETH is unavailable on Base and some strategy restakes. |
| MultiVaultRouter.CallsForCalls | src/lib/routing/multi-vault-router.ts:129-183 | A successful call list has one well-formed call per 'yield' or 'restaking' strategy, in order. The j-th call is the one the j-th such strategy demands: token, router, gas limit, amount in base units and encoded deposit, as for PushShape. |
| MultiVaultRouter.PathParts | src/lib/routing/multi-vault-router.ts:221-225 | Path parts exist exactly when every strategy is known. Each part is "<pct>% <name>". |
| MultiVaultRouter.MultiVaultRoute | src/lib/routing/multi-vault-router.ts:227-235 | The route has id "multi-vault-route" and provider "LI.FI + MultiVault", and is a contract-call route. Its path is "MultiVault: " followed by the parts joined with " + ". |
| MultiVaultRouter.Outcome | src/lib/routing/multi-vault-router.ts:81-247 | The source token is checked first, then USDC on Base. A result reports every strategy amount with its percentage and holds at most one quote. |
| MultiVaultRouter.Request | src/lib/routing/multi-vault-router.ts:195-204 | The quote request goes from the source chain and token to chain "base" and USDC on Base. It carries the built calls and the summed amount in base units. |
| MultiVaultRouter.RoutedSuccess | src/lib/routing/multi-vault-router.ts:185-235 | With something routeable, a success comes only when the calls, the total, the quote and the path parts all exist. Its quotes are exactly [quote], and its route is the multi-vault route over those parts and that quote. |
| MultiVaultRouter.GetMultiVaultRouteQuote | src/lib/routing/multi-vault-router.ts:81-247 | The method, with its loop, returns exactly the specified outcome. |
| MultiVaultRouter.AllLiquidIsDirect | src/lib/routing/multi-vault-router.ts:105-123 | With nothing routeable, the result is the direct-transfer route and no quote is requested. |
| MultiVaultRouter.RoutedRequest | src/lib/routing/multi-vault-router.ts:125-183 | With something routeable, the call list has one well-formed call per routeable 'yield' or 'restaking' strategy, and the j-th call is the one the j-th such strategy demands. It fails only for restaking without WETH, and that failure is the outcome. |
| MultiVaultRouter.YieldVaultFallback | src/lib/routing/multi-vault-router.ts:135-146 | Every routed 'yield' call deposits USDC on Base for the recipient. It goes into `vaults.yield` when that is given and non-empty, and into the default yield vault otherwise. |
| ProtectedDeposit.CalculateMinShares | src/lib/mev/protected-deposit.ts:114-119 | For slippage between 0 and 10000 bps, the minimum lies between 0 and the expected shares. Zero slippage gives the expected shares. The shares given up are the truncated `expected·bps/10000`. |
| ProtectedDeposit.FullSlippageFloorsAtZero | src/lib/mev/protected-deposit.ts:114-119 | A slippage of 10000 bps leaves a minimum of zero. |
| ProtectedDeposit.MinSharesMirror | src/lib/mev/protected-deposit.ts:114-119 | BigInt division truncates toward zero, so negating the input negates the result. |
| ProtectedDeposit.BuildMEVProtectedContractCall | src/lib/mev/protected-deposit.ts:175-192 | The call goes to the router and needs a deposit. It calls `lifiCallback(vault, recipient, minShares)` with the minimum for shares equal to the assets, which is at most the assets. |
| ProtectedDeposit.HexByte | src/lib/mev/protected-deposit.ts:161 | A byte is two lower-case hex digits whose value is the byte. |
| ProtectedDeposit.HexBytes | src/lib/mev/protected-deposit.ts:161 | Two hex digits per byte. |
| ProtectedDeposit.GenerateSalt | src/lib/mev/protected-deposit.ts:158-162 | The salt is "0x" followed by 64 hex digits. |
| ProtectedDeposit.HexBytesRoundTrip | src/lib/mev/protected-deposit.ts:161 | The hex text decodes back to the bytes. |
| ProtectedDeposit.SaltInjective | src/lib/mev/protected-deposit.ts:158-162 | Different random bytes give different salts. |
| JsonText.Quote | src/app/api/x402-demo/route.ts:22-27 | A JSON string literal is enclosed in double quotes. |
| JsonText.ReadQuoted | src/lib/x402/client.ts:18-20 | The reader recovers the string, and the text after it, from any escaped string followed by its closing quote. |
| X402Client.Probe | src/lib/x402/client.ts:8-26 | A network error, or any status but 402, gives null. On 402 the body's payment wins. Otherwise the X-Payment header is parsed, and a header that is not valid JSON gives null. |
| X402Client.BodyOverHeader | src/lib/x402/client.ts:12-20 | With a payment in the body, the header is never read. |
| X402Client.Stringify | src/app/api/x402-demo/route.ts:22-27 | The header is a JSON object. |
| X402Client.ParseDetails | src/lib/x402/client.ts:18-19 | A header accepted as a payment opens with `{"amount":"` and closes with `"}`. |
| X402Client.ParseStringify | src/lib/x402/client.ts:18-20 | `JSON.parse(JSON.stringify(d))` gives back `d`. |
| X402Client.ProbeReadsHeader | src/lib/x402/client.ts:12-20 | A 402 response that carries the payment only in its header is probed as that payment. |
| X402Demo.Get | src/app/api/x402-demo/route.ts:5-42 | Without a proof, the response is 402 "Payment Required", with the 0.50 USDC on Base payment in both the body and the X-Payment header. With a proof, it is "Access granted!" and the premium data, stamped with the time. |
| X402Demo.AnyProofGrants | src/app/api/x402-demo/route.ts:33-41 | The proof's content is never checked. |
| X402Demo.ProbeFindsDemoPayment | src/app/api/x402-demo/route.ts:8-31 | Probing the demo without a proof finds its payment, whether the body is read or only the header. With a proof, it finds none. |
| InvoiceApi.Expire | src/app/api/invoice/route.ts:40-43 | Only a pending invoice whose expiry is strictly before now becomes expired. Terms and payment fields are unchanged. |
| InvoiceApi.GetStep | src/app/api/invoice/route.ts:27-46 | No id gives 400 and an unknown id gives 404, with nothing changed. Otherwise the invoice is returned after the expiry check and stored back. |
| InvoiceApi.GetEvolves | src/app/api/invoice/route.ts:27-46 | A read keeps every id, changes no terms, and expires nothing that is not past its expiry. |
| InvoiceApi.NewInvoice | src/app/api/invoice/route.ts:67-83 | A new invoice is pending, with token "USDC" when none is given, and copies the receiver's ENS name and the memo from the body. It expires at now + hours·3600000 exactly when `expiresInHours` is non-zero, and has no payment. |
| InvoiceApi.PostStep | src/app/api/invoice/route.ts:48-92 | Missing receiver or amount gives 400, and an unreadable body gives 500, with nothing stored. Otherwise the new invoice is stored under its id and returned. |
| InvoiceApi.PostTouchesOnlyItsId | src/app/api/invoice/route.ts:85 | A POST changes at most the entry under its new id. |
| InvoiceApi.MarkPaid | src/app/api/invoice/route.ts:119-121 | Paying sets status paid, paidAt and paidTxHash, and keeps the terms. |
| InvoiceApi.PatchStep | src/app/api/invoice/route.ts:94-130 | The guards and their codes: 400 when the id is missing or the status is not "paid", 404 for an unknown id, 400 for an invoice already paid. A pending or expired invoice becomes paid. |
| InvoiceApi.PatchEvolves | src/app/api/invoice/route.ts:94-130 | A PATCH keeps every id and every invoice's terms, and only moves along allowed transitions. |
| InvoiceApi.PaidIsFinal | src/app/api/invoice/route.ts:115-117 | A paid invoice stays paid, unchanged, through any interleaving of reads and payment patches. |
| InvoiceApi.ServeEvolves | src/app/api/invoice/route.ts:27-130 | Through any interleaving of reads and payment patches, no invoice disappears and its terms never change. A status only stays, goes from pending to expired, or becomes paid, and a paid invoice stays exactly as it is. |
| InvoiceApi.EvolvesTransitive | src/app/api/invoice/route.ts:39-43 | Allowed evolutions compose. |
| InvoiceApi.LookupsEvolve | src/app/api/invoice/route.ts:39-43 | Any sequence of reads is an allowed evolution. |
| InvoiceApi.PatchesEvolve | src/app/api/invoice/route.ts:110-123 | Any sequence of patches is an allowed evolution. |
| InvoiceApi.InvoiceStore.constructor | src/app/api/invoice/route.ts:5 | The store starts empty. |
| InvoiceApi.InvoiceStore.Get | src/app/api/invoice/route.ts:27-46 | The reply and the new map are those of the GET step, and the map evolves by allowed transitions. |
| InvoiceApi.InvoiceStore.Post | src/app/api/invoice/route.ts:48-92 | The reply and the new map are those of the POST step. |
| InvoiceApi.InvoiceStore.Patch | src/app/api/invoice/route.ts:94-130 | The reply and the new map are those of the PATCH step, and the map evolves by allowed transitions. |
| InvoiceEnsApi.RecordKey | src/app/api/invoice/ens/route.ts:62 | The record key is "flowfi.invoice." followed by the id. |
| InvoiceEnsApi.RecordKeyInjective | src/app/api/invoice/ens/route.ts:62 | Different ids give different record keys. |
| InvoiceEnsApi.Post | src/app/api/invoice/ens/route.ts:9-35 | A missing name, invoice id or amount gives 400 before the builder runs. Otherwise a builder error gives 500 with the builder's message, and a built record gives a success carrying exactly the builder's transaction data. The success message names the id's record key. |
| InvoiceEnsApi.Get | src/app/api/invoice/ens/route.ts:37-70 | A missing parameter gives 400 and a missing record gives 404 with `verified: false`. A lookup error gives 500. A record found is verified, with its record key. |
| InvoiceEnsApi.WriteThenReadAgree | src/app/api/invoice/ens/route.ts:26-64 | The write message and the read reply name the same record key. |
| ExecuteApi.Post | src/app/api/execute/route.ts:5-38 | An unreadable body gives 500. A missing address or intent gives 400, and an incomplete intent another 400. Only then does the builder run, and its error gives 500. |
| ExecuteApi.RouteIdIgnored | src/app/api/execute/route.ts:8-13 | The route id in the body plays no part. |
| ExecuteApi.GuardsPrecedeBuilder | src/app/api/execute/route.ts:15-27 | A 400 never depends on the transaction builder. |
| Receipts.GenerateReceiptSubname | src/lib/ens/receipts.ts:23-30 | The subname is "tx-" + lower-cased hash + "." + parent, of that exact length. |
| Receipts.SubnameIgnoresCase | src/lib/ens/receipts.ts:28 | Hashes that differ only in letter case share a subname. |
| Receipts.SubnameDeterminesHash | src/lib/ens/receipts.ts:23-30 | Under one parent, a subname determines the hash up to letter case. |
| Receipts.AsTextRecords | src/lib/ens/receipts.ts:46-53 | There are exactly six text-record keys. |
| Receipts.BuildReceiptTextRecords | src/lib/ens/receipts.ts:39-54 | Each key holds its input verbatim: the hash in its original case, and the timestamp. |
| ReceiptStore.ReadStore | src/lib/ens/receipt-store.ts:29-36 | A file that cannot be read or parsed reads as an empty store. |
| ReceiptStore.Entry | src/lib/ens/receipt-store.ts:55-63 | The stored entry keeps every field verbatim except `from`, which is lower-cased. It holds the text records and the creation time. |
| ReceiptStore.Find | src/lib/ens/receipt-store.ts:67-72 | A receipt is found exactly when the lower-cased hash is a key. |
| ReceiptStore.FindAfterPut | src/lib/ens/receipt-store.ts:53-72 | After storing, any letter-case variant of the hash finds the new records. |
| ReceiptStore.FindOtherAfterPut | src/lib/ens/receipt-store.ts:55 | Storing a hash leaves every other hash's receipt as it was. |
| ReceiptStore.UnreadableIsEmpty | src/lib/ens/receipt-store.ts:33-35 | Nothing is found in an unreadable store. |
| ReceiptStore.ReceiptStoreFile.constructor | src/lib/ens/receipt-store.ts:26-27 | The file starts with the given contents. |
| ReceiptStore.ReceiptStoreFile.GetReceipt | src/lib/ens/receipt-store.ts:67-72 | A receipt is found exactly when the lower-cased hash is a key of the stored dictionary. It is then that entry's text records. |
| ReceiptStore.ReceiptStoreFile.StoreReceipt | src/lib/ens/receipt-store.ts:45-65 | A failed write leaves the file unchanged and is reported. Otherwise the file holds the old dictionary with the new entry. Every hash then finds the new records when it matches ignoring case, and its old receipt otherwise. |
| ReceiptsApi.Post | src/app/api/ens/receipts/route.ts:5-26 | A missing or empty field gives 400 and a store failure gives 500, with the file unchanged in both cases. On success, the receipt is stored and readable before the default-parent subname is returned. |
| Multichain.ShortName | src/lib/ens/multichain.ts:10-15 | A short name exists exactly for chains 1, 8453, 10 and 42161. It is non-empty and has no '@'. |
| Multichain.ShortNamesDistinct | src/lib/ens/multichain.ts:10-15 | No two chains share a short name. |
| Multichain.FormatChainAddress | src/lib/ens/multichain.ts:38-40 | The result is the name, '@', then the chain. |
| Multichain.ParseFormat | src/lib/ens/multichain.ts:38-40 | Splitting at the last '@' recovers the name and a chain with no '@'. |
| Multichain.GetMultichainName | src/lib/ens/multichain.ts:51-81 | A non-empty L2 answer on a known non-mainnet chain wins. Otherwise the mainnet answer is used, and a mainnet error gives null. |
| Multichain.NoL2LookupOffL2 | src/lib/ens/multichain.ts:58-72 | On mainnet or an unknown chain, the L2 client's answer plays no part. |
| Multichain.L2NameWins | src/lib/ens/multichain.ts:66-67 | After an L2 answer, mainnet is not consulted. |
| Multichain.ResolveMultichainName | src/lib/ens/multichain.ts:88-99 | The address is the mainnet lookup of the normalized name, and errors propagate. The multichain name is `name@short` exactly for chains with a short name, and uses the name as given. |
| RouteVisualizer.ChainColorOrder | src/components/route-visualizer.tsx:12-23 | A name mentioning "base" is blue whatever else it mentions. Failing that, arbitrum is orange, optimism red, ethereum or mainnet purple and polygon violet, each tried in this order, ignoring case. |
| RouteVisualizer.GrayExactlyWhenUnknown | src/components/route-visualizer.tsx:12-24 | A chain is gray exactly when its name mentions none of the known chains. |
| RouteVisualizer.PaletteInjective | src/components/route-visualizer.tsx:14-24 | The six colours are distinct palettes. |
| RouteVisualizer.ChainColorIgnoresCase | src/components/route-visualizer.tsx:13 | Names equal up to letter case get the same colour. |
| RouteVisualizer.ArrowAtOccurs | src/components/route-visualizer.tsx:30 | An arrow is recognised at a position exactly when "->", "-->", "=>" or ">>" occurs there, in that order of preference. |
| RouteVisualizer.SplitJoined | src/components/route-visualizer.tsx:30 | Segments joined by arrows, each arrow with optional white space around it, split back into exactly those segments. This holds when the segments are non-empty, have no arrow and do not start or end with white space. |
| RouteVisualizer.SplitCount | src/components/route-visualizer.tsx:30-32 | A path splits into two or more segments exactly when it contains "->", "=>" or ">>". |
| RouteVisualizer.SegmentsHaveNoArrow | src/components/route-visualizer.tsx:30 | No segment contains an arrow. |
| RouteVisualizer.ReadChainFirst | src/components/route-visualizer.tsx:35-40 | "Chain Token" reads as that chain and token. |
| RouteVisualizer.ReadTokenParen | src/components/route-visualizer.tsx:36-44 | "Token (Chain)" reads as that chain and token. |
| RouteVisualizer.ParseJoinedPath | src/components/route-visualizer.tsx:28-47 | A path written as two or more such segments joined by arrows gives one step per segment, each read from that segment. |
| RouteVisualizer.TwoStepPath | src/components/route-visualizer.tsx:28-47 | "<chain> <token> -> <chain> <token>", with any arrow, reads as those two steps. It is cross-chain exactly when the chain names differ ignoring case. |
| RouteVisualizer.BaseToArbitrum | src/components/route-visualizer.tsx:27-47 | "Base USDC -> Arbitrum USDC" reads as Base USDC then Arbitrum USDC, and is drawn as cross-chain. |
| RouteVisualizer.ParseRoutePath | src/components/route-visualizer.tsx:28-58 | With two or more segments, there is one step per segment, each read from that segment. Otherwise, with an intent there are two steps from its chains and tokens ("?" for a missing token, and the destination chain defaulting to the source chain). Otherwise the whole path is a single label. |
| RouteVisualizer.ArrowlessPath | src/components/route-visualizer.tsx:30-57 | A path with no arrow is drawn as two steps with an intent and as one step without. |
| RouteVisualizer.CrossChainOfTwoSteps | src/components/route-visualizer.tsx:108-112 | A two-step route is cross-chain exactly when its chain names differ ignoring case. |

## Left out

- Network and disk I/O, React rendering, logging and concurrency are left
  out. Each request is one atomic step on the stores.
- The collaborators are parameters:
  - the LLM intent parser;
  - the ENS resolver;
  - `fetch`;
  - the LI.FI and v4 route finders;
  - `getContractCallsQuote`, `getTransactionData`,
    `buildSetInvoiceTransaction` and `getInvoiceFromENS`;
  - `calculateStrategyAmounts`;
  - the token registry and `STRATEGIES`.

  The files `src/lib/routing/lifi-router.ts`, `src/lib/routing/v4-router.ts`,
  `src/lib/ai/parse-intent.ts`, `src/lib/strategies.ts`,
  `src/lib/routing/tokens.ts` and `src/lib/routing/execute-route.ts` are not
  part of this model.
- ABI encoding (`encodeFunctionData`) is not modelled; a call's data is the
  decoded call. `generateCommitHash` is left out, because it is keccak256
  over an ABI encoding.
- Because `encodeFunctionData` is not modelled, neither are its throws: a
  recipient or vault that is not a well-formed address, or a negative
  amount, makes it throw (src/lib/routing/yield-router.ts:93-102,
  src/lib/routing/multi-vault-router.ts:137-173). The source then returns
  `{ error }` without a quote and without caching. The model builds the
  call, asks for the quote, and the yield router caches it.
- Floating point is replaced by exact reals:
  - `parseFloat` is modelled for decimal text (sign, digits, one fraction),
    not for exponents or "Infinity";
  - `Math.floor` on a product is floored exactly;
  - gas costs are counted in whole cents before `toFixed(2)`;
  - the restaking minimum-out uses `wei·95/100` rather than the float
    0.95.
- Lifi.FormatFee: gas costs are taken as whole cents. Sub-cent values and
  float rounding in `toFixed(2)` are not modelled.
- Lifi.FormatDuration: the execution duration is taken as a whole,
  non-negative number of seconds. A fractional or negative duration, which
  `Math.ceil(d / 60)` would also print, is not modelled.
- `toLowerCase`, `trim` and the regex classes `\s` and `\w` are modelled on
  ASCII letters and the listed white-space characters. Full Unicode case
  mapping is not modelled.
- `JSON.parse` of the X-Payment header is modelled for the layout
  `JSON.stringify` produces for four string fields. Other valid JSON
  layouts, and a `payment` that is not an object, are not modelled.
- Times are integer milliseconds. The ISO strings are opaque, and an
  invalid date (a RangeError) is not modelled.
- `expiresInHours` is taken as an integer.
- Strategy percentages (`StrategyAllocation.percentage`) and slippage in
  basis points are taken as integers. The source holds them in JavaScript
  numbers, so `${pct}%` of a fraction, and `BigInt` of a fractional bps
  (which throws), are not modelled.
- Outcome: its own contract gives the order of the checks, the allocation
  report and at most one quote. The shape of a routed success (`quotes` is
  exactly the one quote, and the route is the multi-vault route over the
  path parts) is stated by the RoutedSuccess lemma.
- X402Client.ParseDetails: its contract gives only the text's opening and
  closing. ParseStringify gives the round trip. An accepted text is not
  claimed to be `Stringify` of the result, because `JSON.parse` accepts
  other escapes of the same characters.
- ReceiptStore.ReceiptStoreFile.StoreReceipt: the two clock reads (the
  timestamp record and `createdAt`) are modelled as one instant.
- ReceiptTextRecords: `src/lib/types.ts` as given does not declare this
  type. The model takes its six keys from `src/lib/ens/receipts.ts:46-53`.
- A thrown value that is not an `Error` is not modelled. The handlers'
  fallback texts ("Failed to process message" and the like) therefore do
  not occur in the model.
- The chat handler's `findV4Routes` is taken to never throw, as its result
  is used without `await`. A throw from any other provider reaches the
  outer `catch` and gives 500. No provider's failure is swallowed.
- The action set is the code's: 'transfer', 'swap' and 'pay_x402'.
