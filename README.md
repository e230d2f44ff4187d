# RampWool wallet, settings and marketplace logic in Dafny

RampWool is a Next.js NFT marketplace on Rollux, the Syscoin L2. This
project models the logic behind its pages and proves properties of it:

- the Rollux network table and the wallet helpers (`web3Config.ts`): the
  switch-then-add network fallback, wallet connection, the signer lookup,
  and address shortening;
- the two wallet sessions (`WalletContext`, `Web3Context`): connect,
  disconnect, the network switch, and the "accounts changed" and "chain
  changed" notifications;
- the language and theme settings and how they are persisted;
- the header's route highlighting and wallet area;
- the item page's detail table;
- the aggregation of external-marketplace products;
- the marketplace hook's list, buy and cancel actions, with their `loading`
  and `error` bookkeeping.

The injected wallet, the RPC node and the contracts are not code here. How
each awaited call settled is a parameter of the operation that makes it:

- `Result<T>` for a call that yields a value;
- `Outcome` for a call that only succeeds or throws.

The requests sent to the wallet and the calls made on contracts are
returned as logs, in order. Where JavaScript behaviour matters it is
written out in module `Js`:

- `substring` clamps its indices and swaps them when out of order;
- `slice` counts negative indices from the end;
- `toString(16)` gives lower-case digits without padding;
- `parseInt(s, 16)` skips leading whitespace, takes a sign and a `0x`
  prefix, then reads hex digits;
- `!!s` truthiness and `err.message || fallback`.

State that React keeps with `useState` and updates in place is modelled as
a class per provider or hook, with `modifies` clauses on its actions. Those
classes are `WalletProvider`, `Web3Provider`, `LanguageProvider`,
`ThemeProvider`, `HeaderState` and `MarketplaceHook`. `localStorage` and
the document root are classes too, shared by the providers that write them.

Modules, one per source file:

| Module | File | Models |
|---|---|---|
| `Js` | `js.dfy` | the JavaScript built-ins listed above |
| `Browser` | `browser.dfy` | `localStorage` and the document root |
| `Web3Config` | `web3_config.dfy` | `lib/web3Config.ts` |
| `WalletContext` | `wallet_context.dfy` | `lib/context/WalletContext.tsx` |
| `Web3Context` | `web3_context.dfy` | `lib/context/Web3Context.tsx` |
| `LanguageContext` | `language_context.dfy` | `lib/context/LanguageContext.tsx` |
| `ThemeContext` | `theme_context.dfy` | `lib/context/ThemeContext.tsx` |
| `Header` | `header.dfy` | `app/components/header.tsx` |
| `NftItemDetails` | `nft_item_details.dfy` | `app/components/nft-item-details-final.tsx` |
| `ExternalMarketplaces` | `external_marketplaces.dfy` | `lib/services/externalMarketplaces.ts` |
| `UseMarketplace` | `use_marketplace.dfy` | `lib/hooks/useMarketplace.ts` |

One behaviour that follows from the code is modelled as written. Inside
`Web3Context.connect`, `switchNetwork` sees the provider from the render in
which `connect` was called, which is the provider held before the
connection. So after a switch during a first connection the chain id is not
read again. `Web3Provider.Connect` states this: when no provider was held
before, the chain id stays the one the wallet first reported.

## Model

| member | source | states |
|---|---|---|
| Js.Substring | lib/web3Config.ts:115 | `substring` clamps both indices into [0, length] and returns the text between the smaller and the larger of them; in-range indices give exactly that slice, in either order |
| Js.Clamp | lib/web3Config.ts:115 | an index is clamped into [0, length]: negative gives 0, past the end gives the length, in range is kept |
| Js.SubstringFrom | lib/web3Config.ts:115 | `substring(start)` is the suffix from the clamped start, so a negative start gives the whole string |
| Js.SliceFrom | app/components/header.tsx:89 | `slice(start)` with a negative start counts from the end, clamped at 0 |
| Js.Slice | app/components/header.tsx:89 | `slice(start, end)` is the slice between the resolved indices, or empty when the start is at or after the end |
| Js.ToHexString | lib/web3Config.ts:83 | `toString(16)`: at least one digit, all lower-case hex, no leading zero for positive numbers, "0" for zero |
| Js.HexValueOfToHexString | lib/web3Config.ts:83 | the digits `toString(16)` writes read back as the same number |
| Js.HexRoundTrip | lib/context/WalletContext.tsx:93 | `parseInt("0x" + n.toString(16), 16)` is `n` for every non-negative `n` |
| Js.ParseIntHex | lib/context/Web3Context.tsx:70 | `parseInt(s, 16)` is NaN exactly when no hex digit follows the leading whitespace, the sign and the `0x` prefix; a negative result needs a "-" sign; with `HexRoundTrip`, it reads back what `toString(16)` writes |
| Js.MessageOr | lib/hooks/useMarketplace.ts:78 | `err.message \|\| fallback`: the message when it is present and non-empty, else the fallback |
| Js.Truthy | lib/context/Web3Context.tsx:27 | `!!s` on a string that may be null is false exactly for null and the empty string |
| Js.StartsWith | app/components/header.tsx:32 | `s.startsWith(p)` holds exactly when `s` is `p` followed by some string |
| Web3Config.SyscoinNetwork | lib/web3Config.ts:4-27 | the mainnet entry has chain id 570 and the testnet entry 57000; both currencies have 18 decimals |
| Web3Config.EnvAddress | lib/web3Config.ts:31-33 | an address is empty exactly when its environment variable is unset or empty, and otherwise it is that variable's value |
| Web3Config.ContractAddressesFrom | lib/web3Config.ts:30-34 | each of the reward-token, marketplace and aggregator addresses is its variable's value when that is set and non-empty, and the empty string otherwise |
| Web3Config.GetSyscoinProvider | lib/web3Config.ts:37-39 | the provider targets the chosen network's RPC URL |
| Web3Config.GetSigner | lib/web3Config.ts:42-48 | throws "No ethereum wallet detected" without a wallet; otherwise settles as the wallet's signer request does |
| Web3Config.ConnectWallet | lib/web3Config.ts:51-73 | without a wallet: throws the install message and sends nothing; otherwise sends one account request and succeeds exactly when the accounts, signer and network steps all succeed, returning the signer's address and the network's id; otherwise rethrows the first step's error |
| Web3Config.ChainIdHex | lib/web3Config.ts:83 | the chain id parameter begins with "0x" and has at least one digit |
| Web3Config.SwitchLog | lib/web3Config.ts:76-110 | the requests `switchToSyscoin` sends: none without a wallet, otherwise one switch request, followed by one add request only after code 4902; never the account request |
| Web3Config.ChainIdHexRoundTrip | lib/web3Config.ts:83 | every encoded chain id decodes back to itself with `parseInt(_, 16)` |
| Web3Config.SyscoinChainIdsInHex | lib/web3Config.ts:83 | the testnet id is sent as "0xdea8" and the mainnet id as "0x23a" |
| Web3Config.AddChainRequest | lib/web3Config.ts:89-99 | the add-chain request carries the network's encoded id, name and currency, with its RPC URL and explorer as one-element lists |
| Web3Config.SwitchToSyscoin | lib/web3Config.ts:76-110 | no wallet: nothing sent, returns normally; otherwise a switch request for the network; on code 4902 exactly one add request for the same network follows and decides the outcome; any other switch error is rethrown with nothing more sent; the request log is exactly `SwitchLog`, so the account request is never sent |
| Web3Config.FormatAddress | lib/web3Config.ts:113-116 | empty exactly for the empty address; otherwise the first up-to-6 characters of the address, "...", and its last up-to-4 characters |
| Web3Config.FormatLongAddress | lib/web3Config.ts:113-116 | for an address of 10 or more characters the result is its first 6 and last 4 characters around "...", 13 characters in all |
| WalletContext.WalletProvider.constructor | lib/context/WalletContext.tsx:21-25 | the session starts disconnected with balance "0" |
| WalletContext.WalletProvider.IsConnected | lib/context/WalletContext.tsx:120 | `isConnected` holds exactly when the address is present and non-empty |
| WalletContext.WalletProvider.UpdateBalance | lib/context/WalletContext.tsx:35-42 | a fetched balance replaces the shown one; a failed fetch keeps the old one; nothing else changes |
| WalletContext.WalletProvider.ConnectWallet | lib/context/WalletContext.tsx:44-69 | no wallet: alert and no change; otherwise one account request; the session changes only when an account is granted and the signer and network are obtained, taking the first account, the provider, the signer and the chain id, and then refreshing the balance; a caught error leaves the session as it was |
| WalletContext.WalletProvider.DisconnectWallet | lib/context/WalletContext.tsx:71-77 | every field returns to its initial value and the session is no longer connected |
| WalletContext.WalletProvider.HandleAccountsChanged | lib/context/WalletContext.tsx:83-90 | an empty list disconnects; otherwise the address becomes the first account and the balance is refreshed only when a provider is held |
| WalletContext.WalletProvider.HandleChainChanged | lib/context/WalletContext.tsx:92-98 | the chain id becomes `parseInt(hex, 16)` and nothing else changes; the testnet's own hex string gives back 57000 |
| WalletContext.ConnectThenDisconnect | lib/context/WalletContext.tsx:44-77 | connecting and then disconnecting ends in the initial session, whatever the wallet answered |
| Web3Context.CorrectChainIds | lib/context/Web3Context.tsx:28-29 | the session is on the correct network exactly for chain ids 57000 and 570 |
| Web3Context.Web3Provider.constructor | lib/context/Web3Context.tsx:22-25 | the session starts disconnected and off the correct network |
| Web3Context.Web3Provider.IsConnected | lib/context/Web3Context.tsx:27 | `isConnected` holds exactly when the address is present and non-empty |
| Web3Context.Web3Provider.IsCorrectNetwork | lib/context/Web3Context.tsx:28-29 | `isCorrectNetwork` holds exactly when the chain id is 57000 or 570 |
| Web3Context.Web3Provider.CheckConnection | lib/context/Web3Context.tsx:33-53 | with a wallet that already lists an account, and the signer and network obtained, the session takes the signer's address, the chain id, the provider and the signer; otherwise the session is unchanged |
| Web3Context.Web3Provider.SwitchNetworkWith | lib/context/Web3Context.tsx:112-125 | sends exactly the testnet `SwitchLog`: nothing without a wallet, the switch request, and the add request only after code 4902; a failed switch rethrows the add request's outcome after code 4902 and the switch's own otherwise, keeping the chain id; a successful switch re-reads the chain id only when the captured provider exists, and a failed re-read is rethrown with the chain id kept; address, provider and signer never change |
| Web3Context.Web3Provider.SwitchNetwork | lib/context/Web3Context.tsx:112-125 | with the current provider as the captured one: sends exactly the testnet `SwitchLog`; a failed switch rethrows the add request's or the switch's error and keeps the chain id; a successful switch without a provider returns normally with the chain id kept; with a provider the chain id becomes the re-read one, or the failed re-read is rethrown |
| Web3Context.Web3Provider.Connect | lib/context/Web3Context.tsx:86-103 | a failed connection sends only the account request (nothing without a wallet) and rethrows the first failing step's error (no wallet, accounts, signer, network) with the session unchanged; otherwise address, provider and signer come from the wallet; a Syscoin chain ends there with only the account request sent; any other chain sends the account request then exactly the testnet `SwitchLog`: a failed switch is rethrown with the wallet's chain id kept; a successful one returns normally when no provider was held before the call, and otherwise succeeds exactly when the re-read does, taking its chain id |
| Web3Context.Web3Provider.Disconnect | lib/context/Web3Context.tsx:105-110 | all four fields are cleared |
| Web3Context.Web3Provider.HandleAccountsChanged | lib/context/Web3Context.tsx:61-67 | an empty list disconnects; otherwise only the address changes, to the first account |
| Web3Context.Web3Provider.HandleChainChanged | lib/context/Web3Context.tsx:69-74 | only the chain id changes, to `parseInt(hex, 16)` |
| Web3Context.SwitchedChainIsCorrect | lib/context/Web3Context.tsx:70 | a chain-changed notification carrying the hex a switch request sends puts the session on the correct network |
| LanguageContext.ParseLanguage | lib/context/LanguageContext.tsx:141-142 | a stored value names a language exactly when it is "en" or "es", and then it is that language's code |
| LanguageContext.ParseCode | lib/context/LanguageContext.tsx:147-150 | the code a language is stored as reads back as that language |
| LanguageContext.Translate | lib/context/LanguageContext.tsx:156-158 | `t` returns the key itself, the current language's non-empty text, or the English non-empty text |
| LanguageContext.TranslateFallback | lib/context/LanguageContext.tsx:156-158 | the three levels are tried in order: the current language's text when non-empty, else the English text when non-empty, else the key |
| LanguageContext.TranslateEnglish | lib/context/LanguageContext.tsx:156-158 | in English, `t` is the English text or the key |
| LanguageContext.UntranslatedKeys | lib/context/LanguageContext.tsx:13-126 | "allNFTs" and "plans" are in neither table, so both languages show them as the key |
| LanguageContext.HeaderTexts | lib/context/LanguageContext.tsx:13-126 | "connectWallet" reads "Connect Wallet" and "Conectar Wallet"; "marketplace" reads "Mercado" in Spanish (an example on fixed data) |
| LanguageContext.Toggled | lib/context/LanguageContext.tsx:152-154 | the toggle always changes the language |
| LanguageContext.ToggleTwice | lib/context/LanguageContext.tsx:152-154 | toggling twice restores the language |
| LanguageContext.LanguageProvider.constructor | lib/context/LanguageContext.tsx:138 | the language starts as English |
| LanguageContext.LanguageProvider.T | lib/context/LanguageContext.tsx:156-158 | `t(key)` in the current language: its non-empty text, else the non-empty English text, else the key |
| LanguageContext.LanguageProvider.LoadStoredLanguage | lib/context/LanguageContext.tsx:140-145 | a stored "en" or "es" is adopted; anything else, or nothing, keeps the language |
| LanguageContext.LanguageProvider.SetLanguage | lib/context/LanguageContext.tsx:147-150 | the language becomes the argument and is stored under "nft-lang"; no other stored entry changes; the stored value reads back as that language |
| LanguageContext.LanguageProvider.ToggleLanguage | lib/context/LanguageContext.tsx:152-154 | the language flips and the new one is stored |
| ThemeContext.Toggled | lib/context/ThemeContext.tsx:45-47 | "light" toggles to "dark"; anything else toggles to "light" |
| ThemeContext.ToggleTwice | lib/context/ThemeContext.tsx:45-47 | on "light" and "dark" the toggle changes the theme, and toggling twice restores it |
| ThemeContext.ToggleNormalises | lib/context/ThemeContext.tsx:45-47 | from any stored value, two toggles give "light" only from "light" and "dark" from anything else |
| ThemeContext.InitialTheme | lib/context/ThemeContext.tsx:20-21 | the stored theme when present and non-empty, otherwise "light"; never empty |
| ThemeContext.ThemeProvider.constructor | lib/context/ThemeContext.tsx:16 | the theme starts as "light" |
| ThemeContext.ThemeProvider.ApplyTheme | lib/context/ThemeContext.tsx:26-38 | `data-theme` becomes the theme; the `dark` class is added for "dark" and removed otherwise; the theme is stored under "nft-theme"; other attributes, classes and entries are unchanged |
| ThemeContext.ThemeProvider.SetTheme | lib/context/ThemeContext.tsx:40-43 | the theme becomes the argument and is applied: `data-theme` set, the `dark` class added exactly for "dark", the theme stored; every other attribute, class and stored entry unchanged |
| ThemeContext.ThemeProvider.ToggleTheme | lib/context/ThemeContext.tsx:45-47 | the toggled theme becomes current and is applied and stored; every other attribute, class and stored entry unchanged |
| ThemeContext.ThemeProvider.Initialize | lib/context/ThemeContext.tsx:18-24 | the theme becomes the stored one, or "light", and is applied and written back; every other attribute, class and stored entry unchanged |
| Header.IsActive | app/components/header.tsx:29-34 | false without a pathname or with an empty one; "/" is active exactly on "/"; any other path is active exactly when the pathname starts with it |
| Header.PrefixNotSegmentAware | app/components/header.tsx:32 | the match is a raw prefix: "/marketplace-old" highlights "/marketplace", a sub-route highlights its parent, and "/plans" does not highlight "/" |
| Header.NavLinksExclusive | app/components/header.tsx:58-66 | for any route, at most one of the three navigation links is active |
| Header.GetLinkClass | app/components/header.tsx:36-40 | the active class exactly when the link is active, the inactive class otherwise |
| Header.NavLinks | app/components/header.tsx:58-66 | three links, to "/", "/marketplace" and "/plans" in that order, each active-classed exactly when active and labelled by `t` |
| Header.ShortAddress | app/components/header.tsx:89 | the shortened address has up to 6 leading characters, "...", and up to 4 trailing characters |
| Header.ShortAddressIsFormatAddress | app/components/header.tsx:89 | for every non-empty address the header's `slice` form equals `formatAddress` |
| Header.WalletControls | app/components/header.tsx:85-107 | the balance with " SYS", the shortened address and the disconnect button exactly when connected; otherwise the connect button |
| Header.LanguageButtonText | app/components/header.tsx:75 | the language button shows "EN" or "ES" for the current language |
| Header.ThemeButtonIcon | app/components/header.tsx:82 | a sun exactly in the dark theme, a moon otherwise |
| Header.HeaderState.constructor | app/components/header.tsx:14 | the wallet dialog starts closed |
| Header.HeaderState.OverlayClass | app/components/header.tsx:112 | the overlay is "visible" exactly while the dialog is open |
| Header.HeaderState.OpenModal | app/components/header.tsx:16-18 | opens the dialog |
| Header.HeaderState.CloseModal | app/components/header.tsx:20-22 | closes the dialog |
| NftItemDetails.AttributesGrid | app/components/nft-item-details-final.tsx:4-5 | renders nothing exactly when the attributes are missing or empty; otherwise one tile per attribute, in order |
| NftItemDetails.TruncateValue | app/components/nft-item-details-final.tsx:61 | a shown value never exceeds 20 characters; it is unchanged exactly when it has at most 20; a longer value becomes its first 6 and last 4 characters around "...", 13 in all |
| NftItemDetails.TruncateIsFormatAddress | app/components/nft-item-details-final.tsx:61 | a truncated value equals `formatAddress` of it |
| NftItemDetails.TruncateIdempotent | app/components/nft-item-details-final.tsx:61 | truncating a shown value changes nothing |
| NftItemDetails.BlockchainDetails | app/components/nft-item-details-final.tsx:29-46 | five rows in a fixed order; "Unknown" for an empty address or token id; "ERC-721" and "Rollux L2" only when the argument is absent; the metadata row shows "IPFS"; only the address and metadata rows are links |
| NftItemDetails.ShownValues | app/components/nft-item-details-final.tsx:55-61 | every row's value is shown truncated, one per row, in order |
| NftItemDetails.ShownDetails | app/components/nft-item-details-final.tsx:40-61 | a 42-character address is shown as 6 + "..." + 4 characters, a short token id and the defaults in full (an example on fixed data) |
| ExternalMarketplaces.MarketplaceTableFacts | lib/services/externalMarketplaces.ts:22-41 | the three configured marketplaces have distinct ids and none is active (an example on fixed data) |
| ExternalMarketplaces.FetchEtsyProducts | lib/services/externalMarketplaces.ts:46-82 | the Etsy fetcher never rejects and yields no products |
| ExternalMarketplaces.FetchAlibabaProducts | lib/services/externalMarketplaces.ts:87-99 | the Alibaba fetcher never rejects and yields no products |
| ExternalMarketplaces.InsertByPrice | lib/services/externalMarketplaces.ts:118 | inserting lengthens the list by one |
| ExternalMarketplaces.SortByPrice | lib/services/externalMarketplaces.ts:118 | the sort keeps the length |
| ExternalMarketplaces.InsertByPricePermutes | lib/services/externalMarketplaces.ts:118 | inserting adds exactly the one product, as a multiset |
| ExternalMarketplaces.SortByPricePermutes | lib/services/externalMarketplaces.ts:118 | the sort is a permutation of its input |
| ExternalMarketplaces.InsertKeepsSorted | lib/services/externalMarketplaces.ts:118 | inserting into a list ordered by price keeps it ordered, and the first price becomes the smaller of the two |
| ExternalMarketplaces.SortByPriceSorted | lib/services/externalMarketplaces.ts:118 | the sort orders by ascending price |
| ExternalMarketplaces.FilterInsert | lib/services/externalMarketplaces.ts:118 | an inserted product goes ahead of every product of the same price |
| ExternalMarketplaces.SortByPriceStable | lib/services/externalMarketplaces.ts:118 | the sort is stable: products of equal price keep their relative order |
| ExternalMarketplaces.FilterPrefix | lib/services/externalMarketplaces.ts:120 | the products of one price in a prefix are a prefix of those in the whole list |
| ExternalMarketplaces.AggregateExternalProducts | lib/services/externalMarketplaces.ts:104-125 | a rejected fetch gives the empty accumulator; otherwise the first `limit` (per `slice`) of Etsy followed by Alibaba, stably sorted; always ordered by price; only fetched products; at most `limit` for a non-negative limit; Etsy products ahead of Alibaba ones on equal price |
| ExternalMarketplaces.AggregateFromStubs | lib/services/externalMarketplaces.ts:112-113 | with the current fetchers the aggregate is empty |
| ExternalMarketplaces.SyncProductToBlockchain | lib/services/externalMarketplaces.ts:130-155 | always reports success |
| ExternalMarketplaces.MockProductsByPrice | lib/services/externalMarketplaces.ts:160-193 | ordered by price, the sample products come as cotton (18.50), merino (25.99), silk (45.00) (an example on fixed data) |
| UseMarketplace.SendTransaction | lib/hooks/useMarketplace.ts:74-75 | the calls are exactly `TxCalls`: the transaction's call, followed by a wait only when it was submitted; a failed submission is the outcome, otherwise the receipt's; it succeeds exactly when both do |
| UseMarketplace.TxCalls | lib/hooks/useMarketplace.ts:74-75 | a transaction starts with its call and adds one `Wait` exactly when it was submitted |
| UseMarketplace.MarketplaceHook.constructor | lib/hooks/useMarketplace.ts:27-29 | no contract, not loading, no error |
| UseMarketplace.MarketplaceHook.SetLoading | lib/hooks/useMarketplace.ts:59 | `setLoading(v)`: `loading` becomes `v`, the write is recorded, and contract and error are unchanged |
| UseMarketplace.MarketplaceHook.InitContract | lib/hooks/useMarketplace.ts:31-49 | the contract is bound to the marketplace address and the signer only when that address is non-empty and a signer is obtained; otherwise it stays as it was |
| UseMarketplace.MarketplaceHook.ListNFT | lib/hooks/useMarketplace.ts:52-83 | no contract: throws "Contract not initialized" with nothing touched; otherwise `loading` is written true then false; success exactly when every step succeeds, with `error` cleared; a failure rethrows the failing step's own error (no wallet, signer, approval query, approval transaction, price, listing transaction) and sets `error` to its message or "Error creating listing"; the call log is exact on every path: the approval query once a signer is obtained, the approval transaction only when not yet approved, and the listing transaction only after a confirmed approval (submitted and waited) and a converted price |
| UseMarketplace.MarketplaceHook.BuyNFT | lib/hooks/useMarketplace.ts:86-105 | same guard and `loading` discipline; no call when the price conversion fails, otherwise exactly one purchase carrying the price in wei, waited only when submitted; a failure rethrows the price conversion's or the purchase's own error and sets `error` to its message or "Error buying NFT"; success clears `error` |
| UseMarketplace.MarketplaceHook.CancelListingAction | lib/hooks/useMarketplace.ts:108-121 | same guard and `loading` discipline; exactly one cancellation call, waited only when submitted; a failure rethrows the cancellation's own error; `error` is not cleared, and a failure sets it to the raw message, which may be absent |
| UseMarketplace.UnconfiguredHookRefusesListing | lib/hooks/useMarketplace.ts:46-57 | a hook without a marketplace address never gets a contract, so listing is refused before any call |

## Left out

- Floating point is not modelled:
  - the balance text (`parseFloat(formatEther(b)).toFixed(4)`) is a parameter, the already formatted string;
  - `formatSYS` (lib/web3Config.ts:119-122) is left out;
  - product prices are integers in hundredths, so the sort comparator is exact.
- `parseEther` and `parseSYS` are left out: the wei amount, or the error, is a parameter.
- `ethers.BrowserProvider`, `JsonRpcSigner` and `ethers.Contract` are opaque handles. The ERC-721 and marketplace ABIs and the contracts behind them are not part of this model.
- Page reloads are left out. After a "chain changed" notification both contexts reload the page; the model stops at the state update before the reload.
- React scheduling is not modelled:
  - state setters take effect at once;
  - when listeners are registered and removed is not modelled;
  - concurrent async actions do not interleave;
  - the un-awaited balance refresh in the "accounts changed" listener completes within the listener.
- Header's wallet dialog passes `'metamask'` or `'0xaddress'` to `connectWallet`, which ignores its argument. There is no wallet selection to model.
- JavaScript number details are left out:
  - `parseInt` returning -0 for "-0" (it gives 0 here);
  - precision beyond 2^53;
  - fractional `limit` values, which are integers here.
- `ParseIntHex` reads a negative hex string to a negative integer. No chain id the application produces is negative.
- ExternalMarketplaces.AggregateExternalProducts: `allProducts.sort` sorts the array in place. The model sorts the list as a value with `SortByPrice`, a stable insertion sort, which is how `Array.prototype.sort` orders it. The current fetchers never reject, so the rejected-fetch branch is a generalisation.
- LanguageContext: the two translation tables are functions over their keys. There are no lemmas quantifying over every key, such as "both tables have the same keys"; only particular keys are stated.
- ActivityLog, HowItWorks and the other pages only render literal data, and are not part of this model.
- The chain ids in hardhat.config.ts are not part of this model.
- Strings are sequences of Unicode scalar values, while JavaScript's `length`, `substring` and `slice` count UTF-16 code units. The two agree on text without characters outside the Basic Multilingual Plane, such as hex addresses, chain ids and route paths; on other text the model counts differently, as the next four lines say.
- NftItemDetails.TruncateValue: counts characters, not UTF-16 code units; a value of eleven emoji has length 22 in JavaScript and is truncated there, but has length 11 here and is shown unchanged.
- Web3Config.FormatAddress: counts characters, not UTF-16 code units, when taking the leading six and trailing four.
- Header.ShortAddress: counts characters, not UTF-16 code units, when slicing.
- Header.IsActive: compares prefixes by characters, not UTF-16 code units.
- LanguageContext.Translate: keys that name an `Object.prototype` member, such as "constructor" or "toString", make `t[lang][key]` an inherited function in JavaScript, which `t` returns. Here the tables hold only their own entries, so such a key comes back as itself.
- Default arguments (`network = 'testnet'`, `limit = 10`, `limit = 20`) are not modelled as defaults; every caller passes its value explicitly.
