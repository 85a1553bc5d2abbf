# monadwifi in Dafny

A model of the client-side logic of monadwifi, a captive-portal demo. It sells WiFi access for a
payment to a contract on the Monad test network (chain 10143). The model covers:

- **Access poller** (`polling.dfy`, module `Polling`). After payment, `usePolling` checks the
  configuration and then probes an authorization endpoint on an interval. At most one probe is in
  flight at a time. Each outcome is classified, and an error counter is kept. Polling stops itself
  on the first 2xx answer.
  - `Poller` is a class holding the reactive state (`isPolling`, `lastChecked`, `errorCount`) and
    the closure variables (`pollingTimer`, `abortController`, `isRequestInProgress`).
  - A probe is split into its synchronous start (`BeginProbe`) and its continuation once the fetch
    settles (`FinishProbe`).
- **Wallet session managers.** `useWalletFixed` is the one in use (`wallet_fixed.dfy`, class
  `SharedWallet`). The older `useWallet` is in `wallet_legacy.dfy` (class `Session`).
  - Both connect the injected wallet, switch or add the test network, restore a session and
    disconnect.
  - They assign and reset their `provider` and `signer` at different points, and each class
    states its own rules.
  - The switch-or-add rule and the chain constants they share are in `monad_network.dfy`.
- **Compatibility layer** (`ethers_compat.dfy`).
  - A hand-made provider and signer over the wallet.
  - The `payForWiFi` contract stub: how the sender is resolved, the shape of the transaction, and
    the order of submission channels.
  - Wrappers that turn library failures into fixed fallback values.
- **Payment composable** (`payment.dfy`). This covers paying from the shared session, and the
  messages shown for payment and verification failures.
- **Fallback MAC address** (`wifidog.dfy`). A 31·h + c string hash in signed 32-bit arithmetic,
  printed as six overlapping two-digit hex groups.
- **Configuration splice** (`config_splice.dfy`). A deployment script finds a marker comment in a
  source file, then scans to the matching closing brace, counting braces. The span is replaced
  with new text.
- **JavaScript runtime pieces** (`js.dfy`, `js_hex.dfy`):
  - thrown errors and their codes
  - the outcome of an awaited call (`Reply`)
  - `includes`, `||` on strings and `${n}`
  - `toString(16)` and `parseInt(s, 16)`, with their round trips

Everything outside the program's own logic is an input to the model: the wallet extension, the
ethers library, `fetch`, `axios`, the clock and timer ids. An awaited call becomes a `Reply`,
either `Ok(value)` or `Rejected(error)`. The presence of `window.ethereum` is a boolean.

Two behaviours of the code that a reader might not expect, which the model keeps:
- **Poller error counter.** Every thrown error increments `errorCount`, including the
  `AbortError` caused by the 10-second timeout or by `stopPolling`. A 4xx or 5xx answer leaves
  the counter unchanged. See `Polling.Classify` and `Polling.CountAfterMeaning`.
- **Fixed wallet balance.** `getBalance` in `useWalletFixed` returns `"0"` when no provider
  exists and none can be built, or when rendering the balance throws. A failed `eth_getBalance`
  is swallowed by the compat provider and becomes a balance of 0, so the caller receives the
  library's rendering of 0. See
  `WalletFixed.SharedWallet.GetBalance` and `EthersCompat.BalanceText`.

## Model

| member | source | states |
|---|---|---|
| Js.OrElse | src/composables/usePayment.ts:113 | `s \|\| fallback`: a non-empty message is kept, an empty one is replaced |
| Js.ContainsIffOccurs | src/composables/usePolling.ts:114 | `includes`, modelled by Js.Contains, holds exactly when the text occurs at some index |
| Js.DecimalNat | src/composables/usePayment.ts:148 | the decimal text of a status is digits only, with no leading zero |
| Js.DecimalOfDecimalNat | src/composables/usePayment.ts:148 | the decimal text of a natural number reads back, digit by digit, as that number |
| Js.DecimalReadsBack | src/composables/usePayment.ts:148 | `${n}` reads back as n for n >= 0; for n < 0 it is '-' followed by digits that read back as -n |
| Js.Decimal | src/composables/usePayment.ts:148 | `${n}` is the decimal text of n (digits with no leading zero), with a '-' in front for negatives |
| JsHex.HexChar | src/utils/wifidog.ts:67 | a value below 16 prints as one lower-case hex digit that reads back as the value |
| JsHex.ToString16Nat | src/utils/ethersCompat.ts:166 | `toString(16)` of a non-negative value is lower-case hex digits with no leading zero |
| JsHex.ToString16 | src/utils/ethersCompat.ts:166 | `toString(16)` of a negative value is '-' followed by the digits of its magnitude |
| JsHex.HexRun | src/utils/ethersCompat.ts:27 | parseInt reads the longest prefix of hex digits and stops at the first other character |
| JsHex.DigitsOfToString16 | src/utils/ethersCompat.ts:27 | the digits written by toString(16) have the value they were written from |
| JsHex.HexRunOfAllHex | src/utils/ethersCompat.ts:27 | parseInt consumes a run made only of hex digits entirely |
| JsHex.ParseDigits | src/utils/ethersCompat.ts:27 | parseInt(s, 16), modelled by JsHex.ParseInt16 (sign, optional '0x', then the longest run of hex digits, NaN when there is none), reads back the toString(16) text of any non-negative value, as an exact integer (see JsHex.ParseInt16 under Left out) |
| JsHex.ParseToString16 | src/utils/ethersCompat.ts:27 | parseInt(s, 16) reads back toString(16) of every integer, sign included, as an exact integer; the JavaScript double agrees below 2^53 |
| JsHex.ParsePrefixedToString16 | src/utils/ethersCompat.ts:166 | '0x' + toString(16) reads back as the exact value when it is non-negative; a negative value gives '0x-…', which reads as NaN |
| ConfigSplice.IndexFrom | scripts/update-frontend-config.js:70 | the first occurrence at or after the start index, or -1 exactly when there is none |
| ConfigSplice.IndexOf | scripts/update-frontend-config.js:70 | indexOf is -1 exactly when the marker never occurs; otherwise it is the first occurrence |
| ConfigSplice.BalanceCounts | scripts/update-frontend-config.js:81-91 | the running brace count is the number of '{' minus the number of '}', whatever their order |
| ConfigSplice.FindConfigEnd | scripts/update-frontend-config.js:76-92 | the scan stops one past the FIRST '}' that returns the count to 0 after a '{' was seen; if there is none, the end stays at the marker |
| ConfigSplice.ConfigEndUnique | scripts/update-frontend-config.js:85-89 | only one end satisfies that description |
| ConfigSplice.Splice | scripts/update-frontend-config.js:95-97 | the result keeps the prefix before the start, then the new text, then the suffix from the end; its length is the old length minus the span plus the new text |
| ConfigSplice.NoCloseInsertsOnly | scripts/update-frontend-config.js:76-97 | with no balanced close, the new text is inserted before the marker and nothing is removed |
| ConfigSplice.UpdateContractConfig | scripts/update-frontend-config.js:66-97 | nothing is produced exactly when the marker is missing; otherwise the marker-to-close span is replaced |
| WifiDog.ToInt32 | src/utils/wifidog.ts:61 | `hash & hash` gives the signed 32-bit value congruent to the hash mod 2^32 |
| WifiDog.ToInt32Congruent | src/utils/wifidog.ts:61 | values congruent mod 2^32 give the same 32-bit integer |
| WifiDog.HashStepIsAffine | src/utils/wifidog.ts:60-61 | each code unit maps h to (31·h + c) mod 2^32, as a signed 32-bit value: WifiDog.HashStep, `((h << 5) - h) + c` then `& hash`, is that affine step |
| WifiDog.FingerprintHash | src/utils/wifidog.ts:56-62 | the loop computes WifiDog.HashOf, the fold of the hash step over the fingerprint from 0, in signed 32-bit range |
| WifiDog.NibbleScale | src/utils/wifidog.ts:67 | the divisor standing for `>> (i*4)` is 16^i: 1 for group 0, and 16 times the previous group's divisor for each later group |
| WifiDog.Group | src/utils/wifidog.ts:67 | each group is in 0..255 |
| WifiDog.GroupIsShift | src/utils/wifidog.ts:67 | group i is the hash shifted right by 4i bits and masked to 8 bits |
| WifiDog.TwoDigits | src/utils/wifidog.ts:67 | a byte written as two hex digits has length 2 |
| WifiDog.GroupsUpTo | src/utils/wifidog.ts:65-68 | after i iterations the loop has pushed i groups |
| WifiDog.GroupsUpToAt | src/utils/wifidog.ts:65-68 | entry k of the pushed list is group k of the hash |
| WifiDog.GroupsDigits | src/utils/wifidog.ts:65-68 | each of the six entries is the high nibble digit followed by the low nibble digit |
| WifiDog.PadStart | src/utils/wifidog.ts:67 | padStart reaches the target length, keeps the text at its end and fills everything before it with the fill character |
| WifiDog.Groups | src/utils/wifidog.ts:65-68 | exactly six groups are pushed |
| WifiDog.FormatMac | src/utils/wifidog.ts:65-70 | the formatting loop produces WifiDog.MacOf, the six groups joined by ':' with WifiDog.Join (`Array.join`) |
| WifiDog.GenerateFallbackMac | src/utils/wifidog.ts:55-70 | the address depends only on the fingerprint |
| WifiDog.HexGroupDigits | src/utils/wifidog.ts:67 | WifiDog.HexGroup, `toString(16).padStart(2, '0')` of a byte, is exactly two lower-case hex digits, high nibble first |
| WifiDog.JoinPairs | src/utils/wifidog.ts:70 | joining two-character parts with ':' puts part k at 3k and 3k+1, and ':' at 3k+2 |
| WifiDog.MacLayout | src/utils/wifidog.ts:65-70 | the address has 17 characters: the digits of bits 4k..4k+7 at 3k and 3k+1, and ':' between groups |
| WifiDog.MacCharset | src/utils/wifidog.ts:65-70 | every character of the address is a lower-case hex digit or ':' |
| WifiDog.GroupOverlap | src/utils/wifidog.ts:66-68 | the high nibble of group i equals the low nibble of group i+1 |
| WifiDog.MacDigitsOverlap | src/utils/wifidog.ts:66-70 | in the printed address, the first digit of group i equals the second digit of group i+1 |
| WifiDog.ZeroGroups | src/utils/wifidog.ts:65-68 | a zero hash gives six "00" groups |
| WifiDog.JoinZeros | src/utils/wifidog.ts:70 | six "00" groups join to "00:00:00:00:00:00" |
| WifiDog.EmptyFingerprintMac | src/utils/wifidog.ts:55-70 | an empty fingerprint gives "00:00:00:00:00:00" |
| Polling.ConfigError | src/composables/usePolling.ts:22-29 | construction fails exactly when the endpoint is missing or empty, or the interval is missing, 0 or below 1000; the endpoint is checked first, so a bad endpoint gives the endpoint error and a good endpoint with a bad interval gives the interval error |
| Polling.Classify | src/composables/usePolling.ts:79-141 | only a 2xx answer grants access, and it resets the counter; every throw increments it; classification order is abort (no error), then TypeError containing "fetch", then "CORS", then the message or 'Unknown network error' |
| Polling.CountAfterMeaning | src/composables/usePolling.ts:82-106 | after a run of probes, the counter (the fold Polling.CountAfter of Polling.NextErrorCount: reset, keep or add one) is the number of throws since the last 2xx answer, AbortError included |
| Polling.NotReadyKeepsCount | src/composables/usePolling.ts:89-101 | non-2xx answers (503 included) never move the counter |
| Polling.ThreeCorsFailures | src/composables/usePolling.ts:103-131 | three CORS failures from a fresh start leave the counter at 3, each reported as 'CORS policy blocked request' |
| Polling.AbortController.constructor | src/composables/usePolling.ts:55 | a new controller is not aborted |
| Polling.AbortController.Abort | src/composables/usePolling.ts:196 | aborting marks the controller aborted |
| Polling.Poller.constructor | src/composables/usePolling.ts:32-41 | the initial state is not polling, no last check, counter 0, no timer, no controller, nothing in flight |
| Polling.Poller.BeginProbe | src/composables/usePolling.ts:44-55 | with a probe in flight, returns {false,false} and changes nothing; otherwise marks one in flight with a fresh controller |
| Polling.Poller.FinishProbe | src/composables/usePolling.ts:75-145 | stamps lastChecked, moves the counter as classified, returns the classified result, and clears the controller and in-flight flag |
| Polling.Poller.CheckEndpoint | src/composables/usePolling.ts:44-146 | a whole probe: skipped without effect while another is in flight, otherwise begin plus finish |
| Polling.Poller.StartPolling | src/composables/usePolling.ts:149-179 | a no-op while polling; otherwise polling with counter 0, the first probe begun with a new, un-aborted controller and the timer armed |
| Polling.Poller.TimerTick | src/composables/usePolling.ts:168-171 | a tick after stop does nothing; otherwise a probe begins, with a new, un-aborted controller, unless one is in flight |
| Polling.Poller.ProbeSettled | src/composables/usePolling.ts:171-177 | a settled probe that grants access stops polling; any other outcome leaves polling as it was |
| Polling.Poller.StopPolling | src/composables/usePolling.ts:182-202 | idempotent: a no-op when not polling; otherwise no timer, the controller aborted and dropped, nothing in flight |
| Polling.Poller.Cleanup | src/composables/usePolling.ts:212-219 | always ends not polling, with no timer, no last check and counter 0; the controller of a probe in flight is aborted when polling was on and left untouched when it was off |
| Polling.UsePolling | src/composables/usePolling.ts:21-41 | fails with the configuration error exactly when there is one; otherwise a fresh, idle poller |
| MonadNetwork.ChainIdHexDecodes | src/composables/useWalletFixed.ts:12 | '0x279F' decodes as hex to 10143, the id the connection check compares against |
| MonadNetwork.SwitchToMonadTestnet | src/composables/useWalletFixed.ts:34-61 | true exactly when the switch succeeds, or it fails with numeric code 4902 and the add succeeds; false without a wallet |
| MonadNetwork.AddOnlyAfterUnknownChain | src/composables/useWalletFixed.ts:44-59 | the add outcome matters only after a 4902 rejection |
| EthersCompat.CompatSigner.constructor | src/utils/ethersCompat.ts:54-56 | the signer remembers accounts[0] |
| EthersCompat.CompatSigner.WithFrom | src/utils/ethersCompat.ts:62-73 | sendTransaction forces `from` to the signer's account and keeps every other field |
| EthersCompat.CreateProvider | src/utils/ethersCompat.ts:5-84 | fails with '无法创建 ethers provider' exactly when the wallet object is missing |
| EthersCompat.ChainIdOf | src/utils/ethersCompat.ts:23-33 | getNetwork gives parseInt(chainId, 16), or 0 when the request fails |
| EthersCompat.ChainIdRoundTrip | src/utils/ethersCompat.ts:23-33 | a chain id written as '0x' + hex is decoded back to itself (exactly; the JavaScript double agrees below 2^53) |
| EthersCompat.ProviderBalance | src/utils/ethersCompat.ts:35-46 | the provider's balance is the converted answer, or 0 on any failure |
| EthersCompat.FormatEther | src/utils/ethersCompat.ts:114-121 | formatEther never throws; it falls back to "0" |
| EthersCompat.ParseEther | src/utils/ethersCompat.ts:123-130 | parseEther never throws; it falls back to 0 |
| EthersCompat.BalanceText | src/utils/ethersCompat.ts:104-112 | getBalance never throws: "0" when rendering fails; a failed request shows as the rendering of 0 |
| EthersCompat.GetSigner | src/utils/ethersCompat.ts:48-93 | fails with '无法获取 signer' exactly when eth_accounts rejects or is empty; otherwise a new signer for accounts[0] |
| EthersCompat.TxValue | src/utils/ethersCompat.ts:166 | the value is '0x' followed by the amount's lower-case hex digits without leading zeros (a '-' after the '0x' for a negative amount); read back as hex it yields a non-negative amount and NaN for a negative one |
| EthersCompat.BuildTx | src/utils/ethersCompat.ts:163-168 | the transaction goes to the contract, from the resolved sender, carrying the payForWiFi selector, and its value is exactly TxValue(wei): '0x' + the amount's hex digits, which read back as the amount |
| EthersCompat.Wait | src/utils/ethersCompat.ts:178-189 | wait() yields status 1 and the hash that was submitted |
| EthersCompat.Sender | src/utils/ethersCompat.ts:144-161 | the sender is the signer's address if non-empty; otherwise, when the wallet is present and eth_accounts answers, its first account (none for an empty list); otherwise what the signer gave, an empty address included, or none without a signer |
| EthersCompat.ChannelFor | src/utils/ethersCompat.ts:173-239 | channel priority is signer, then provider transport, then window.ethereum; with none, there is no channel |
| EthersCompat.PayForWiFi | src/utils/ethersCompat.ts:140-240 | submits the built transaction through the chosen channel; the signer submits from its own account; without a channel it throws 'No valid signer or provider found'; the hash is the wallet's answer |
| EthersCompat.SignerSendsFromItsAccount | src/utils/ethersCompat.ts:62-73 | whatever sender was resolved, a signer's transaction is from the signer's account |
| WalletFixed.SharedWallet.constructor | src/composables/useWalletFixed.ts:24-25 | the shared session starts with no provider and no signer |
| WalletFixed.SharedWallet.ConnectWallet | src/composables/useWalletFixed.ts:63-133 | no wallet, no accounts or a failed switch refuse without touching the session; a rejected account request resets both; success returns accounts[0] with a new provider, and a signer only if one could be obtained |
| WalletFixed.SharedWallet.CheckConnection | src/composables/useWalletFixed.ts:135-176 | succeeds exactly when accounts exist and the chain id decodes to 10143; every refusal leaves the session alone, and only a wrong chain carries a message; provider and signer are created only where missing |
| WalletFixed.SharedWallet.GetBalance | src/composables/useWalletFixed.ts:178-191 | never throws; "0" when no provider exists or can be built; otherwise the compat balance text |
| WalletFixed.SharedWallet.Disconnect | src/composables/useWalletFixed.ts:193-196 | both fields are cleared; a second call changes nothing |
| WalletLegacy.Session.constructor | src/composables/useWallet.ts:24-25 | each session starts with no provider and no signer |
| WalletLegacy.Session.ConnectWallet | src/composables/useWallet.ts:60-117 | refusals before the provider is built leave the session alone; after that, any failure resets both fields and reports the message of the first failing call, or '连接钱包失败'; success always holds a signer |
| WalletLegacy.FirstRejection | src/composables/useWallet.ts:92-98 | the error of the first rejected call in the order send, getSigner, getAddress, getNetwork; none exactly when all four succeed |
| WalletLegacy.Session.CheckConnection | src/composables/useWallet.ts:119-168 | no accounts leaves the session alone; a new provider is set before the chain check, so a mismatch keeps it; a signer failure still succeeds with accounts[0]; a failed account or network request resets both |
| WalletLegacy.Session.GetBalance | src/composables/useWallet.ts:170-180 | "0" without a provider or on any failure |
| WalletLegacy.Session.Disconnect | src/composables/useWallet.ts:182-185 | both fields are cleared |
| Payment.PaymentErrorMessage | src/composables/usePayment.ts:95-114 | code 4001 means user-cancelled, else 'INSUFFICIENT_FUNDS' means insufficient balance, else the message or '支付失败'; never empty |
| Payment.StringCodeIsNotRejection | src/composables/usePayment.ts:96-114 | a string code "4001" is not treated as a user rejection |
| Payment.PayAndReturn | src/composables/usePayment.ts:38-116 | no provider gives '钱包未连接' with nothing changed; a missing signer gets one acquisition attempt; the signer pays if present, else the provider; the whole submitted transaction is stated on both paths, with the provider paying from the sender payForWiFi resolves through eth_accounts; success returns the receipt hash |
| Payment.VerifyFailure | src/composables/usePayment.ts:134-158 | a failed verification never grants access: timeout, then '服务器错误: <status>', then network failure |
| Payment.VerifyPayment | src/composables/usePayment.ts:118-159 | the server's answer is passed through; a failed request is answered by VerifyFailure (timeout, server error with status, network failure) and never grants access |
| Payment.ServerErrorMessageShape | src/composables/usePayment.ts:145-151 | a server-error message is the prefix followed by decimal digits that read back as the status |

## Left out

- Real `fetch`, `AbortController` signals, `setTimeout` and `setInterval` are not modelled. A probe's fetch outcome is an input. The 10-second timeout shows up as an `AbortError` outcome. Timer ids and the time stamped into `lastChecked` are inputs.
- Interleavings are not modelled: each event runs to completion. This leaves out a probe cancelled by `stopPolling` whose `finally` runs after a later probe has started.
- Vue reactivity (`ref`, `reactive`, `readonly`) is not modelled; the state is plain fields. Console logging is left out.
- Polling.Classify: `error.message.includes` on a thrown value with no message (which itself throws in JavaScript) is not modelled. A missing message is treated as an empty one.
- Polling.ConfigError: a non-string endpoint is modelled as a missing one. A NaN interval is modelled as a missing one. `maxRetries` is never read.
- The ethers library (`BrowserProvider`, `getSigner`, `getAddress`, `getNetwork`, `getBalance`, `formatEther`, `parseEther`) is not modelled; only the outcomes of its calls are inputs. The compat provider's `BigInt(balance)` conversion is folded into its balance input.
- JsHex.ParseInt16: leading white space is not skipped. A non-string `eth_chainId` answer is not modelled.
- EthersCompat.Sender: `from: null` (no sender resolved) and `from: undefined` (`accounts[0]` of an empty `eth_accounts` list) are both `None`; no property here tells them apart.
- JsHex.ParseInt16: returns the exact integer, where JavaScript's `parseInt` returns a double that rounds above 2^53. The read-back lemmas JsHex.ParseDigits, JsHex.ParseToString16, JsHex.ParsePrefixedToString16 and EthersCompat.ChainIdRoundTrip hold for the JavaScript value only below 2^53.
- The artificial delays (100 ms in `createProvider`, 3 s in `wait()`) and the unused ABI are left out. The catch in `createContract` is left out, because nothing in its try block can throw.
- A `window.ethereum` that is defined but falsy is not modelled: the wallet's presence is one boolean. `checkMetaMask` and `createProvider` would disagree on such a value.
- WalletLegacy.Session.ConnectWallet: `getSigner` and `getAddress` are separate inputs, but the signer object carries no address. The address only appears in the result.
- Payment.PayAndReturn: `paidAmount.toString()` is not modelled; the outcome of `parseEther` is the input. `returnedAmount` is never used.
- `mockPayment` is not modelled (randomness and a delay). The `axios` request is not modelled; its outcome is an input.
- In `src/utils/wifidog.ts`, these are not part of this model: `getClientMacAddress` (WebRTC), the canvas that produces the fingerprint, `buildWifiDogAuthUrl` and `redirectToWifiDogAuth`.
- In `scripts/update-frontend-config.js`, these are left out: the file reads and writes, and the generated configuration text (an input).
- WifiDog.FingerprintHash: code units come from `charCodeAt` and are taken as given. The UTF-16 encoding of the fingerprint text is not modelled.
