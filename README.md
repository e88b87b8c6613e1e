# LINE wallet bot and donation endpoint — a Dafny model

This project models the in-memory bookkeeping of a LINE chat bot. The bot
lets chat users bind a crypto wallet and send a transaction. A user binds a
wallet in one of two ways: by pairing a wallet app over WalletConnect (a
"walletconnect" binding), or through the custodial Kaia Wallet web API (a
"kaia" binding). The model covers:

- **The bot client's stores** (`BotClient`, from `bot/kaia_bot_client.ts`).
  The class `KaiaBotClient` has three maps:
  - `walletInfo`: user id → binding;
  - `wcTopics`: user id → WalletConnect session topic;
  - `callbacks`: webhook event type → callback.

  Every mutating method states the exact new value of all three maps. The
  module also holds the listener that `start` installs, the reverse lookup
  by topic, and the refresh of a binding from the session store.
- **The bot's command handling** (`LineBot`, from `bot/index.ts`):
  - the router for incoming text;
  - the per-user send-transaction conversation in `userStates`;
  - the two connection handlers and how they race;
  - disconnection;
  - the Kaia Wallet auth poller;
  - the `eth_sendTransaction` request that `sendTx` builds.

  The conversation is specified by two transition functions, `StartFlow` and
  `AdvanceFlow`. The methods are proved to follow them, and lemmas about the
  functions give the flow's properties.
- **The donation result endpoint** (`DonationResult`, from
  `donation-liff/pages/api/result.ts`): its poller and its mapping to HTTP
  status codes.
- **Two display helpers** (`ProjectList`, from
  `liff/components/ProjectList.tsx`).
- **Supporting modules.** `JsStrings` models JavaScript `split` on one
  character and `trim`. `Hex` models `BigInt.prototype.toString(16)`.
  `KaiaWalletApi` holds the replies of the Kaia Wallet result endpoint.
  `Wrappers` holds `Option`.

External services are not modelled; what they return is passed in as
inputs. These are LINE messaging, the Supabase channel, the WalletConnect
sign client, the Kaia Wallet HTTP API and the RPC node. Each poller gets a
sequence with one reply per status request. The race between the two
connection branches gets an input saying which branch settles first. The
session store and the clock are `sessions` and `now` parameters.

A few behaviours of the bot that a reader may not expect; the model follows
the code:

- **No connection timeout.** The 300-second timer is created only after the
  first race has already been awaited, so it can never win. `ConnectResult`
  therefore has no timeout case.
- **The loser of the race can overwrite the winner.** Neither connection
  branch checks for an existing binding, so a branch that settles late still
  writes its binding. `LineBot.LastWriterDecides` states this.
- **A failed branch can decide the race.** `Promise.race` reports whichever
  branch settles first, even a failure. `LineBot.RaceResult` states this.
- **No donation conversation.** The bot has no `/donate` command and no
  project-id steps; its only conversation collects an address and an amount.
- **The auth poller also checks the reply type.** It accepts a `completed`
  reply only when its type is `auth`. The donation poller looks at the
  status only.
- **Kaia sends get an empty topic.** `sendTx` sends a request for a `kaia`
  binding through the WalletConnect session too, using the user's topic,
  which is "" when there is none.

## Model

| member | source | states |
|---|---|---|
| `BotClient.KaiaBotClient.constructor` | bot/kaia_bot_client.ts:38-76 | all three maps start empty |
| `BotClient.KaiaBotClient.On` | bot/kaia_bot_client.ts:92-94 | the callback for the event type is replaced, and no other callback or store changes |
| `BotClient.KaiaBotClient.DispatchWebhook` | bot/kaia_bot_client.ts:80-90 | the listener's invocations are exactly `Invocations(callbacks, events)`: in event order, one per event whose type has a callback, and that type's callback |
| `BotClient.Invocations` | bot/kaia_bot_client.ts:82-87 | there are never more invocations than events, and each one uses the callback registered for its event's type |
| `BotClient.InvocationsAppend` | bot/kaia_bot_client.ts:82-87 | handling `a + b` gives the invocations of `a` followed by those of `b` |
| `BotClient.InvocationsComplete` | bot/kaia_bot_client.ts:83-86 | every event whose type has a callback is handed to that callback |
| `BotClient.InvocationsSkipUnregistered` | bot/kaia_bot_client.ts:84-86 | events of unregistered types invoke nothing |
| `BotClient.KaiaBotClient.Disconnect` | bot/kaia_bot_client.ts:118-126 | if the sign client throws, nothing changes. Otherwise only the binding of the user found by topic is removed, and only when the topic and that user id are non-empty. `wcTopics` is never changed. No binding is removed when no user has the topic |
| `BotClient.KaiaBotClient.UserIdByTopic` | bot/kaia_bot_client.ts:193-195 | the user returned has exactly that topic stored, and `None` is returned exactly when no user has it |
| `BotClient.KaiaBotClient.RemoveWalletInfo` | bot/kaia_bot_client.ts:128-132 | the user's binding and topic are removed, and every other user is left untouched |
| `BotClient.KaiaBotClient.GetTopic` | bot/kaia_bot_client.ts:138-140 | returns the stored topic, or "" when the user has none |
| `BotClient.KaiaBotClient.SetTopic` | bot/kaia_bot_client.ts:142-144 | `GetTopic` then returns the new topic for this user and the old topic for every other user |
| `BotClient.KaiaBotClient.DeleteTopic` | bot/kaia_bot_client.ts:146-149 | the user's topic and binding are removed, and nothing else changes |
| `BotClient.KaiaBotClient.SetWalletInfo` | bot/kaia_bot_client.ts:151-153 | `GetWalletInfo` then returns the new binding for this user, and the same as before for every other user |
| `BotClient.KaiaBotClient.GetWalletInfo` | bot/kaia_bot_client.ts:155-157 | returns the binding, or `None` exactly when the user has none |
| `BotClient.KaiaBotClient.UpdateWCWalletInfo` | bot/kaia_bot_client.ts:159-176 | the new `walletInfo` is `Refreshed(...)` of the old stores, and topics and callbacks are unchanged |
| `BotClient.RefreshedEffect` | bot/kaia_bot_client.ts:160-175 | a refresh touches only the given user. The user stays bound, to a `walletconnect` record with metadata, exactly when its session exists and `expiry*1000 > now`; otherwise the user is unbound |
| `BotClient.KaiaBotClient.SetKaiaWalletInfo` | bot/kaia_bot_client.ts:178-183 | the user is bound to a `kaia` record with the given address, and nothing else changes |
| `BotClient.KaiaBotClient.AwaitApproval` | bot/kaia_bot_client.ts:109-114 | on approval, the refresh is run with the session topic in the place of a user id, and the session is passed on. A rejection passes through and changes nothing |
| `BotClient.IsWalletConnectInfo` | bot/kaia_bot_client.ts:185-187 | holds only for a `walletconnect` record that has metadata, so `sendTx` and `disconnect` can read the peer's metadata; never for a `kaia` record |
| `BotClient.IsKaiaWalletInfo` | bot/kaia_bot_client.ts:189-191 | holds exactly for `kaia` records, and never together with the WalletConnect guard |
| `BotClient.WalletKindsExclusive` | bot/kaia_bot_client.ts:185-191 | the two type guards never both hold, and a `walletconnect` record without metadata satisfies neither |
| `BotClient.AccountAddress` | bot/index.ts:240 | the extracted address never contains ':' |
| `BotClient.CaipAccountAddress` | bot/kaia_bot_client.ts:164 | `namespace:reference:address` yields `address` |
| `BotClient.CaipAccountWithoutAddress` | bot/index.ts:240 | an account id with only two fields yields "" |
| `BotClient.SessionAddress` | bot/kaia_bot_client.ts:164 | the session's address never contains ':', and is "" when the session has no `eip155` namespace or no account |
| `BotClient.SessionAddressOfAccount` | bot/index.ts:240 | a session whose first account is `namespace:reference:address` yields `address`, whatever accounts follow |
| `BotClient.TopicOf` | bot/kaia_bot_client.ts:160 | the user's stored topic, and "" for a user without one |
| `LineBot.RouteOf` | bot/index.ts:35-54 | each of the four command texts routes to its handler, if and only if. Any other text is conversation input when the user has an entry, and the greeting when not |
| `LineBot.LineBot.HandleMessage` | bot/index.ts:31-55 | for a text event: the route is `RouteOf(text, user has an entry)`. `userStates` changes only as `StartFlow` or `AdvanceFlow` says, and only on those two routes. On conversation input, `tx` is the `SendTxPlan` outcome exactly when the step calls `sendTx`. On `/connect` and `/disconnect`, the result and the client's new stores are those `Connect` and `Disconnect` state. Every other route leaves the client's stores unchanged |
| `LineBot.UserIdOf` | bot/index.ts:33 | the event's user id, and "" when the event has none |
| `LineBot.LineBot.constructor` | bot/index.ts:21 | `userStates` starts empty, and the bot holds the given client |
| `LineBot.StartFlow` | bot/index.ts:385 | a bound user gets exactly the entry `{state: WAITING_FOR_ADDRESS}` and every other entry stays; an unbound user changes nothing |
| `LineBot.AdvanceFlow` | bot/index.ts:389-418 | a step never adds an entry. A user without an entry changes nothing and sends nothing. When `sendTx` is called, its amount is the message text and the user's entry is gone |
| `LineBot.LineBot.InitiateSendTx` | bot/index.ts:376-387 | `userStates` becomes `StartFlow(...)`: without a binding no entry is created; with one the entry is exactly `{state: WAITING_FOR_ADDRESS}` |
| `LineBot.LineBot.HandleSendTxInput` | bot/index.ts:389-423 | `userStates` becomes `AdvanceFlow(...).states`, and `sendTx` is called exactly when the step says so, with its outcome returned |
| `LineBot.AdvanceFlowSteps` | bot/index.ts:401-418 | in `WAITING_FOR_ADDRESS` the text is stored verbatim, the step becomes `WAITING_FOR_AMOUNT` and the entry is kept. Every other step deletes the entry. `sendTx(address, text)` is called if and only if the step was `WAITING_FOR_AMOUNT` with a non-empty address |
| `LineBot.AdvanceFlowIsLocal` | bot/index.ts:392-417 | other users' entries are unchanged |
| `LineBot.FlowsStayWellFormed` | bot/index.ts:385-417 | both transitions keep every entry in one of its two reachable shapes, so the "invalid state" branch is never reached |
| `LineBot.SendTxConversation` | bot/index.ts:376-418 | after `/send_tx`, an address and an amount, `sendTx` gets exactly `(address, amount)` and the user's entry is gone |
| `LineBot.SendTxPlan` | bot/index.ts:426-518 | no binding gives `NoWallet`, and an amount that cannot be converted gives `InvalidAmount`. A binding of neither kind stops with `UnknownWalletType` before any request. Otherwise the request goes to the user's topic, from the bound address to the collected one, with a `0x` value that reads back as the amount |
| `Hex.ToHex` | bot/index.ts:454 | lower-case hex digits, never empty, with a leading '0' only for zero |
| `Hex.ParseToHex` | bot/index.ts:454 | parsing the rendered digits gives back the integer |
| `Hex.ToSignedHex` | bot/index.ts:454 | `BigInt.toString(16)`: hex digits that read back as the integer, with no leading zeros; a negative value is '-' followed by the digits of its magnitude |
| `Hex.HexValue` | bot/index.ts:454 | "0x" followed by a rendering that reads back as the value; only digits follow when the value is non-negative |
| `LineBot.AuthDecisionOf` | bot/index.ts:290-298 | a failed request keeps polling. `canceled` finishes with null. A `completed` `auth` reply finishes with its `klaytn_address`, or keeps polling when it has no `result` (the read throws inside the `try`). Any other status keeps polling, and only `canceled` or a completed auth reply can finish |
| `LineBot.PollKaiaWalletResult` | bot/index.ts:281-306 | at most `maxAttempts` requests. Every request before the last kept the loop going. The result is the last reply's verdict, or null when attempts ran out. It equals `AuthPoll` of the first `maxAttempts` replies |
| `LineBot.AuthPollFirstFinish` | bot/index.ts:283-305 | the poller answers with the first reply that ends the loop, and null when no reply does |
| `LineBot.AuthPollAddressSource` | bot/index.ts:290-292 | an address only ever comes from a `completed` reply of type `auth` |
| `LineBot.AuthPollAfterPending` | bot/index.ts:283-302 | `n` pending replies and then a completed auth reply yield that reply's address |
| `LineBot.LineBot.Connect` | bot/index.ts:108-233 | a user with a binding gets `AlreadyConnected` and no store changes. A failed setup or a missing pairing URI changes nothing. Otherwise the stores become `RaceEffect` (both branches, in settling order) and the result is `RaceResult` (the first to settle) |
| `LineBot.LineBot.HandleMetaMaskConnection` | bot/index.ts:235-255 | succeeds exactly when the peer approves; the stores become `PeerBranch(...)` |
| `LineBot.PeerBranchBinds` | bot/index.ts:237-246 | an approved session binds the user to a `walletconnect` record with metadata and the session's address, and stores its topic |
| `LineBot.LineBot.HandleKaiaWalletConnection` | bot/index.ts:257-279 | succeeds exactly when the poller returns a non-empty address, which is then bound as `kaia` |
| `LineBot.LastWriterDecides` | bot/index.ts:212-215 | when both branches succeed, the branch that writes last decides the user's binding |
| `LineBot.LineBot.Disconnect` | bot/index.ts:532-577 | no binding leaves everything unchanged. A `walletconnect` binding with metadata is ended through the sign client; if that throws nothing changes, otherwise `deleteTopic` runs. Any other binding is removed by `removeWalletInfo`. After success, the user has neither binding nor topic |
| `DonationResult.PollKaiaWalletResult` | donation-liff/pages/api/result.ts:27-45 | at most `maxAttempts` requests. It returns the first terminal reply unchanged, without checking its type, and null exactly when none of the first `maxAttempts` replies is terminal |
| `DonationResult.IsTerminal` | donation-liff/pages/api/result.ts:35 | `completed` and `canceled` answers end the loop, a pending answer and a failed request do not; the `type` is not looked at |
| `DonationResult.FirstTerminal` | donation-liff/pages/api/result.ts:28-44 | a body it yields is itself terminal: its status is `completed` or `canceled` |
| `DonationResult.FirstTerminalNone` | donation-liff/pages/api/result.ts:28-44 | the poll yields nothing if and only if no reply is `completed` or `canceled` |
| `DonationResult.FirstTerminalIsFirst` | donation-liff/pages/api/result.ts:35-37 | the yielded body is the first terminal reply's |
| `DonationResult.Handler` | donation-liff/pages/api/result.ts:47-72 | a non-GET method gives 405 `error` with no polling. A `requestKey` that is not one string gives 400 with no polling. Otherwise a null poll gives 408 `timeout`, and 200 carries the polled body unchanged |
| `ProjectList.ProjectImageUrl` | liff/components/ProjectList.tsx:51-60 | ids 1 to 4 give `/images/<id>.png`, and every other id gives `/images/default-project.jpg` |
| `ProjectList.ShortTitle` | liff/components/ProjectList.tsx:62-66 | the result has no ':' and no whitespace at either end. It is the text before the first ':' with only whitespace cut from its ends |
| `ProjectList.ShortTitleWithoutColon` | liff/components/ProjectList.tsx:64-65 | a title without ':' gives the whole title trimmed |
| `ProjectList.ShortTitleOfPrefix` | liff/components/ProjectList.tsx:64-65 | `head: rest` gives `head` trimmed |
| `JsStrings.Split` | liff/components/ProjectList.tsx:64 | there is at least one piece, no piece contains the separator, and the first piece is the text before the first separator |
| `JsStrings.SplitJoin` | bot/index.ts:240 | splitting a join of separator-free pieces gives back the pieces |
| `JsStrings.JoinSplit` | bot/index.ts:240 | joining the pieces of a split gives back the string |
| `JsStrings.Trim` | liff/components/ProjectList.tsx:65 | no whitespace at either end, and what was cut on each side is all whitespace |
| `JsStrings.TrimIdempotent` | liff/components/ProjectList.tsx:65 | trimming twice is trimming once |

## Left out

- Messages to the user are not modelled: texts, quick replies, `say_hello`, `show_commands`, and what `myWallet` reports. These are presentation. The model treats every send to LINE as successful. In the source, a failing send inside a connection handler's success message makes that branch report `error` after it has written its binding.
- The Supabase channel subscription and `createKaiaBotClient` are left out; only the listener body is modelled. The constructor's `deasync` busy-wait for the sign client is left out; it is a runtime workaround.
- The WalletConnect sign client is modelled by its answers only. `connect` and the Kaia `prepare` request are reduced to whether the setup succeeded. `approval()` is an `Approval` input. `disconnect` is whether it succeeded. `session.get` is the `sessions` map, and a missing topic throws. The request key is not tracked.
- The `eth_sendTransaction` call, the gas price and gas estimate RPCs, and the transaction-hash reply are left out. `sendTx` is modelled up to the request it submits. Failures of these calls are caught in the source and change no state.
- The amount conversion `BigInt(Math.floor(parseFloat(amount) * 1e18))` is left out because it is floating point. Its result is the `peb` input, with `None` when it throws.
- Timing is not modelled: the race's timing, the 300-second timer, and the sleeps between polls. The input `peerFirst` fixes the order in which the two branches write and settle. The model lets each branch write and settle before the other writes.
- The model runs each message handler to completion. In the source, handlers are started without `await`, so two messages from the same user can interleave. For example, a second message can arrive while the last step still awaits `sendTx`.
- Callbacks are closures in the source; the model names them by a `CallbackId`. A callback that re-registers callbacks while a batch is being handled is not modelled.
- BotClient.KaiaBotClient.UserIdByTopic: `find` returns the first matching key in the object's insertion order, but the model may return any user with that topic, because Dafny maps have no order. `Disconnect` inherits this when two users share a topic.
- LineBot.PollKaiaWalletResult: `maxAttempts` is a natural number here, while the source accepts any JavaScript number.
- DonationResult.Handler: the 500 branch is not modelled, because the poller catches every failure itself and never throws.
- Left out because they are not part of the bot's bookkeeping:
  - certificate generation (`web/`);
  - the donate API route;
  - all React pages and components except the two helpers;
  - the contract scripts, Hardhat configuration and contract test.
