/** The LINE bot's command handling (bot/index.ts): routing of incoming text,
    the per-user send-transaction conversation kept in `userStates`, the
    connection handlers that fill the client's wallet store, disconnection,
    the Kaia Wallet auth poller, and the transaction request `sendTx` builds.
    Messages sent back to the user are presentation and are not modelled; the
    answers of the external services are inputs. */
module LineBot {
  import opened Wrappers
  import opened BotClient
  import opened KaiaWalletApi
  import Hex

  const WaitingForAddress := "WAITING_FOR_ADDRESS"
  const WaitingForAmount := "WAITING_FOR_AMOUNT"

  /** The default `maxAttempts` of the auth poller. */
  const AuthPollAttempts := 30

  const ChainId := "eip155:1001"

  /** One entry of `userStates`: `{state, address?, amount?}`. */
  datatype UserState = UserState(state: string, address: Option<string>, amount: Option<string>)

  // ---------------------------------------------------------------- routing

  datatype Route =
    | ConnectCommand
    | MyWalletCommand
    | SendTxCommand
    | DisconnectCommand
    | FlowInput  // handleSendTxInput
    | Greeting   // say_hello

  predicate IsCommand(text: string)
  {
    text == "/connect" || text == "/my_wallet" || text == "/send_tx" || text == "/disconnect"
  }

  /** The `switch` of `handleMessage`: the four command texts go to their
      handlers; any other text is conversation input when the user has a
      `userStates` entry and gets the greeting otherwise. */
  function RouteOf(text: string, inFlow: bool): (route: Route)
    ensures route == ConnectCommand <==> text == "/connect"
    ensures route == MyWalletCommand <==> text == "/my_wallet"
    ensures route == SendTxCommand <==> text == "/send_tx"
    ensures route == DisconnectCommand <==> text == "/disconnect"
    ensures route == FlowInput <==> !IsCommand(text) && inFlow
    ensures route == Greeting <==> !IsCommand(text) && !inFlow
  {
    match text
    case "/connect" => ConnectCommand
    case "/my_wallet" => MyWalletCommand
    case "/send_tx" => SendTxCommand
    case "/disconnect" => DisconnectCommand
    case _ => if inFlow then FlowInput else Greeting
  }

  /** `event.source.userId || ""`. */
  function UserIdOf(e: Event): (userId: string)
    ensures e.userId.Some? ==> userId == e.userId.value
    ensures e.userId.None? ==> userId == ""
  {
    e.userId.GetOr("")
  }

  // ------------------------------------------------- send-transaction flow

  /** `userStates` after `initiateSendTx`: a fresh entry waiting for the
      address when a wallet is bound, no change otherwise. */
  function StartFlow(states: map<string, UserState>, userId: string, bound: bool): (r: map<string, UserState>)
    ensures r.Keys == if bound then states.Keys + {userId} else states.Keys
    ensures bound ==> r[userId] == UserState(WaitingForAddress, None, None)
    ensures forall u :: u in states && u != userId ==> r[u] == states[u]
    ensures !bound ==> r == states
  {
    if bound then states[userId := UserState(WaitingForAddress, None, None)] else states
  }

  datatype SendArgs = SendArgs(address: string, amount: string)

  /** What one input message does to the conversation: the new `userStates`
      and the `(address, amount)` `sendTx` is called with, if any. */
  datatype FlowStep = FlowStep(states: map<string, UserState>, send: Option<SendArgs>)

  /** `userStates` after `handleSendTxInput(text)`. The address step keeps
      the entry and stores the text; the amount step and any unknown step
      delete the entry, and the amount step calls `sendTx` only when a
      non-empty address was collected. */
  function AdvanceFlow(states: map<string, UserState>, userId: string, text: string): (step: FlowStep)
    ensures step.states.Keys <= states.Keys
    ensures userId !in states ==> step == FlowStep(states, None)
    ensures step.send.Some? ==> step.send.value.amount == text && userId !in step.states
  {
    if userId !in states then FlowStep(states, None)
    else
      var st := states[userId];
      if st.state == WaitingForAddress then
        FlowStep(states[userId := UserState(WaitingForAmount, Some(text), st.amount)], None)
      else if st.state == WaitingForAmount then
        var send := if st.address.Some? && st.address.value != "" then Some(SendArgs(st.address.value, text)) else None;
        FlowStep(states - {userId}, send)
      else
        FlowStep(states - {userId}, None)
  }

  /** Every other user's entry is left exactly as it was. */
  lemma AdvanceFlowIsLocal(states: map<string, UserState>, userId: string, text: string, other: string)
    requires other != userId
    ensures var r := AdvanceFlow(states, userId, text).states;
      (other in r <==> other in states) && (other in r ==> r[other] == states[other])
  {
  }

  /** The address step stores the text verbatim and moves to the amount
      step; every other step ends the flow. */
  lemma AdvanceFlowSteps(states: map<string, UserState>, userId: string, text: string)
    requires userId in states
    ensures var step := AdvanceFlow(states, userId, text);
      && (states[userId].state == WaitingForAddress ==>
            userId in step.states && step.states[userId].state == WaitingForAmount
            && step.states[userId].address == Some(text) && step.send.None?)
      && (states[userId].state != WaitingForAddress ==> userId !in step.states)
      && (step.send.Some? <==> states[userId].state == WaitingForAmount
                               && states[userId].address.Some? && states[userId].address.value != "")
      && (step.send.Some? ==> step.send.value == SendArgs(states[userId].address.value, text))
  {
  }

  /** The shape an entry can have between messages: waiting for the address
      with none collected, or waiting for the amount with the address in
      hand; the amount itself is never kept. */
  predicate WellFormedEntry(st: UserState)
  {
    && st.amount.None?
    && ((st.state == WaitingForAddress && st.address.None?)
        || (st.state == WaitingForAmount && st.address.Some?))
  }

  predicate WellFormedFlows(states: map<string, UserState>)
  {
    forall u :: u in states ==> WellFormedEntry(states[u])
  }

  /** Both transitions keep every entry well formed, so the "invalid state"
      branch of `handleSendTxInput` is never taken from a reachable state. */
  lemma FlowsStayWellFormed(states: map<string, UserState>, userId: string, text: string, bound: bool)
    requires WellFormedFlows(states)
    ensures WellFormedFlows(StartFlow(states, userId, bound))
    ensures WellFormedFlows(AdvanceFlow(states, userId, text).states)
    ensures userId in states ==>
              states[userId].state == WaitingForAddress || states[userId].state == WaitingForAmount
  {
  }

  /** The whole conversation: `/send_tx` with a wallet bound, an address,
      then an amount. `sendTx` gets exactly that address and amount, and no
      entry for the user is left behind. */
  lemma {:induction false} SendTxConversation(states: map<string, UserState>, userId: string, address: string, amount: string)
    requires address != ""
    ensures var s1 := StartFlow(states, userId, true);
      var step2 := AdvanceFlow(s1, userId, address);
      var step3 := AdvanceFlow(step2.states, userId, amount);
      && userId in s1 && userId in step2.states && step2.send.None?
      && step3.states == states - {userId}
      && step3.send == Some(SendArgs(address, amount))
  {
    var s1 := StartFlow(states, userId, true);
    var s2 := AdvanceFlow(s1, userId, address).states;
    assert s2 == states[userId := UserState(WaitingForAmount, Some(address), None)];
    assert s2 - {userId} == states - {userId};
  }

  // ------------------------------------------------------------- sendTx

  /** The `eth_sendTransaction` request `sendTx` submits over the session. */
  datatype TxRequest = TxRequest(topic: string, chainId: string, from: string, to: string, value: string)

  /** Where `sendTx` stops: no wallet bound, an amount that cannot be
      converted, a binding of neither kind (the thrown "Unknown wallet type"),
      or the request it submits. */
  datatype TxOutcome = NoWallet | InvalidAmount | UnknownWalletType | Requested(request: TxRequest)

  /** `sendTx(address, amount)`, with `peb` the amount already converted to
      the smallest unit (`None` when the conversion throws). The value sent is
      "0x" followed by a rendering of `peb` that reads back as `peb`. */
  function SendTxPlan(info: Option<WalletInfo>, topic: string, to: string, peb: Option<int>): (outcome: TxOutcome)
    ensures outcome == NoWallet <==> info.None?
    ensures outcome == InvalidAmount <==> info.Some? && peb.None?
    ensures outcome == UnknownWalletType <==>
              info.Some? && peb.Some? && !IsWalletConnectInfo(info.value) && !IsKaiaWalletInfo(info.value)
    ensures outcome.Requested? ==>
              && info.Some? && peb.Some?
              && outcome.request == TxRequest(topic, ChainId, info.value.address, to, outcome.request.value)
              && |outcome.request.value| >= 3 && outcome.request.value[..2] == "0x"
              && Hex.IsSignedHex(outcome.request.value[2..])
              && Hex.ParseSignedHex(outcome.request.value[2..]) == peb.value
  {
    if info.None? then NoWallet
    else if peb.None? then InvalidAmount
    else if !IsWalletConnectInfo(info.value) && !IsKaiaWalletInfo(info.value) then UnknownWalletType
    else Requested(TxRequest(topic, ChainId, info.value.address, to, Hex.HexValue(peb.value)))
  }

  // ------------------------------------------------------ Kaia auth poller

  /** What one answer of the result endpoint does to the loop. */
  datatype AuthDecision = KeepPolling | Finish(address: Option<string>)

  /** A `completed` `auth` answer finishes with its `klaytn_address` (reading
      it from a missing `result` throws inside the `try` and the loop goes
      on); `canceled` finishes with null; anything else, and a failed request,
      keeps polling. */
  function AuthDecisionOf(reply: Reply): (decision: AuthDecision)
    ensures reply.RequestFailed? ==> decision == KeepPolling
    ensures decision.Finish? ==>
              reply.Received? && (reply.data.status == StatusCanceled
                                  || (reply.data.status == StatusCompleted && reply.data.kind == TypeAuth))
    ensures reply.Received? && reply.data.status == StatusCanceled ==> decision == Finish(None)
    ensures reply.Received? && reply.data.status == StatusCompleted && reply.data.kind == TypeAuth ==>
              decision == if reply.data.result.Some? then Finish(reply.data.result.value.klaytnAddress) else KeepPolling
    ensures reply.Received? && reply.data.status != StatusCompleted && reply.data.status != StatusCanceled ==>
              decision == KeepPolling
  {
    match reply
    case RequestFailed => KeepPolling
    case Received(d) =>
      if d.status == StatusCompleted && d.kind == TypeAuth then
        if d.result.Some? then Finish(d.result.value.klaytnAddress) else KeepPolling
      else if d.status == StatusCanceled then Finish(None)
      else KeepPolling
  }

  /** The poller's answer given the answers to its successive requests. */
  function AuthPoll(replies: seq<Reply>): Option<string>
  {
    if replies == [] then None
    else
      match AuthDecisionOf(replies[0])
      case Finish(a) => a
      case KeepPolling => AuthPoll(replies[1..])
  }

  /** The poller answers with the first finishing reply, and with null when
      no reply finishes. */
  lemma {:induction false} AuthPollFirstFinish(replies: seq<Reply>, k: nat)
    requires k <= |replies|
    requires forall j :: 0 <= j < k ==> AuthDecisionOf(replies[j]).KeepPolling?
    ensures k < |replies| && AuthDecisionOf(replies[k]).Finish? ==>
              AuthPoll(replies) == AuthDecisionOf(replies[k]).address
    ensures k == |replies| ==> AuthPoll(replies) == None
  {
    if k > 0 {
      AuthPollFirstFinish(replies[1..], k - 1);
    }
  }

  /** An address comes only from a `completed` reply of type `auth`. */
  lemma {:induction false} AuthPollAddressSource(replies: seq<Reply>)
    requires AuthPoll(replies).Some?
    ensures exists k :: 0 <= k < |replies| && replies[k].Received?
              && replies[k].data.status == StatusCompleted && replies[k].data.kind == TypeAuth
              && replies[k].data.result.Some?
              && replies[k].data.result.value.klaytnAddress == AuthPoll(replies)
  {
    if AuthDecisionOf(replies[0]).Finish? {
      assert replies[0].Received? && replies[0].data.status == StatusCompleted;
    } else {
      AuthPollAddressSource(replies[1..]);
      var k :| 0 <= k < |replies[1..]| && replies[1..][k].Received?
                && replies[1..][k].data.status == StatusCompleted && replies[1..][k].data.kind == TypeAuth
                && replies[1..][k].data.result.Some?
                && replies[1..][k].data.result.value.klaytnAddress == AuthPoll(replies[1..]);
      assert replies[k + 1] == replies[1..][k];
    }
  }

  /** `n` pending answers followed by a completed auth answer yield its
      address. */
  lemma {:induction false} AuthPollAfterPending(n: nat, address: string, rest: seq<Reply>)
    ensures var pending := Received(ResultData(StatusPending, TypeAuth, None));
      var done := Received(ResultData(StatusCompleted, TypeAuth, Some(ResultFields(Some(address), None, None))));
      AuthPoll(seq(n, _ => pending) + [done] + rest) == Some(address)
  {
    var pending := Received(ResultData(StatusPending, TypeAuth, None));
    var done := Received(ResultData(StatusCompleted, TypeAuth, Some(ResultFields(Some(address), None, None))));
    var replies := seq(n, _ => pending) + [done] + rest;
    assert forall j :: 0 <= j < n ==> replies[j] == pending;
    assert replies[n] == done;
    AuthPollFirstFinish(replies, n);
  }

  /** `pollKaiaWalletResult(requestKey, maxAttempts)`; `replies[i]` is the
      answer to the `i`-th status request, the sleep between requests is not
      modelled, and `requests` counts the requests made. */
  method PollKaiaWalletResult(replies: seq<Reply>, maxAttempts: nat) returns (address: Option<string>, requests: nat)
    requires maxAttempts <= |replies|
    ensures requests <= maxAttempts
    ensures forall k :: 0 <= k < requests - 1 ==> AuthDecisionOf(replies[k]).KeepPolling?
    ensures 0 < requests && AuthDecisionOf(replies[requests - 1]).Finish? ==>
              address == AuthDecisionOf(replies[requests - 1]).address
    ensures requests == 0 || AuthDecisionOf(replies[requests - 1]).KeepPolling? ==>
              requests == maxAttempts && address.None?
    ensures address == AuthPoll(replies[..maxAttempts])
  {
    for i := 0 to maxAttempts
      invariant forall k :: 0 <= k < i ==> AuthDecisionOf(replies[k]).KeepPolling?
      invariant AuthPoll(replies[..maxAttempts]) == AuthPoll(replies[i..maxAttempts])
    {
      assert replies[i..maxAttempts][1..] == replies[i + 1..maxAttempts];
      var decision := AuthDecisionOf(replies[i]);
      if decision.Finish? {
        return decision.address, i + 1;
      }
    }
    return None, maxAttempts;
  }

  // ------------------------------------------------------ connecting

  /** The two wallet maps of the client, as one value. */
  datatype Stores = Stores(walletInfo: map<string, WalletInfo>, wcTopics: map<string, string>)

  /** What `handleMetaMaskConnection` does to the stores: when the peer
      approves, the approval wrapper's refresh runs (keyed by the topic), then
      the user's topic and a `walletconnect` binding are stored. */
  function PeerBranch(s: Stores, to: string, approval: Approval, sessions: map<string, Session>, now: int): Stores
  {
    if approval.Rejected? then s
    else
      var session := approval.session;
      var refreshed := Refreshed(s.walletInfo, s.wcTopics, session.topic, sessions, now);
      var info := WalletInfo(WalletConnect, SessionAddress(session.eip155Accounts), Some(session.peerMetadata));
      Stores(refreshed[to := info], s.wcTopics[to := session.topic])
  }

  /** The Kaia branch succeeds only with a non-empty address. */
  predicate KaiaSucceeds(address: Option<string>)
  {
    address.Some? && address.value != ""
  }

  /** What `handleKaiaWalletConnection` does to the stores. */
  function KaiaBranch(s: Stores, to: string, address: Option<string>): Stores
  {
    if KaiaSucceeds(address) then Stores(s.walletInfo[to := WalletInfo(Kaia, address.value, None)], s.wcTopics)
    else s
  }

  /** A successful peer branch binds the user to a `walletconnect` record
      with metadata and the session's topic, whatever was bound before. */
  lemma PeerBranchBinds(s: Stores, to: string, session: Session, sessions: map<string, Session>, now: int)
    ensures var r := PeerBranch(s, to, Approved(session), sessions, now);
      && to in r.walletInfo && IsWalletConnectInfo(r.walletInfo[to])
      && r.walletInfo[to].address == SessionAddress(session.eip155Accounts)
      && r.wcTopics == s.wcTopics[to := session.topic]
  {
  }

  /** Neither branch checks for an existing binding: when both succeed, the
      branch that writes last decides the user's binding. */
  lemma LastWriterDecides(s: Stores, to: string, session: Session, sessions: map<string, Session>, now: int, address: string)
    requires address != ""
    ensures var peerThenKaia := KaiaBranch(PeerBranch(s, to, Approved(session), sessions, now), to, Some(address));
      to in peerThenKaia.walletInfo && peerThenKaia.walletInfo[to] == WalletInfo(Kaia, address, None)
    ensures var kaiaThenPeer := PeerBranch(KaiaBranch(s, to, Some(address)), to, Approved(session), sessions, now);
      to in kaiaThenPeer.walletInfo && IsWalletConnectInfo(kaiaThenPeer.walletInfo[to])
  {
  }

  /** The answers the outside world gives to one `/connect`: whether
      `bot.connect` and the Kaia `prepare` call both succeed, whether a
      pairing URI came back, how the peer approval settles, the answers to
      the auth poller, which branch settles first, and the sign client's
      sessions and clock at approval time. */
  datatype ConnectInputs = ConnectInputs(
    setupSucceeds: bool,
    uriPresent: bool,
    approval: Approval,
    authReplies: seq<Reply>,
    peerFirst: bool,
    sessions: map<string, Session>,
    now: int)

  datatype ConnectResult = AlreadyConnected | SetupFailed | NoPairingUri | Connected | ConnectFailed

  /** The stores after both connection branches have run, in settling order. */
  function RaceEffect(s: Stores, to: string, inputs: ConnectInputs): Stores
    requires AuthPollAttempts <= |inputs.authReplies|
  {
    var address := AuthPoll(inputs.authReplies[..AuthPollAttempts]);
    if inputs.peerFirst then
      KaiaBranch(PeerBranch(s, to, inputs.approval, inputs.sessions, inputs.now), to, address)
    else
      PeerBranch(KaiaBranch(s, to, address), to, inputs.approval, inputs.sessions, inputs.now)
  }

  /** `Promise.race` of the two branches reports the FIRST to settle, even
      when it failed and the other later succeeds. */
  function RaceResult(inputs: ConnectInputs): ConnectResult
    requires AuthPollAttempts <= |inputs.authReplies|
  {
    var succeeded :=
      if inputs.peerFirst then inputs.approval.Approved?
      else KaiaSucceeds(AuthPoll(inputs.authReplies[..AuthPollAttempts]));
    if succeeded then Connected else ConnectFailed
  }

  // -------------------------------------------------------------- the bot

  /** The external answers any one incoming text may need: those for
      `/connect`, the converted amount for the last step of the flow, and
      whether the sign client's disconnect succeeds. */
  datatype Inputs = Inputs(connect: ConnectInputs, peb: Option<int>, peerDisconnected: bool)

  datatype DisconnectResult = NotConnected | Disconnected | DisconnectFailed

  class LineBot {
    const client: KaiaBotClient
    var userStates: map<string, UserState>

    constructor (client: KaiaBotClient)
      ensures this.client == client && userStates == map[]
    {
      this.client := client;
      userStates := map[];
    }

    /** `handleMessage` for a text message event. Besides the route taken,
        it reports what the handler it ran produced: the `sendTx` outcome of
        a conversation step, the connection result of `/connect`, and the
        disconnection result of `/disconnect` (with the user the client's
        own clean-up found by topic). */
    method HandleMessage(e: Event, inputs: Inputs)
      returns (route: Route, tx: Option<TxOutcome>, connected: Option<ConnectResult>,
               disconnected: Option<DisconnectResult>, ghost cleared: Option<string>)
      requires e.message.TextMessage?
      requires e.message.text == "/connect" ==> AuthPollAttempts <= |inputs.connect.authReplies|
      modifies this, client
      ensures route == RouteOf(e.message.text, UserIdOf(e) in old(userStates))
      ensures route == SendTxCommand ==>
                userStates == StartFlow(old(userStates), UserIdOf(e), UserIdOf(e) in old(client.walletInfo))
      ensures route == FlowInput ==> userStates == AdvanceFlow(old(userStates), UserIdOf(e), e.message.text).states
      ensures route != SendTxCommand && route != FlowInput ==> userStates == old(userStates)
      ensures route != ConnectCommand && route != DisconnectCommand ==>
                client.walletInfo == old(client.walletInfo) && client.wcTopics == old(client.wcTopics)
      ensures client.callbacks == old(client.callbacks)
      // a conversation step: the outcome of the `sendTx` it triggers, if any
      ensures route == FlowInput ==>
                tx == (var step := AdvanceFlow(old(userStates), UserIdOf(e), e.message.text);
                       if step.send.Some?
                       then Some(SendTxPlan(client.GetWalletInfo(UserIdOf(e)), client.GetTopic(UserIdOf(e)),
                                            step.send.value.address, inputs.peb))
                       else None)
      ensures route != FlowInput ==> tx.None?
      // `/connect`: as `Connect` states
      ensures connected.Some? <==> route == ConnectCommand
      ensures route == ConnectCommand && old(client.GetWalletInfo(UserIdOf(e))).Some? ==>
                connected.value == AlreadyConnected
      ensures route == ConnectCommand && old(client.GetWalletInfo(UserIdOf(e))).None?
              && !(inputs.connect.setupSucceeds && inputs.connect.uriPresent) ==>
                connected.value == (if inputs.connect.setupSucceeds then NoPairingUri else SetupFailed)
                && client.walletInfo == old(client.walletInfo) && client.wcTopics == old(client.wcTopics)
      ensures route == ConnectCommand && old(client.GetWalletInfo(UserIdOf(e))).Some? ==>
                client.walletInfo == old(client.walletInfo) && client.wcTopics == old(client.wcTopics)
      ensures route == ConnectCommand && old(client.GetWalletInfo(UserIdOf(e))).None?
              && inputs.connect.setupSucceeds && inputs.connect.uriPresent ==>
                connected.value == RaceResult(inputs.connect)
                && Stores(client.walletInfo, client.wcTopics)
                   == RaceEffect(Stores(old(client.walletInfo), old(client.wcTopics)), UserIdOf(e), inputs.connect)
      // `/disconnect`: as `Disconnect` states
      ensures disconnected.Some? <==> route == DisconnectCommand
      ensures route != DisconnectCommand ==> cleared.None?
      ensures route == DisconnectCommand ==>
                (disconnected.value == NotConnected <==> UserIdOf(e) !in old(client.walletInfo))
      ensures route == DisconnectCommand ==>
                (disconnected.value == DisconnectFailed <==>
                   UserIdOf(e) in old(client.walletInfo) && IsWalletConnectInfo(old(client.walletInfo)[UserIdOf(e)])
                   && !inputs.peerDisconnected)
      ensures route == DisconnectCommand && disconnected.value != Disconnected ==>
                client.walletInfo == old(client.walletInfo) && client.wcTopics == old(client.wcTopics)
      ensures route == DisconnectCommand && disconnected.value == Disconnected ==>
                && client.wcTopics == old(client.wcTopics) - {UserIdOf(e)}
                && client.walletInfo == (if cleared.Some? then old(client.walletInfo) - {cleared.value}
                                         else old(client.walletInfo)) - {UserIdOf(e)}
                && client.GetWalletInfo(UserIdOf(e)).None? && client.GetTopic(UserIdOf(e)) == ""
      ensures cleared.Some? ==>
                && UserIdOf(e) in old(client.walletInfo) && IsWalletConnectInfo(old(client.walletInfo)[UserIdOf(e)])
                && cleared.value in old(client.wcTopics)
                && old(client.wcTopics)[cleared.value] == old(client.GetTopic(UserIdOf(e)))
    {
      var text := e.message.text;
      var userId := UserIdOf(e);
      route := RouteOf(text, userId in userStates);
      tx, connected, disconnected, cleared := None, None, None, None;
      match route
      case ConnectCommand =>
        var result := Connect(userId, inputs.connect);
        connected := Some(result);
      case MyWalletCommand =>
        // myWallet only reports the binding back to the user.
      case SendTxCommand =>
        InitiateSendTx(userId);
      case DisconnectCommand =>
        var result;
        result, cleared := Disconnect(userId, inputs.peerDisconnected);
        disconnected := Some(result);
      case FlowInput =>
        tx := HandleSendTxInput(userId, text, inputs.peb);
      case Greeting =>
        // say_hello only sends the command list.
    }

    /** `initiateSendTx`: starts the flow only for a user with a wallet. */
    method InitiateSendTx(userId: string)
      modifies this
      ensures userStates == StartFlow(old(userStates), userId, client.GetWalletInfo(userId).Some?)
    {
      var wallet := client.GetWalletInfo(userId);
      if wallet.None? {
        return;
      }
      userStates := userStates[userId := UserState(WaitingForAddress, None, None)];
    }

    /** `handleSendTxInput`: advances the user's flow by one message, and in
        the amount step hands the collected address and the amount to
        `sendTx`, whose outcome is `tx`. */
    method HandleSendTxInput(userId: string, text: string, peb: Option<int>) returns (tx: Option<TxOutcome>)
      modifies this
      ensures var step := AdvanceFlow(old(userStates), userId, text);
        && userStates == step.states
        && tx == if step.send.Some?
                 then Some(SendTxPlan(client.GetWalletInfo(userId), client.GetTopic(userId), step.send.value.address, peb))
                 else None
    {
      tx := None;
      if userId !in userStates {
        return;
      }
      var userState := userStates[userId];
      if userState.state == WaitingForAddress {
        userState := userState.(address := Some(text));
        userState := userState.(state := WaitingForAmount);
        userStates := userStates[userId := userState];
      } else if userState.state == WaitingForAmount {
        userState := userState.(amount := Some(text));
        if userState.address.Some? && userState.address.value != "" {
          var outcome := SendTxPlan(client.GetWalletInfo(userId), client.GetTopic(userId), userState.address.value, peb);
          tx := Some(outcome);
        }
        userStates := userStates - {userId};
      } else {
        userStates := userStates - {userId};
      }
    }

    /** `connect`: a user who already has a wallet only gets a notice. Else,
        once the pairing and the Kaia `prepare` request are set up and a
        pairing URI exists, both connection branches run and write their
        bindings in the order they settle; the result is the first one's. */
    method Connect(to: string, inputs: ConnectInputs) returns (result: ConnectResult)
      requires AuthPollAttempts <= |inputs.authReplies|
      modifies client
      ensures old(client.GetWalletInfo(to)).Some? ==>
                result == AlreadyConnected && client.walletInfo == old(client.walletInfo)
                && client.wcTopics == old(client.wcTopics)
      ensures old(client.GetWalletInfo(to)).None? && !(inputs.setupSucceeds && inputs.uriPresent) ==>
                result == (if inputs.setupSucceeds then NoPairingUri else SetupFailed)
                && client.walletInfo == old(client.walletInfo) && client.wcTopics == old(client.wcTopics)
      ensures old(client.GetWalletInfo(to)).None? && inputs.setupSucceeds && inputs.uriPresent ==>
                result == RaceResult(inputs)
                && Stores(client.walletInfo, client.wcTopics)
                   == RaceEffect(Stores(old(client.walletInfo), old(client.wcTopics)), to, inputs)
      ensures client.callbacks == old(client.callbacks)
    {
      var walletInfo := client.GetWalletInfo(to);
      if walletInfo.Some? {
        return AlreadyConnected;
      }
      if !inputs.setupSucceeds {
        return SetupFailed;
      }
      if !inputs.uriPresent {
        return NoPairingUri;
      }
      var peerOk, kaiaOk;
      if inputs.peerFirst {
        peerOk := HandleMetaMaskConnection(to, inputs.approval, inputs.sessions, inputs.now);
        kaiaOk := HandleKaiaWalletConnection(to, inputs.authReplies);
        result := if peerOk then Connected else ConnectFailed;
      } else {
        kaiaOk := HandleKaiaWalletConnection(to, inputs.authReplies);
        peerOk := HandleMetaMaskConnection(to, inputs.approval, inputs.sessions, inputs.now);
        result := if kaiaOk then Connected else ConnectFailed;
      }
    }

    /** `handleMetaMaskConnection`: waits for the peer's approval, then
        stores the session topic and a `walletconnect` binding. */
    method HandleMetaMaskConnection(to: string, approval: Approval, sessions: map<string, Session>, now: int)
      returns (ok: bool)
      modifies client
      ensures ok == approval.Approved?
      ensures Stores(client.walletInfo, client.wcTopics)
              == PeerBranch(Stores(old(client.walletInfo), old(client.wcTopics)), to, approval, sessions, now)
      ensures client.callbacks == old(client.callbacks)
    {
      var session := client.AwaitApproval(approval, sessions, now);
      if session.None? {
        return false;
      }
      client.SetTopic(to, session.value.topic);
      var address := SessionAddress(session.value.eip155Accounts);
      client.SetWalletInfo(to, WalletInfo(WalletConnect, address, Some(session.value.peerMetadata)));
      ok := true;
    }

    /** `handleKaiaWalletConnection`: polls for the auth result and binds a
        `kaia` wallet when a non-empty address comes back. */
    method HandleKaiaWalletConnection(to: string, replies: seq<Reply>) returns (ok: bool)
      requires AuthPollAttempts <= |replies|
      modifies client
      ensures ok == KaiaSucceeds(AuthPoll(replies[..AuthPollAttempts]))
      ensures Stores(client.walletInfo, client.wcTopics)
              == KaiaBranch(Stores(old(client.walletInfo), old(client.wcTopics)), to, AuthPoll(replies[..AuthPollAttempts]))
      ensures client.callbacks == old(client.callbacks)
    {
      var address, _ := PollKaiaWalletResult(replies, AuthPollAttempts);
      if address.Some? && address.value != "" {
        client.SetWalletInfo(to, WalletInfo(Kaia, address.value, None));
        ok := true;
      } else {
        ok := false;
      }
    }

    /** `disconnect`: without a binding nothing changes. A `walletconnect`
        binding with metadata is disconnected through the sign client under
        the user's topic and then removed with `deleteTopic` (when the sign
        client throws, nothing is removed); any other binding is removed with
        `removeWalletInfo`. `cleared` is the user the client's own clean-up
        found by topic. */
    method Disconnect(to: string, peerDisconnected: bool) returns (result: DisconnectResult, ghost cleared: Option<string>)
      modifies client
      ensures client.callbacks == old(client.callbacks)
      ensures result == NotConnected <==> to !in old(client.walletInfo)
      ensures result == DisconnectFailed <==>
                to in old(client.walletInfo) && IsWalletConnectInfo(old(client.walletInfo)[to]) && !peerDisconnected
      ensures result != Disconnected ==>
                client.walletInfo == old(client.walletInfo) && client.wcTopics == old(client.wcTopics)
      ensures result == Disconnected ==>
                && client.wcTopics == old(client.wcTopics) - {to}
                && client.walletInfo == (if cleared.Some? then old(client.walletInfo) - {cleared.value}
                                         else old(client.walletInfo)) - {to}
                && client.GetWalletInfo(to).None? && client.GetTopic(to) == ""
      ensures cleared.Some? ==>
                && to in old(client.walletInfo) && IsWalletConnectInfo(old(client.walletInfo)[to])
                && cleared.value in old(client.wcTopics)
                && old(client.wcTopics)[cleared.value] == old(client.GetTopic(to))
    {
      cleared := None;
      var walletInfo := client.GetWalletInfo(to);
      if walletInfo.None? {
        return NotConnected, cleared;
      }
      if IsWalletConnectInfo(walletInfo.value) {
        var topic := client.GetTopic(to);
        var thrown;
        thrown, cleared := client.Disconnect(topic, peerDisconnected);
        if thrown {
          return DisconnectFailed, cleared;
        }
        client.DeleteTopic(to);
      } else {
        client.RemoveWalletInfo(to);
      }
      result := Disconnected;
    }
  }
}
