/** The bot client's in-memory bookkeeping (bot/kaia_bot_client.ts): which
    wallet each LINE user has bound, which WalletConnect session topic belongs
    to each user, and which callback handles each webhook event type. The LINE
    messaging API, the Supabase channel, the WalletConnect sign client and the
    RPC node are outside the model; what they return is passed in. */
module BotClient {
  import opened Wrappers
  import JsStrings

  datatype WalletType = WalletConnect | Kaia

  /** A WalletConnect peer's metadata; the bot only shows its name and opens
      its universal redirect link, so the rest of it is left out. */
  datatype Metadata = Metadata(name: string, universalRedirect: Option<string>)

  /** `WalletInfo`: the wallet bound to one user. */
  datatype WalletInfo = WalletInfo(kind: WalletType, address: string, metadata: Option<Metadata>)

  /** A WalletConnect session as the sign client's session store holds it:
      its topic, its expiry in seconds since the epoch, the accounts of its
      `eip155` namespace (`None` when the session has no such namespace) and
      the peer wallet's metadata. */
  datatype Session = Session(
    topic: string,
    expiry: int,
    eip155Accounts: Option<seq<string>>,
    peerMetadata: Metadata)

  /** How the peer's `approval()` promise settles. */
  datatype Approval = Approved(session: Session) | Rejected

  /** A registered callback. Callbacks are closures in the source; the model
      names them and records which one was invoked on which event. */
  type CallbackId = nat

  datatype Message = TextMessage(text: string) | OtherMessage(messageType: string)

  /** A LINE webhook event: its `type`, `source.userId` and `message`. */
  datatype Event = Event(kind: string, userId: Option<string>, message: Message)

  datatype Invocation = Invocation(callback: CallbackId, event: Event)

  /** `isWalletConnectInfo`: the guard `sendTx` and `disconnect` rely on
      before reading the peer's metadata; it holds only for a
      `walletconnect` record that has metadata. */
  predicate IsWalletConnectInfo(info: WalletInfo): (b: bool)
    ensures b ==> info.kind == WalletConnect && info.metadata.Some?
    ensures info.kind == Kaia ==> !b
  {
    info.kind == WalletConnect && info.metadata.Some?
  }

  /** `isKaiaWalletInfo`: holds for every `kaia` record, and never for a
      record the WalletConnect guard accepts. */
  predicate IsKaiaWalletInfo(info: WalletInfo): (b: bool)
    ensures b <==> info.kind == Kaia
    ensures b ==> !IsWalletConnectInfo(info)
  {
    info.kind == Kaia
  }

  /** The two type guards never both hold, and a `walletconnect` record
      without metadata satisfies neither. */
  lemma WalletKindsExclusive(info: WalletInfo)
    ensures !(IsWalletConnectInfo(info) && IsKaiaWalletInfo(info))
    ensures info.kind == WalletConnect && info.metadata.None? ==>
              !IsWalletConnectInfo(info) && !IsKaiaWalletInfo(info)
    ensures info.kind == Kaia ==> IsKaiaWalletInfo(info)
  {
  }

  /** `account.split(":")[2] || ""`: the address field of a CAIP-10 account
      id, or "" when the id has fewer than three fields. */
  function AccountAddress(account: string): (address: string)
    ensures ':' !in address
  {
    var fields := JsStrings.Split(account, ':');
    if |fields| > 2 then fields[2] else ""
  }

  /** For `namespace:reference:address` the address field is recovered. */
  lemma CaipAccountAddress(namespace: string, reference: string, address: string)
    requires ':' !in namespace && ':' !in reference && ':' !in address
    ensures AccountAddress(namespace + ":" + reference + ":" + address) == address
  {
    var parts := [namespace, reference, address];
    assert JsStrings.Join(parts[2..], ':') == address;
    assert JsStrings.Join(parts[1..], ':') == reference + ":" + address;
    assert JsStrings.Join(parts, ':') == namespace + ":" + reference + ":" + address;
    JsStrings.SplitJoin(parts, ':');
  }

  /** An account id with only two fields names no address. */
  lemma CaipAccountWithoutAddress(namespace: string, reference: string)
    requires ':' !in namespace && ':' !in reference
    ensures AccountAddress(namespace + ":" + reference) == ""
  {
    var parts := [namespace, reference];
    assert JsStrings.Join(parts[1..], ':') == reference;
    assert JsStrings.Join(parts, ':') == namespace + ":" + reference;
    JsStrings.SplitJoin(parts, ':');
  }

  /** `session.namespaces["eip155"]?.accounts[0]?.split(":")[2] || ""`:
      the address of the first `eip155` account, and "" when the session has
      no such namespace or no account. */
  function SessionAddress(accounts: Option<seq<string>>): (address: string)
    ensures ':' !in address
    ensures accounts.None? || accounts.value == [] ==> address == ""
  {
    if accounts.Some? && accounts.value != [] then AccountAddress(accounts.value[0]) else ""
  }

  /** `this.wcTopics[userId] || ""`: the stored topic, and "" for a user
      without one. */
  function TopicOf(wcTopics: map<string, string>, userId: string): (topic: string)
    ensures userId in wcTopics ==> topic == wcTopics[userId]
    ensures userId !in wcTopics ==> topic == ""
  {
    if userId in wcTopics then wcTopics[userId] else ""
  }

  /** A session whose first account is `namespace:reference:address` is
      bound with that address, whatever other accounts follow. */
  lemma SessionAddressOfAccount(namespace: string, reference: string, address: string, others: seq<string>)
    requires ':' !in namespace && ':' !in reference && ':' !in address
    ensures SessionAddress(Some([namespace + ":" + reference + ":" + address] + others)) == address
  {
    CaipAccountAddress(namespace, reference, address);
  }

  /** `session.expiry * 1000 > Date.now()` for the session stored under
      `topic`; a topic the store does not know makes `session.get` throw. */
  predicate IsLive(sessions: map<string, Session>, topic: string, now: int)
  {
    topic in sessions && sessions[topic].expiry * 1000 > now
  }

  /** The wallet-info map after `updateWCWalletInfo(userId)`. */
  function Refreshed(walletInfo: map<string, WalletInfo>, wcTopics: map<string, string>,
                     userId: string, sessions: map<string, Session>, now: int): map<string, WalletInfo>
  {
    var topic := TopicOf(wcTopics, userId);
    if IsLive(sessions, topic, now) then
      var s := sessions[topic];
      walletInfo[userId := WalletInfo(WalletConnect, SessionAddress(s.eip155Accounts), Some(s.peerMetadata))]
    else
      walletInfo - {userId}
  }

  /** A refresh touches only `userId`: it binds a `walletconnect` record with
      metadata when the user's session is live, and unbinds the user when the
      session is expired or unknown. */
  lemma RefreshedEffect(walletInfo: map<string, WalletInfo>, wcTopics: map<string, string>,
                        userId: string, sessions: map<string, Session>, now: int, other: string)
    requires other != userId
    ensures var r := Refreshed(walletInfo, wcTopics, userId, sessions, now);
      && (other in r <==> other in walletInfo)
      && (other in r ==> r[other] == walletInfo[other])
      && (userId in r <==> IsLive(sessions, TopicOf(wcTopics, userId), now))
      && (userId in r ==> IsWalletConnectInfo(r[userId]))
  {
  }

  /** `Object.keys(wcTopics).find(...)` finds some user exactly when this holds. */
  predicate HasTopic(wcTopics: map<string, string>, topic: string)
  {
    exists u :: u in wcTopics && wcTopics[u] == topic
  }

  /** The callbacks the broadcast listener invokes for `events`, in order:
      one per event whose type has a callback, none for any other event. */
  function Invocations(callbacks: map<string, CallbackId>, events: seq<Event>): (calls: seq<Invocation>)
    ensures |calls| <= |events|
    ensures forall k :: 0 <= k < |calls| ==>
              calls[k].event.kind in callbacks && calls[k].callback == callbacks[calls[k].event.kind]
  {
    if events == [] then []
    else
      var e := events[|events| - 1];
      Invocations(callbacks, events[..|events| - 1])
        + (if e.kind in callbacks then [Invocation(callbacks[e.kind], e)] else [])
  }

  /** Handling a batch is handling its parts one after the other. */
  lemma {:induction false} InvocationsAppend(callbacks: map<string, CallbackId>, a: seq<Event>, b: seq<Event>)
    ensures Invocations(callbacks, a + b) == Invocations(callbacks, a) + Invocations(callbacks, b)
    decreases |b|
  {
    if b != [] {
      var b' := b[..|b| - 1];
      assert (a + b)[..|a + b| - 1] == a + b';
      InvocationsAppend(callbacks, a, b');
    } else {
      assert a + b == a;
    }
  }

  /** Every event whose type has a callback is handed to that callback. */
  lemma {:induction false} InvocationsComplete(callbacks: map<string, CallbackId>, events: seq<Event>, k: nat)
    requires k < |events| && events[k].kind in callbacks
    ensures Invocation(callbacks[events[k].kind], events[k]) in Invocations(callbacks, events)
  {
    var e := events[k];
    assert events == events[..k] + [e] + events[k + 1..];
    InvocationsAppend(callbacks, events[..k] + [e], events[k + 1..]);
    InvocationsAppend(callbacks, events[..k], [e]);
    assert Invocations(callbacks, [e]) == [Invocation(callbacks[e.kind], e)] by {
      assert [e][..0] == [];
    }
  }

  /** Events of types nobody registered for invoke nothing. */
  lemma {:induction false} InvocationsSkipUnregistered(callbacks: map<string, CallbackId>, events: seq<Event>)
    requires forall k :: 0 <= k < |events| ==> events[k].kind !in callbacks
    ensures Invocations(callbacks, events) == []
  {
    if events != [] {
      InvocationsSkipUnregistered(callbacks, events[..|events| - 1]);
    }
  }

  class KaiaBotClient {
    var walletInfo: map<string, WalletInfo>
    var wcTopics: map<string, string>
    var callbacks: map<string, CallbackId>

    constructor ()
      ensures walletInfo == map[] && wcTopics == map[] && callbacks == map[]
    {
      walletInfo := map[];
      wcTopics := map[];
      callbacks := map[];
    }

    /** `on(type, callback)`: registers `callback` for `kind`, replacing any
        earlier one. */
    method On(kind: string, callback: CallbackId)
      modifies this
      ensures callbacks == old(callbacks)[kind := callback]
      ensures walletInfo == old(walletInfo) && wcTopics == old(wcTopics)
    {
      callbacks := callbacks[kind := callback];
    }

    /** The broadcast listener `start` installs: for each event of the
        payload, in order, invoke the callback registered for its type. */
    method DispatchWebhook(events: seq<Event>) returns (calls: seq<Invocation>)
      ensures calls == Invocations(callbacks, events)
    {
      calls := [];
      for i := 0 to |events|
        invariant calls == Invocations(callbacks, events[..i])
      {
        var e := events[i];
        assert events[..i + 1][..i] == events[..i];
        if e.kind in callbacks {
          calls := calls + [Invocation(callbacks[e.kind], e)];
        }
      }
      assert events[..|events|] == events;
    }

    /** `getUserIdByTopic(topic)`: some user whose stored topic is `topic`,
        or `None` when there is none. */
    method UserIdByTopic(topic: string) returns (userId: Option<string>)
      ensures userId.Some? ==> userId.value in wcTopics && wcTopics[userId.value] == topic
      ensures userId.None? <==> !HasTopic(wcTopics, topic)
    {
      if u :| u in wcTopics && wcTopics[u] == topic {
        userId := Some(u);
      } else {
        userId := None;
      }
    }

    /** `disconnect({topic})`: asks the sign client to end the session
        (`peerDisconnected` is whether that call succeeds; when it throws,
        `thrown` is set and nothing is cleaned up), then unbinds the wallet of
        the user found by topic, unless the topic or that user id is empty.
        The topic map itself is left as it was. `cleared` names the user
        whose binding was removed. */
    method Disconnect(topic: string, peerDisconnected: bool) returns (thrown: bool, ghost cleared: Option<string>)
      modifies this
      ensures thrown == !peerDisconnected
      ensures wcTopics == old(wcTopics) && callbacks == old(callbacks)
      ensures walletInfo == if cleared.Some? then old(walletInfo) - {cleared.value} else old(walletInfo)
      ensures cleared.Some? ==>
                cleared.value != "" && cleared.value in old(wcTopics) && old(wcTopics)[cleared.value] == topic
      ensures thrown || topic == "" || !HasTopic(old(wcTopics), topic) ==> cleared.None?
      ensures cleared.None? && !thrown && topic != "" && HasTopic(old(wcTopics), topic) ==>
                "" in old(wcTopics) && old(wcTopics)[""] == topic
    {
      cleared := None;
      if !peerDisconnected {
        return true, cleared;
      }
      thrown := false;
      if topic != "" {
        var userId := UserIdByTopic(topic);
        if userId.Some? && userId.value != "" {
          walletInfo := walletInfo - {userId.value};
          cleared := userId;
        }
      }
    }

    /** `removeWalletInfo(userId)`: drops both the binding and the topic. */
    method RemoveWalletInfo(userId: string)
      modifies this
      ensures walletInfo == old(walletInfo) - {userId}
      ensures wcTopics == old(wcTopics) - {userId}
      ensures callbacks == old(callbacks)
      ensures GetWalletInfo(userId).None? && GetTopic(userId) == ""
    {
      walletInfo := walletInfo - {userId};
      wcTopics := wcTopics - {userId};
    }

    /** `getTopic(to)`: the stored topic, or "" when there is none. */
    function GetTopic(to: string): (topic: string)
      reads this
      ensures to !in wcTopics ==> topic == ""
      ensures to in wcTopics ==> topic == wcTopics[to]
    {
      TopicOf(wcTopics, to)
    }

    method SetTopic(to: string, topic: string)
      modifies this
      ensures wcTopics == old(wcTopics)[to := topic]
      ensures walletInfo == old(walletInfo) && callbacks == old(callbacks)
      ensures GetTopic(to) == topic
      ensures forall u :: u != to ==> GetTopic(u) == old(GetTopic(u))
    {
      wcTopics := wcTopics[to := topic];
    }

    /** `deleteTopic(to)`: drops the topic and the binding, like
        `removeWalletInfo`. */
    method DeleteTopic(to: string)
      modifies this
      ensures wcTopics == old(wcTopics) - {to}
      ensures walletInfo == old(walletInfo) - {to}
      ensures callbacks == old(callbacks)
      ensures GetWalletInfo(to).None? && GetTopic(to) == ""
    {
      wcTopics := wcTopics - {to};
      walletInfo := walletInfo - {to};
    }

    method SetWalletInfo(userId: string, info: WalletInfo)
      modifies this
      ensures walletInfo == old(walletInfo)[userId := info]
      ensures wcTopics == old(wcTopics) && callbacks == old(callbacks)
      ensures GetWalletInfo(userId) == Some(info)
      ensures forall u :: u != userId ==> GetWalletInfo(u) == old(GetWalletInfo(u))
    {
      walletInfo := walletInfo[userId := info];
    }

    /** `getWalletInfo(userId)`: the binding, or `None` (null) when the user
        has none. */
    function GetWalletInfo(userId: string): (info: Option<WalletInfo>)
      reads this
      ensures info.Some? <==> userId in walletInfo
      ensures info.Some? ==> info.value == walletInfo[userId]
    {
      if userId in walletInfo then Some(walletInfo[userId]) else None
    }

    /** `updateWCWalletInfo(userId)`: looks up the session under the user's
        topic ("" when none is stored); a live session rebinds the user to a
        `walletconnect` record built from it, an expired session or a failed
        lookup unbinds the user. */
    method UpdateWCWalletInfo(userId: string, sessions: map<string, Session>, now: int)
      modifies this
      ensures walletInfo == Refreshed(old(walletInfo), old(wcTopics), userId, sessions, now)
      ensures wcTopics == old(wcTopics) && callbacks == old(callbacks)
    {
      var topic := GetTopic(userId);
      if topic in sessions {
        var session := sessions[topic];
        if session.expiry * 1000 > now {
          var address := SessionAddress(session.eip155Accounts);
          SetWalletInfo(userId, WalletInfo(WalletConnect, address, Some(session.peerMetadata)));
        } else {
          walletInfo := walletInfo - {userId};
        }
      } else {
        walletInfo := walletInfo - {userId};
      }
    }

    method SetKaiaWalletInfo(userId: string, address: string)
      modifies this
      ensures walletInfo == old(walletInfo)[userId := WalletInfo(Kaia, address, None)]
      ensures wcTopics == old(wcTopics) && callbacks == old(callbacks)
      ensures GetWalletInfo(userId).Some? && IsKaiaWalletInfo(GetWalletInfo(userId).value)
    {
      SetWalletInfo(userId, WalletInfo(Kaia, address, None));
    }

    /** The `approval` wrapper `connect` hands out: when the peer approves,
        it runs `updateWCWalletInfo` with the session TOPIC in the place of a
        user id, then passes the session on; a rejection passes through. */
    method AwaitApproval(approval: Approval, sessions: map<string, Session>, now: int)
      returns (session: Option<Session>)
      modifies this
      ensures session == if approval.Approved? then Some(approval.session) else None
      ensures walletInfo == if approval.Approved?
                            then Refreshed(old(walletInfo), old(wcTopics), approval.session.topic, sessions, now)
                            else old(walletInfo)
      ensures wcTopics == old(wcTopics) && callbacks == old(callbacks)
    {
      if approval.Rejected? {
        return None;
      }
      UpdateWCWalletInfo(approval.session.topic, sessions, now);
      session := Some(approval.session);
    }
  }
}
