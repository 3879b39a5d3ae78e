/**
 * The client-side socket state of the `useSocket` hook (src/hooks/useSocket.ts):
 * whether the socket is connected, the list of online users, the set of users
 * currently typing, the handler slots of the process-wide socket service, and
 * the events the client has emitted, kept as an outbox log.
 */
module UseSocket {
  import opened Wrappers

  type UserId = string

  datatype MessageType = Text | Image | File

  /** Events the client emits to the server. */
  datatype OutEvent =
    | JoinConversation(otherUserId: UserId)
    | LeaveConversation(otherUserId: UserId)
    | SendMessage(recipientId: UserId, content: string, messageType: MessageType)
    | TypingStart(otherUserId: UserId)
    | TypingStop(otherUserId: UserId)
    | MarkMessagesRead(otherUserId: UserId)
    | GetOnlineUsers

  // ---------------------------------------------------------------------------
  // The online-users list

  /** `ids.filter(x => x !== id)`. */
  function Without(ids: seq<UserId>, id: UserId): (r: seq<UserId>)
    ensures id !in r
    ensures forall x :: x != id ==> multiset(r)[x] == multiset(ids)[x]
    ensures |r| <= |ids|
  {
    if ids == [] then []
    else
      var rest := Without(ids[1..], id);
      assert ids == [ids[0]] + ids[1..];
      if ids[0] == id then rest else [ids[0]] + rest
  }

  /** `b` holds the elements of `a` in the same relative order, possibly with gaps. */
  ghost predicate Subsequence(a: seq<UserId>, b: seq<UserId>)
    decreases |b|
  {
    if a == [] then true
    else if b == [] then false
    else if a[0] == b[0] then Subsequence(a[1..], b[1..])
    else Subsequence(a, b[1..])
  }

  lemma {:induction false} WithoutIsSubsequence(ids: seq<UserId>, id: UserId)
    ensures Subsequence(Without(ids, id), ids)
    decreases |ids|
  {
    if ids != [] {
      WithoutIsSubsequence(ids[1..], id);
      var rest := Without(ids[1..], id);
      assert ids == [ids[0]] + ids[1..];
      if ids[0] == id {
        SubsequenceCons(rest, ids[1..], ids[0]);
      } else {
        assert ([ids[0]] + rest)[1..] == rest;
      }
    }
  }

  /** A subsequence of `b` is a subsequence of `b` with one more element in front. */
  lemma {:induction false} SubsequenceCons(a: seq<UserId>, b: seq<UserId>, x: UserId)
    requires Subsequence(a, b)
    ensures Subsequence(a, [x] + b)
    decreases |b| + 1, 0
  {
    assert ([x] + b)[1..] == b;
    if a != [] && a[0] == x {
      SubsequenceTail(a, b);
    }
  }

  /** Dropping the first element of a subsequence leaves a subsequence. */
  lemma {:induction false} SubsequenceTail(a: seq<UserId>, b: seq<UserId>)
    requires a != [] && Subsequence(a, b)
    ensures Subsequence(a[1..], b)
    decreases |b|, 1
  {
    assert b == [b[0]] + b[1..];
    if a[0] == b[0] {
      SubsequenceCons(a[1..], b[1..], b[0]);
    } else {
      SubsequenceTail(a, b[1..]);
      SubsequenceCons(a[1..], b[1..], b[0]);
    }
  }

  lemma {:induction false} WithoutAppend(a: seq<UserId>, b: seq<UserId>, id: UserId)
    ensures Without(a + b, id) == Without(a, id) + Without(b, id)
    decreases |a|
  {
    if a != [] {
      assert (a + b)[1..] == a[1..] + b;
      WithoutAppend(a[1..], b, id);
    } else {
      assert a + b == b;
    }
  }

  lemma {:induction false} WithoutIdempotent(ids: seq<UserId>, id: UserId)
    ensures Without(Without(ids, id), id) == Without(ids, id)
    decreases |ids|
  {
    if ids != [] {
      WithoutIdempotent(ids[1..], id);
      var rest := Without(ids[1..], id);
      if ids[0] != id {
        assert ([ids[0]] + rest)[1..] == rest;
      }
    }
  }

  /** The `user_online` update: `[...prev.filter(id => id !== userId), userId]`. */
  function MarkOnline(ids: seq<UserId>, id: UserId): (r: seq<UserId>)
    ensures r != [] && r[|r| - 1] == id && id !in r[..|r| - 1]
    ensures |r| <= |ids| + 1
  {
    var w := Without(ids, id);
    assert (w + [id])[..|w|] == w;
    w + [id]
  }

  /** The `user_offline` update: `prev.filter(id => id !== userId)`. */
  function MarkOffline(ids: seq<UserId>, id: UserId): (r: seq<UserId>)
    ensures id !in r && |r| <= |ids|
  {
    Without(ids, id)
  }

  /**
   * After `user_online` the id occurs exactly once, at the end; every other
   * id keeps its multiplicity and the others keep their relative order.
   */
  lemma MarkOnlineSpec(ids: seq<UserId>, id: UserId)
    ensures var r := MarkOnline(ids, id);
      && r != [] && r[|r| - 1] == id
      && multiset(r)[id] == 1
      && (forall x :: x != id ==> multiset(r)[x] == multiset(ids)[x])
      && Without(r, id) == Without(ids, id)
  {
    var w := Without(ids, id);
    WithoutAppend(w, [id], id);
    WithoutIdempotent(ids, id);
    assert Without([id], id) == [] by {
      assert [id][1..] == [];
    }
    assert w + [] == w;
    assert multiset(w)[id] == 0;
  }

  /** After `user_offline` the id is absent and the other entries are kept, in order. */
  lemma MarkOfflineSpec(ids: seq<UserId>, id: UserId)
    ensures var r := MarkOffline(ids, id);
      && id !in r
      && (forall x :: x != id ==> multiset(r)[x] == multiset(ids)[x])
      && Subsequence(r, ids)
  {
    WithoutIsSubsequence(ids, id);
  }

  /** Repeating a presence event changes nothing further. */
  lemma PresenceIdempotent(ids: seq<UserId>, id: UserId)
    ensures MarkOnline(MarkOnline(ids, id), id) == MarkOnline(ids, id)
    ensures MarkOffline(MarkOffline(ids, id), id) == MarkOffline(ids, id)
  {
    MarkOnlineSpec(ids, id);
    WithoutIdempotent(ids, id);
  }

  // ---------------------------------------------------------------------------
  // The typing set

  /** The `user_typing` update: add `id` when typing, delete it otherwise. */
  function ApplyTyping(typing: set<UserId>, id: UserId, isTyping: bool): (r: set<UserId>)
    ensures id in r <==> isTyping
    ensures forall x :: x != id ==> (x in r <==> x in typing)
  {
    if isTyping then typing + {id} else typing - {id}
  }

  // ---------------------------------------------------------------------------
  // Handler slots

  /** A callback a component installs; only its identity matters here. */
  type HandlerId = nat

  /** The five message-handler slots of the socket service (`null` is None). */
  datatype MessageHandlers = MessageHandlers(
    onNewMessage: Option<HandlerId>,
    onMessageSent: Option<HandlerId>,
    onMessageError: Option<HandlerId>,
    onMessageNotification: Option<HandlerId>,
    onMessagesRead: Option<HandlerId>)

  const NoHandlers := MessageHandlers(None, None, None, None, None)

  function Pick(current: Option<HandlerId>, given: Option<HandlerId>): Option<HandlerId>
  {
    if given.Some? then given else current
  }

  /** `setMessageHandlers`: a slot is overwritten only when a handler for it is given. */
  function MergeHandlers(current: MessageHandlers, given: MessageHandlers): (r: MessageHandlers)
    ensures given.onNewMessage.Some? ==> r.onNewMessage == given.onNewMessage
    ensures given.onNewMessage.None? ==> r.onNewMessage == current.onNewMessage
    ensures given.onMessageSent.Some? ==> r.onMessageSent == given.onMessageSent
    ensures given.onMessageSent.None? ==> r.onMessageSent == current.onMessageSent
    ensures given.onMessageError.Some? ==> r.onMessageError == given.onMessageError
    ensures given.onMessageError.None? ==> r.onMessageError == current.onMessageError
    ensures given.onMessageNotification.Some? ==> r.onMessageNotification == given.onMessageNotification
    ensures given.onMessageNotification.None? ==> r.onMessageNotification == current.onMessageNotification
    ensures given.onMessagesRead.Some? ==> r.onMessagesRead == given.onMessagesRead
    ensures given.onMessagesRead.None? ==> r.onMessagesRead == current.onMessagesRead
  {
    MessageHandlers(
      Pick(current.onNewMessage, given.onNewMessage),
      Pick(current.onMessageSent, given.onMessageSent),
      Pick(current.onMessageError, given.onMessageError),
      Pick(current.onMessageNotification, given.onMessageNotification),
      Pick(current.onMessagesRead, given.onMessagesRead))
  }

  /** Two successive calls act as one call with the second call's handlers laid over the first's. */
  lemma MergeHandlersCompose(current: MessageHandlers, first: MessageHandlers, second: MessageHandlers)
    ensures MergeHandlers(MergeHandlers(current, first), second)
         == MergeHandlers(current, MergeHandlers(first, second))
    ensures MergeHandlers(current, NoHandlers) == current
  {
  }

  // ---------------------------------------------------------------------------
  // The connection gate

  /** An outbound action: emitted only while connected, a silent no-op otherwise. */
  function Gate(connected: bool, outbox: seq<OutEvent>, e: OutEvent): seq<OutEvent>
  {
    if connected then outbox + [e] else outbox
  }

  function GateAll(connected: bool, outbox: seq<OutEvent>, es: seq<OutEvent>): seq<OutEvent>
    decreases |es|
  {
    if es == [] then outbox else GateAll(connected, Gate(connected, outbox, es[0]), es[1..])
  }

  /** While disconnected, any run of outbound actions emits nothing. */
  lemma {:induction false} DisconnectedEmitsNothing(outbox: seq<OutEvent>, es: seq<OutEvent>)
    ensures GateAll(false, outbox, es) == outbox
    decreases |es|
  {
    if es != [] {
      DisconnectedEmitsNothing(outbox, es[1..]);
    }
  }

  /** While connected, a run of outbound actions emits exactly those events, in order. */
  lemma {:induction false} ConnectedEmitsAll(outbox: seq<OutEvent>, es: seq<OutEvent>)
    ensures GateAll(true, outbox, es) == outbox + es
    decreases |es|
  {
    if es != [] {
      ConnectedEmitsAll(outbox + [es[0]], es[1..]);
      assert outbox + [es[0]] + es[1..] == outbox + es;
    }
  }

  // ---------------------------------------------------------------------------
  // The process-wide socket service and the hook's state

  /** How a connection attempt ended. */
  datatype ConnectOutcome =
    | Skipped            // not authenticated, or already connected
    | Connected
    | MissingToken       // 'No authentication token found'
    | ConnectError       // the server's connect_error

  /**
   * The singleton `socketService`: it outlives every hook that uses it, so a
   * hook mounted later finds whatever socket and handlers earlier hooks left.
   */
  class SocketService {
    /** A socket object exists (`socket !== null`). */
    var socketOpen: bool
    /**
     * Sockets that a later connect replaced without disconnecting them. Each
     * stays connected with the token it was opened with, and its listeners
     * still call whatever handlers are installed on the service.
     */
    var strayConnections: nat
    /** The hook whose presence and typing handlers are installed, if any. */
    var statusHandlers: SocketHook?
    var handlers: MessageHandlers
    /** Every event emitted to the server, oldest first. */
    var outbox: seq<OutEvent>

    /** The state at process start. */
    constructor ()
      ensures !socketOpen && strayConnections == 0
      ensures statusHandlers == null && handlers == NoHandlers && outbox == []
    {
      socketOpen, strayConnections := false, 0;
      statusHandlers, handlers, outbox := null, NoHandlers, [];
    }
  }

  /** The three state variables of one mounted `useSocket` hook, over the shared service. */
  class SocketHook {
    var isConnected: bool
    var onlineUsers: seq<UserId>
    var typingUsers: set<UserId>
    const service: SocketService

    /** A fresh mount: its own state starts empty; the service is left as it is. */
    constructor (service: SocketService)
      ensures this.service == service
      ensures !isConnected && onlineUsers == [] && typingUsers == {}
    {
      this.service := service;
      isConnected, onlineUsers, typingUsers := false, [], {};
    }

    /**
     * The connect effect. Runs only when authenticated and not yet connected.
     * `token` is what session storage holds; `accepted` is whether the server
     * accepts the handshake. Every attempt installs this hook's presence and
     * typing handlers; a token makes a new socket, and a socket the service
     * already held is dropped from the service without being disconnected;
     * on success the hook is connected and has asked for the online users.
     */
    method Connect(isAuthenticated: bool, token: Option<string>, accepted: bool)
      returns (outcome: ConnectOutcome)
      modifies this`isConnected, service`socketOpen, service`strayConnections, service`statusHandlers, service`outbox
      ensures outcome == Skipped <==> !(isAuthenticated && !old(isConnected))
      ensures outcome == Skipped ==>
        && isConnected == old(isConnected) && service.socketOpen == old(service.socketOpen)
        && service.statusHandlers == old(service.statusHandlers) && service.outbox == old(service.outbox)
      ensures outcome == Skipped || outcome == MissingToken ==>
        service.strayConnections == old(service.strayConnections)
      ensures outcome == Connected || outcome == ConnectError ==>
        service.strayConnections == old(service.strayConnections) + (if old(service.socketOpen) then 1 else 0)
      ensures outcome != Skipped ==> service.statusHandlers == this
      ensures outcome == MissingToken <==> outcome != Skipped && (token.None? || token.value == "")
      ensures outcome == MissingToken ==>
        !isConnected && service.socketOpen == old(service.socketOpen) && service.outbox == old(service.outbox)
      ensures outcome == ConnectError ==> !isConnected && service.socketOpen && service.outbox == old(service.outbox)
      ensures outcome == Connected <==> outcome != Skipped && outcome != MissingToken && accepted
      ensures outcome == Connected ==>
        isConnected && service.socketOpen && service.outbox == old(service.outbox) + [GetOnlineUsers]
    {
      if !(isAuthenticated && !isConnected) {
        return Skipped;
      }
      service.statusHandlers := this;
      if token.None? || token.value == "" {
        return MissingToken;
      }
      if service.socketOpen {
        service.strayConnections := service.strayConnections + 1;
      }
      service.socketOpen := true;
      if !accepted {
        return ConnectError;
      }
      isConnected := true;
      service.outbox := service.outbox + [GetOnlineUsers];
      return Connected;
    }

    /**
     * Whether an inbound event can reach this hook: some socket is still
     * connected (the current one or a stray) and this hook's handlers are the
     * installed ones. A socket counts whether or not its handshake was
     * accepted.
     */
    predicate Receives()
      reads this, service
      ensures Receives() ==> service.statusHandlers == this
      ensures Receives() ==> service.socketOpen || service.strayConnections > 0
    {
      (service.socketOpen || service.strayConnections > 0) && service.statusHandlers == this
    }

    /** `online_users`: the snapshot replaces the list wholesale. */
    method OnOnlineUsers(ids: seq<UserId>)
      modifies this`onlineUsers
      ensures onlineUsers == if old(Receives()) then ids else old(onlineUsers)
    {
      if Receives() {
        onlineUsers := ids;
      }
    }

    method OnUserOnline(id: UserId)
      modifies this`onlineUsers
      ensures onlineUsers == if old(Receives()) then MarkOnline(old(onlineUsers), id) else old(onlineUsers)
    {
      if Receives() {
        onlineUsers := MarkOnline(onlineUsers, id);
      }
    }

    method OnUserOffline(id: UserId)
      modifies this`onlineUsers
      ensures onlineUsers == if old(Receives()) then MarkOffline(old(onlineUsers), id) else old(onlineUsers)
    {
      if Receives() {
        onlineUsers := MarkOffline(onlineUsers, id);
      }
    }

    method OnUserTyping(id: UserId, isTyping: bool)
      modifies this`typingUsers
      ensures typingUsers == if old(Receives()) then ApplyTyping(old(typingUsers), id, isTyping) else old(typingUsers)
    {
      if Receives() {
        typingUsers := ApplyTyping(typingUsers, id, isTyping);
      }
    }

    /**
     * The hook's `isConnected` guard, then the service's own `socket` check
     * (which another hook's teardown can make fail while this hook still
     * believes it is connected). Not connected means nothing is emitted.
     */
    method Emit(e: OutEvent)
      modifies service`outbox
      ensures service.outbox == Gate(isConnected && service.socketOpen, old(service.outbox), e)
      ensures !isConnected ==> service.outbox == old(service.outbox)
    {
      if !isConnected {
        return;
      }
      if !service.socketOpen {
        return;
      }
      service.outbox := service.outbox + [e];
    }

    method SendMessageTo(recipientId: UserId, content: string, messageType: MessageType)
      modifies service`outbox
      ensures service.outbox
           == Gate(isConnected && service.socketOpen, old(service.outbox), SendMessage(recipientId, content, messageType))
    {
      Emit(SendMessage(recipientId, content, messageType));
    }

    method JoinConversationWith(otherUserId: UserId)
      modifies service`outbox
      ensures service.outbox == Gate(isConnected && service.socketOpen, old(service.outbox), JoinConversation(otherUserId))
    {
      Emit(JoinConversation(otherUserId));
    }

    method LeaveConversationWith(otherUserId: UserId)
      modifies service`outbox
      ensures service.outbox == Gate(isConnected && service.socketOpen, old(service.outbox), LeaveConversation(otherUserId))
    {
      Emit(LeaveConversation(otherUserId));
    }

    method StartTyping(otherUserId: UserId)
      modifies service`outbox
      ensures service.outbox == Gate(isConnected && service.socketOpen, old(service.outbox), TypingStart(otherUserId))
    {
      Emit(TypingStart(otherUserId));
    }

    method StopTyping(otherUserId: UserId)
      modifies service`outbox
      ensures service.outbox == Gate(isConnected && service.socketOpen, old(service.outbox), TypingStop(otherUserId))
    {
      Emit(TypingStop(otherUserId));
    }

    method MarkRead(otherUserId: UserId)
      modifies service`outbox
      ensures service.outbox == Gate(isConnected && service.socketOpen, old(service.outbox), MarkMessagesRead(otherUserId))
    {
      Emit(MarkMessagesRead(otherUserId));
    }

    /** Overwrites the service's slots, which every hook shares. */
    method SetMessageHandlers(given: MessageHandlers)
      modifies service`handlers
      ensures service.handlers == MergeHandlers(old(service.handlers), given)
    {
      service.handlers := MergeHandlers(service.handlers, given);
    }

    /**
     * The effect's cleanup after logout: when no longer authenticated but still
     * connected, drop the service's socket and clear this hook's presence and
     * typing state. Unmounting while authenticated changes nothing.
     */
    method Teardown(isAuthenticated: bool)
      modifies this`isConnected, this`onlineUsers, this`typingUsers, service`socketOpen
      ensures !isAuthenticated && old(isConnected) ==>
        !isConnected && !service.socketOpen && onlineUsers == [] && typingUsers == {}
      ensures !(!isAuthenticated && old(isConnected)) ==>
        && isConnected == old(isConnected) && service.socketOpen == old(service.socketOpen)
        && onlineUsers == old(onlineUsers) && typingUsers == old(typingUsers)
    {
      if !isAuthenticated && isConnected {
        service.socketOpen := false;
        isConnected := false;
        onlineUsers := [];
        typingUsers := {};
      }
    }
  }

  /**
   * A hook that unmounts while authenticated leaves the service connected and
   * still believes it is connected; a hook mounted afterwards starts
   * disconnected and connects again, replacing the presence handlers with its
   * own and the service's socket with a new one, while the old socket stays
   * connected as a stray.
   */
  method Remount(service: SocketService, token: string) returns (first: SocketHook, second: SocketHook)
    requires token != ""
    modifies service
    ensures fresh(first) && fresh(second) && first.service == service && second.service == service
    ensures first.isConnected && second.isConnected
    ensures service.socketOpen && service.statusHandlers == second && second.Receives()
    ensures service.strayConnections == old(service.strayConnections) + (if old(service.socketOpen) then 2 else 1)
    ensures service.outbox == old(service.outbox) + [GetOnlineUsers, GetOnlineUsers]
  {
    first := new SocketHook(service);
    var outcome := first.Connect(true, Some(token), true);
    assert outcome == Connected;
    first.Teardown(true);
    assert service.socketOpen && first.isConnected;
    second := new SocketHook(service);
    outcome := second.Connect(true, Some(token), true);
    assert outcome == Connected;
  }

  /**
   * Disconnecting after a remount closes only the newest socket: the first
   * mount's socket stays connected with the user's token, and its listeners
   * keep calling the handlers installed on the service. With the teardown
   * called explicitly, a later `user_online` event then refills the cleared
   * list; in a React run the guarded cleanup fires only at unmount or at the
   * next login, so that refilled list is a state of this model only.
   */
  method LogoutAfterRemount(service: SocketService, token: string, id: UserId) returns (hook: SocketHook)
    requires token != ""
    modifies service
    ensures !hook.isConnected && !service.socketOpen
    ensures service.strayConnections >= 1 && hook.Receives()
    ensures hook.onlineUsers == [id]
  {
    var first;
    first, hook := Remount(service, token);
    hook.Teardown(false);
    assert hook.onlineUsers == [];
    hook.OnUserOnline(id);
    assert Without([], id) == [];
  }
}
