/**
 * The session mode kept in `join_type` (0 idle, 1 single-character chat,
 * 2 group room) with `current_chat_id` and `current_char_id_chat`, and the
 * calls that move it: `Character_Class.connect/disconnect`
 * (index.js:1304-1360), `GroupChat_Class.connect/disconnect`
 * (index.js:2065-2092) and the dispatch in `logout` (index.js:3564-3583);
 * plus the id and timeout fallback of `Character_Class.send_message`
 * (index.js:1406-1478).
 */
module Session {
  import opened Wrappers
  import opened Wire
  import opened Correlator

  const Idle: int := 0
  const SingleChat: int := 1
  const Room: int := 2

  const NotLoggedIn: string := "Please login first."
  const AlreadyJoined: string := "You're already connectetd to another chat or group chat, please disconnect first"
  const NotInSingleChat: string := "This function only works when you're connected on Single Character Chat."
  const AlreadyInRoom: string := "You are already connected from the room"
  const NotInRoom: string := "This function only works when you're connected on Group Chat."
  /** Stands for the runtime `TypeError` of reading `res.chats[0].chat_id` when there is no chat. */
  const NoChatFound: string := "TypeError"
  const MissingCharId: string := "Character ID cannot be empty! please input Character ID correctly, or connect to the character by using character.connect() function."
  const MissingChatId: string := "Chat ID cannot be empty! please input Chat ID correctly, or connect to the character by using character.connect() function."
  const TimeoutNotNumber: string := "Timeout input must be number."

  /** A correlated request a session call hands to `send_ws`. */
  datatype Request =
    | CreateChat(chatId: string, charId: string)
    | RoomSubscribe(roomId: string)
    | RoomUnsubscribe(roomId: string)

  /** The `send_ws` mode of a room (un)subscription: JSON, wait type 0, no timeout. */
  const RoomMode: Mode := Mode(true, 0, false, false, 0)

  /** Room control calls complete on the first frame the socket receives, whatever it is. */
  lemma RoomReplyIsFirstFrame(f: Frame)
    ensures Run(Start(RoomMode), [f]).status == Resolved(Single(f))
  {
  }

  /**
   * The client's session fields. `outbound` lists, in order, the requests
   * the session calls handed to `send_ws`; `hasSockets` stands for
   * `ws[0] || ws[1]` being set.
   */
  class Client {
    var token: string
    var hasSockets: bool
    var joinType: int
    var currentChatId: string
    var currentCharId: string
    var outbound: seq<Request>

    /** `join_type` only ever holds one of the three modes. */
    predicate Valid()
      reads this
    {
      Idle <= joinType <= Room
    }

    /** The state right after login: idle, no conversation. */
    constructor (token: string, hasSockets: bool)
      ensures Valid() && joinType == Idle
      ensures this.token == token && this.hasSockets == hasSockets
      ensures currentChatId == "" && currentCharId == "" && outbound == []
    {
      this.token := token;
      this.hasSockets := hasSockets;
      joinType := Idle;
      currentChatId := "";
      currentCharId := "";
      outbound := [];
    }

    /**
     * `Character_Class.connect`. `recent` and `recentAfterCreate` are the
     * chat ids listed by the two `chats/recent` lookups (`None` when the
     * reply has no `chats`); `freshChatId` is the generated id of the chat
     * created in between, whose `create_chat` call is awaited to completion.
     * Fails unless idle; on success the session is in single-chat mode on
     * the first listed chat.
     */
    method CharacterConnect(charId: string, recent: Option<seq<string>>, freshChatId: string,
                            recentAfterCreate: Option<seq<string>>)
      returns (r: Result<seq<string>, string>)
      requires Valid()
      modifies this
      ensures Valid() && token == old(token) && hasSockets == old(hasSockets)
      ensures old(token) == "" ==> r == Err(NotLoggedIn)
      ensures old(token) != "" && old(joinType) != Idle ==> r == Err(AlreadyJoined)
      ensures (old(token) == "" || old(joinType) != Idle) ==>
        joinType == old(joinType) && currentChatId == old(currentChatId) &&
        currentCharId == old(currentCharId) && outbound == old(outbound)
      ensures old(token) != "" && old(joinType) == Idle ==>
        var chats := if recent.None? then recentAfterCreate else recent;
        outbound == old(outbound) + (if recent.None? then [CreateChat(freshChatId, charId)] else []) &&
        if chats.Some? && |chats.value| > 0 then
          r == Ok(chats.value) && joinType == SingleChat &&
          currentChatId == chats.value[0] && currentCharId == charId
        else
          r == Err(NoChatFound) && joinType == Idle && currentCharId == old(currentCharId) &&
          currentChatId == (if recent.None? then freshChatId else old(currentChatId))
    {
      if token == "" {
        return Err(NotLoggedIn);
      }
      if joinType != Idle {
        return Err(AlreadyJoined);
      }
      var chats := recent;
      if recent.None? {
        currentChatId := freshChatId;
        outbound := outbound + [CreateChat(freshChatId, charId)];
        chats := recentAfterCreate;
      }
      if chats.None? || |chats.value| == 0 {
        return Err(NoChatFound);
      }
      currentChatId := chats.value[0];
      joinType := SingleChat;
      currentCharId := charId;
      r := Ok(chats.value);
    }

    /** `Character_Class.disconnect`: only from single-chat mode; back to idle with both ids emptied. */
    method CharacterDisconnect() returns (r: Result<bool, string>)
      requires Valid()
      modifies this`joinType, this`currentChatId, this`currentCharId
      ensures Valid()
      ensures r == (if old(token) == "" then Err(NotLoggedIn)
                    else if old(joinType) != SingleChat then Err(NotInSingleChat)
                    else Ok(true))
      ensures r.Ok? ==> joinType == Idle && currentChatId == "" && currentCharId == ""
      ensures r.Err? ==> unchanged(this)
    {
      if token == "" {
        return Err(NotLoggedIn);
      }
      if joinType != SingleChat {
        return Err(NotInSingleChat);
      }
      currentChatId := "";
      currentCharId := "";
      joinType := Idle;
      r := Ok(true);
    }

    /**
     * `GroupChat_Class.connect`. `reply` is the first frame the lightweight
     * socket receives after the subscribe frame. Rejects only when already
     * in a room, so it also runs from single-chat mode (leaving the
     * character id behind); a reply carrying `error` is returned with the
     * session untouched.
     */
    method GroupConnect(roomId: string, reply: Frame) returns (r: Result<Frame, string>)
      requires Valid()
      modifies this`joinType, this`currentChatId, this`outbound
      ensures Valid()
      ensures r == (if old(token) == "" then Err(NotLoggedIn)
                    else if old(joinType) == Room then Err(AlreadyInRoom)
                    else Ok(reply))
      ensures r.Err? ==> unchanged(this)
      ensures outbound == old(outbound) + (if r.Ok? then [RoomSubscribe(roomId)] else [])
      ensures if r.Ok? && !reply.error then joinType == Room && currentChatId == roomId
              else joinType == old(joinType) && currentChatId == old(currentChatId)
    {
      if token == "" {
        return Err(NotLoggedIn);
      }
      if joinType == Room {
        return Err(AlreadyInRoom);
      }
      outbound := outbound + [RoomSubscribe(roomId)];
      if reply.error {
        return Ok(reply);
      }
      currentChatId := roomId;
      joinType := Room;
      r := Ok(reply);
    }

    /**
     * `GroupChat_Class.disconnect`: only from a room; unsubscribes from the
     * current room, then goes back to idle with the chat id emptied, whatever
     * the reply says.
     */
    method GroupDisconnect(reply: Frame) returns (r: Result<Frame, string>)
      requires Valid()
      modifies this`joinType, this`currentChatId, this`outbound
      ensures Valid()
      ensures r == (if old(token) == "" then Err(NotLoggedIn)
                    else if old(joinType) != Room then Err(NotInRoom)
                    else Ok(reply))
      ensures r.Err? ==> unchanged(this)
      ensures outbound == old(outbound) + (if r.Ok? then [RoomUnsubscribe(old(currentChatId))] else [])
      ensures if r.Ok? then joinType == Idle && currentChatId == ""
              else joinType == old(joinType) && currentChatId == old(currentChatId)
    {
      if token == "" {
        return Err(NotLoggedIn);
      }
      if joinType != Room {
        return Err(NotInRoom);
      }
      outbound := outbound + [RoomUnsubscribe(currentChatId)];
      joinType := Idle;
      currentChatId := "";
      r := Ok(reply);
    }

    /**
     * `logout`: nothing to do without sockets; otherwise leaves the current
     * mode through its own disconnect (an error there propagates), then
     * drops the sockets and the token.
     */
    method Logout(roomReply: Frame) returns (r: Result<bool, string>)
      requires Valid()
      modifies this
      ensures Valid()
      ensures !old(hasSockets) ==> (r == Ok(false) && unchanged(this))
      ensures old(hasSockets) && old(token) == "" && old(joinType) != Idle ==>
        (r == Err(NotLoggedIn) && unchanged(this))
      ensures old(hasSockets) && (old(token) != "" || old(joinType) == Idle) ==>
        (r == Ok(true) && joinType == Idle && token == "" && !hasSockets &&
         currentChatId == (if old(joinType) == Idle then old(currentChatId) else "") &&
         currentCharId == (if old(joinType) == SingleChat then "" else old(currentCharId)) &&
         outbound == old(outbound) + (if old(joinType) == Room then [RoomUnsubscribe(old(currentChatId))] else []))
    {
      if !hasSockets {
        return Ok(false);
      }
      if joinType == SingleChat {
        var d := CharacterDisconnect();
        if d.Err? {
          return Err(d.error);
        }
      } else if joinType == Room {
        var d := GroupDisconnect(roomReply);
        if d.Err? {
          return Err(d.error);
        }
      }
      hasSockets := false;
      token := "";
      r := Ok(true);
    }
  }

  /**
   * The `manual_opt` argument of `send_message` when the caller passes an
   * object: `timeoutMs` is `None` when `timeout_ms` is not a number.
   */
  datatype ManualOpt = ManualOpt(charId: string, chatId: string, timeoutMs: Option<int>)

  /** The ids and timeout a message is finally sent with. */
  datatype Target = Target(charId: string, chatId: string, timeoutMs: int)

  /**
   * The fallback of `send_message` (index.js:1406-1422). `opt` is `None`
   * when the argument is omitted or not an object; the session ids then
   * stand in with timeout 0. An explicit id wins; an empty one falls back to
   * the session's; with neither, the call throws. A non-number timeout
   * throws and a negative one becomes 0.
   */
  function ResolveTarget(opt: Option<ManualOpt>, sessionCharId: string, sessionChatId: string)
    : (r: Result<Target, string>)
    ensures r.Ok? ==> r.value.charId != "" && r.value.chatId != "" && r.value.timeoutMs >= 0
    ensures r.Ok? && opt.Some? && opt.value.charId != "" ==> r.value.charId == opt.value.charId
    ensures r.Ok? && opt.Some? && opt.value.chatId != "" ==> r.value.chatId == opt.value.chatId
    ensures r.Ok? && (opt.None? || opt.value.charId == "") ==> r.value.charId == sessionCharId
    ensures r.Ok? && (opt.None? || opt.value.chatId == "") ==> r.value.chatId == sessionChatId
    ensures r.Ok? && opt.None? ==> r.value.timeoutMs == 0
    ensures forall t :: r.Ok? && opt.Some? && opt.value.timeoutMs == Some(t) ==>
      r.value.timeoutMs == (if t < 0 then 0 else t)
    ensures r == Err(MissingCharId) <==>
      (opt.None? || opt.value.charId == "") && sessionCharId == ""
    ensures r == Err(MissingChatId) <==>
      ((opt.Some? && opt.value.charId != "") || sessionCharId != "") &&
      (opt.None? || opt.value.chatId == "") && sessionChatId == ""
    ensures r == Err(TimeoutNotNumber) <==>
      ((opt.Some? && opt.value.charId != "") || sessionCharId != "") &&
      ((opt.Some? && opt.value.chatId != "") || sessionChatId != "") &&
      opt.Some? && opt.value.timeoutMs.None?
    ensures r.Err? ==> r.error in {MissingCharId, MissingChatId, TimeoutNotNumber}
  {
    var o := if opt.Some? then opt.value else ManualOpt(sessionCharId, sessionChatId, Some(0));
    var charId := if o.charId != "" then o.charId else sessionCharId;
    if charId == "" then Err(MissingCharId)
    else
      var chatId := if o.chatId != "" then o.chatId else sessionChatId;
      if chatId == "" then Err(MissingChatId)
      else
        match o.timeoutMs
        case None => Err(TimeoutNotNumber)
        case Some(t) => Ok(Target(charId, chatId, if t < 0 then 0 else t))
  }

  /** Explicit ids and timeout make the outcome independent of the session. */
  lemma ExplicitIdsWin(opt: ManualOpt, c1: string, h1: string, c2: string, h2: string)
    requires opt.charId != "" && opt.chatId != ""
    ensures ResolveTarget(Some(opt), c1, h1) == ResolveTarget(Some(opt), c2, h2)
    ensures ResolveTarget(Some(opt), c1, h1).Ok? <==> opt.timeoutMs.Some?
  {
  }

  /**
   * `send_message`'s `send_ws` mode: a generated turn waits for the AI's
   * final reply (type 1); a manual turn uses wait type 0.
   */
  function SendMessageMode(manualTurn: bool, t: Target): (m: Mode)
    ensures m.usingJson && !m.appendArray && m.timeoutMs == t.timeoutMs
    ensures OneShot(m) <==> manualTurn
    ensures !manualTurn ==> m.waitType == 1 && m.waitAiResponse
  {
    Mode(true, if manualTurn then 0 else 1, !manualTurn, false, t.timeoutMs)
  }

  /**
   * A manual turn completes on the first inbound frame on the socket, even a
   * keepalive probe or another call's reply; a generated turn only on a
   * final candidate by a non-human author.
   */
  lemma SendMessageCompletion(manualTurn: bool, t: Target, f: Frame)
    ensures var op := Step(Start(SendMessageMode(manualTurn, t)), f);
      op.status.Resolved? <==>
        manualTurn ||
        (f.turn.Some? && f.turn.value.author.Some? && !f.turn.value.author.value.isHuman &&
         FirstCandidate(f.turn.value).Some? && FirstCandidate(f.turn.value).value.isFinal)
  {
  }
}
