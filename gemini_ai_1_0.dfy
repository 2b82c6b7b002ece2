/** The older single-model chat handler: per-session histories in a map,
    normalised so that the first turn is user-authored, checked for malformed
    entries, converted to chat format and extended after each reply. */
module GeminiAI10 {
  import opened Values
  import opened Turns
  import Stores

  const INIT_FAILED := "Failed to initialize Gemini 1.5 model."
  const MISSING_FIELDS := "Missing sessionId, jobTitle, or userResponse."
  const RESPONSE_FAILED := "Failed to get response from Gemini 1.5."
  const MAX_OUTPUT_TOKENS: nat := 500

  /** The chat the client library is asked to start, and the message sent. */
  datatype Chat = Chat(history: seq<Content>, maxOutputTokens: nat)
  datatype ChatCall = ChatCall(chat: Chat, message: Value)

  datatype Request = Request(sessionId: Value, jobTitle: Value, userResponse: Value)

  /** A request is served when the id and job title are truthy and the
      response is neither missing nor `null`. */
  predicate WellFormedRequest(req: Request) {
    Truthy(req.sessionId) && Truthy(req.jobTitle) && !req.userResponse.Undefined? && !req.userResponse.Null?
  }

  datatype Response =
    | ErrorResponse(status: nat, error: string)
    | Reply(response: string, history: seq<Turn>)

  // ---------------------------------------------------------------------
  // Pure parts of getAIChat

  /** An entry the conversion accepts: truthy role and truthy text. */
  predicate WellFormedTurn(t: Turn) {
    Truthy(t.role) && Truthy(t.text)
  }

  /** Every entry passes the check, stated entry by entry from the front. */
  predicate AllWellFormed(h: seq<Turn>) {
    h == [] || (WellFormedTurn(h[0]) && AllWellFormed(h[1..]))
  }

  /** The conversion to chat format, which throws at the first malformed
      entry; `Failure(i)` carries that entry's index. */
  function ConvertHistory(h: seq<Turn>): (r: Result<seq<Content>, nat>)
    ensures r.Success? <==> AllWellFormed(h)
    ensures r.Success? ==> r.value == ToContents(h)
    ensures r.Failure? ==>
      && r.error < |h|
      && !WellFormedTurn(h[r.error])
      && forall j :: 0 <= j < r.error ==> WellFormedTurn(h[j])
  {
    if h == [] then Success([])
    else if !WellFormedTurn(h[0]) then Failure(0)
    else
      match ConvertHistory(h[1..])
      case Success(cs) => Success([ToContent(h[0])] + cs)
      case Failure(i) => Failure(i + 1)
  }

  /** The first-turn rule: a history that is empty or does not start with a
      user turn gets a sentinel user turn put in front. */
  function Normalised(h: seq<Turn>): (r: seq<Turn>)
    ensures r != [] && r[0].role == USER
    ensures |h| <= |r| <= |h| + 1
    ensures h != [] && h[0].role == USER ==> r == h
    ensures |r| == |h| + 1 ==> r == [UserTurn(Str(SENTINEL))] + h
  {
    if |h| == 0 || h[0].role != USER then [UserTurn(Str(SENTINEL))] + h else h
  }

  /** Normalising only ever puts a turn in front: the original history is
      the tail of the result. */
  lemma NormalisedEndsWithOriginal(h: seq<Turn>)
    ensures var r := Normalised(h); r[|r| - |h|..] == h
  {
  }

  /** Normalising twice changes nothing more. */
  lemma NormalisedIdempotent(h: seq<Turn>)
    ensures Normalised(Normalised(h)) == Normalised(h)
  {
  }

  /** Normalising never makes a well-formed history malformed. */
  lemma NormalisedKeepsWellFormed(h: seq<Turn>)
    requires AllWellFormed(h)
    ensures AllWellFormed(Normalised(h))
  {
    var r := Normalised(h);
    if r != h {
      assert r[1..] == h;
    }
  }

  // ---------------------------------------------------------------------
  // Pure parts of handle and updateHistory

  /** The seeding in `handle`: an empty history gets a user turn holding the
      input, or the sentinel when the input is falsy. */
  function Seeded(h: seq<Turn>, userResponse: Value): (r: seq<Turn>)
    ensures h != [] ==> r == h
    ensures h == [] ==>
      && |r| == 1 && r[0].role == USER && WellFormedTurn(r[0])
      && (Truthy(userResponse) ==> r[0].text == userResponse)
  {
    if |h| == 0 then [UserTurn(Or(userResponse, Str(SENTINEL)))] else h
  }

  /** The history handed to the model: seeded, then normalised. */
  function Prepared(h: seq<Turn>, userResponse: Value): (r: seq<Turn>)
    ensures r != [] && r[0].role == USER
    ensures |h| <= |r| <= |h| + 1
    ensures h == [] ==> r == [UserTurn(Or(userResponse, Str(SENTINEL)))]
    ensures h != [] && h[0].role == USER ==> r == h
    ensures h != [] && h[0].role != USER ==> r == [UserTurn(Str(SENTINEL))] + h
  {
    Normalised(Seeded(h, userResponse))
  }

  /** Preparing keeps the stored history as the tail of the result. */
  lemma PreparedEndsWithStored(h: seq<Turn>, userResponse: Value)
    ensures var r := Prepared(h, userResponse); r[|r| - |h|..] == h
  {
  }

  /** Histories built by this handler stay well formed, so the
      malformed-entry failure cannot happen on them: preparing a well-formed
      history keeps it well formed (and convertible), and so does appending
      what `updateHistory` appends. */
  /** Seeding adds only a well-formed turn. */
  lemma SeededKeepsWellFormed(h: seq<Turn>, userResponse: Value)
    requires AllWellFormed(h)
    ensures AllWellFormed(Seeded(h, userResponse))
  {
  }

  lemma StoreStaysWellFormed(h: seq<Turn>, userResponse: Value, text: string)
    requires AllWellFormed(h)
    ensures AllWellFormed(Prepared(h, userResponse))
    ensures ConvertHistory(Prepared(h, userResponse)).Success?
    ensures AllWellFormed(h + UpdateTurns(userResponse, Str(text)))
    ensures AllWellFormed(Prepared(h, userResponse) + UpdateTurns(userResponse, Str(text)))
  {
    var p := Prepared(h, userResponse);
    SeededKeepsWellFormed(h, userResponse);
    NormalisedKeepsWellFormed(Seeded(h, userResponse));
    var t := UpdateTurns(userResponse, Str(text));
    AppendKeepsWellFormed(h, t);
    AppendKeepsWellFormed(p, t);
  }

  lemma {:induction false} AppendKeepsWellFormed(a: seq<Turn>, b: seq<Turn>)
    requires AllWellFormed(a) && AllWellFormed(b)
    ensures AllWellFormed(a + b)
  {
    if a == [] {
      assert a + b == b;
    } else {
      assert (a + b)[1..] == a[1..] + b;
      AppendKeepsWellFormed(a[1..], b);
    }
  }

  /** The turns `updateHistory` appends: a user turn when the input is truthy
      and not the sentinel, a model turn when the reply is truthy. */
  function UpdateTurns(userInput: Value, modelReply: Value): (t: seq<Turn>)
    ensures |t| == (if Truthy(userInput) && userInput != Str(SENTINEL) then 1 else 0)
                   + (if Truthy(modelReply) then 1 else 0)
    ensures Truthy(userInput) && userInput != Str(SENTINEL) ==> t[0] == UserTurn(userInput)
    ensures Truthy(modelReply) ==> t[|t| - 1] == ModelTurn(modelReply)
    ensures |t| == 2 ==> t == [UserTurn(userInput), ModelTurn(modelReply)]
    ensures AllWellFormed(t)
  {
    (if Truthy(userInput) && userInput != Str(SENTINEL) then [UserTurn(userInput)] else [])
    + (if Truthy(modelReply) then [ModelTurn(modelReply)] else [])
  }

  // ---------------------------------------------------------------------
  // The handler

  predicate WellFormedStore(m: map<Value, seq<Turn>>) {
    forall id :: id in m ==> AllWellFormed(m[id])
  }

  /** The history `handle` hands to the chat for a request: the stored one,
      or a new one when the id has none, seeded and normalised. */
  function PreparedFor(m: map<Value, seq<Turn>>, req: Request): (r: seq<Turn>)
    ensures r != [] && r[0].role == USER
    ensures req.sessionId in m ==> r == Prepared(m[req.sessionId], req.userResponse)
    ensures req.sessionId !in m ==> r == [UserTurn(Or(req.userResponse, Str(SENTINEL)))]
  {
    Prepared(if req.sessionId in m then m[req.sessionId] else [], req.userResponse)
  }

  /** The store after `handle`. A rejected request changes nothing. The
      seeding and the sentinel turn act on a stored array, so they stay in
      the store whatever follows; a new session's seeded array is never
      stored. After a reply the turns of `updateHistory` are appended to the
      stored array, or to a new one. */
  function StoreAfter(m: map<Value, seq<Turn>>, req: Request, reply: Option<string>): map<Value, seq<Turn>> {
    if !WellFormedRequest(req) then m
    else
      var id := req.sessionId;
      var prepared := PreparedFor(m, req);
      var afterChat := if id in m then m[id := prepared] else m;
      if AllWellFormed(prepared) && reply.Some? then
        afterChat[id := (if id in m then prepared else []) + UpdateTurns(req.userResponse, Str(reply.value))]
      else afterChat
  }

  /** The history prepared from a well-formed store, or for a new session,
      passes the malformed-entry check, so the chat is always started. */
  lemma PreparedWellFormed(m: map<Value, seq<Turn>>, req: Request)
    requires WellFormedStore(m) || req.sessionId !in m
    ensures AllWellFormed(PreparedFor(m, req))
  {
    var start := if req.sessionId in m then m[req.sessionId] else [];
    SeededKeepsWellFormed(start, req.userResponse);
    NormalisedKeepsWellFormed(Seeded(start, req.userResponse));
  }

  /** `handle` keeps every stored history well formed. */
  lemma StoreAfterKeepsWellFormed(m: map<Value, seq<Turn>>, req: Request, reply: Option<string>)
    requires WellFormedStore(m)
    ensures WellFormedStore(StoreAfter(m, req, reply))
  {
    if WellFormedRequest(req) {
      var id := req.sessionId;
      var prepared := PreparedFor(m, req);
      PreparedWellFormed(m, req);
      var afterChat := if id in m then m[id := prepared] else m;
      StoreStaysWellFormedUnder(m, id, prepared);
      if reply.Some? {
        var t := UpdateTurns(req.userResponse, Str(reply.value));
        AppendKeepsWellFormed(prepared, t);
        StoreStaysWellFormedUnder(afterChat, id, (if id in m then prepared else []) + t);
      }
    }
  }

  /** `handle` writes at most the request's own id. */
  lemma StoreAfterTouchesOnlyItsId(m: map<Value, seq<Turn>>, req: Request, reply: Option<string>, k: Value)
    requires k != req.sessionId
    ensures k in StoreAfter(m, req, reply) <==> k in m
    ensures k in m ==> StoreAfter(m, req, reply)[k] == m[k]
  {
  }

  lemma StoreStaysWellFormedUnder(m: map<Value, seq<Turn>>, k: Value, h: seq<Turn>)
    requires WellFormedStore(m) && AllWellFormed(h)
    ensures WellFormedStore(m[k := h])
  {
  }

  class GeminiAI_1_0 {
    /** Session id to history. The arrays the source mutates in place are
        values here: a change to an array that came from the map is written
        back under its key, a change to a new, unstored array is not. */
    var chatHistories: map<Value, seq<Turn>>

    /** Every stored history passes the malformed-entry check. */
    ghost predicate Valid()
      reads this
    {
      WellFormedStore(chatHistories)
    }

    constructor ()
      ensures Valid() && chatHistories == map[]
    {
      chatHistories := map[];
    }

    /** `getAIChat(history)`: puts a sentinel user turn in front of the
        history when needed (returned as `normalised`, the array after the
        call), then converts it or fails. */
    method GetAIChat(history: seq<Turn>) returns (normalised: seq<Turn>, r: Result<Chat, string>)
      ensures normalised != [] && normalised[0].role == USER
      ensures normalised == Normalised(history)
      ensures AllWellFormed(normalised) <==> r.Success?
      ensures r.Success? ==> r.value == Chat(ToContents(normalised), MAX_OUTPUT_TOKENS)
      ensures r.Failure? ==> r.error == INIT_FAILED
    {
      normalised := history;
      if |normalised| == 0 || normalised[0].role != USER {
        normalised := [UserTurn(Str(SENTINEL))] + normalised;
      }
      var converted := ConvertHistory(normalised);
      match converted {
        case Success(chatHistory) =>
          r := Success(Chat(chatHistory, MAX_OUTPUT_TOKENS));
        case Failure(_) =>
          r := Failure(INIT_FAILED);
      }
    }

    /** `updateHistory(sessionId, userInput, modelReply)`: appends to the
        stored history, or to a new one, and stores it; no other session
        changes. */
    method UpdateHistory(sessionId: Value, userInput: Value, modelReply: Value) returns (history: seq<Turn>)
      modifies this
      ensures var before := if sessionId in old(chatHistories) then old(chatHistories)[sessionId] else [];
        history == before + UpdateTurns(userInput, modelReply)
      ensures chatHistories == old(chatHistories)[sessionId := history]
      ensures old(Valid()) ==> Valid()
    {
      ghost var wasValid := Valid();
      if sessionId in chatHistories {
        history := chatHistories[sessionId];
      } else {
        history := [];
      }
      ghost var before := history;
      ghost var userPart: seq<Turn> := [];
      if Truthy(userInput) && userInput != Str(SENTINEL) {
        history := history + [UserTurn(userInput)];
        userPart := [UserTurn(userInput)];
      }
      ghost var modelPart: seq<Turn> := [];
      if Truthy(modelReply) {
        history := history + [ModelTurn(modelReply)];
        modelPart := [ModelTurn(modelReply)];
      }
      assert history == before + (userPart + modelPart);
      if wasValid {
        AppendKeepsWellFormed(before, UpdateTurns(userInput, modelReply));
        StoreStaysWellFormedUnder(chatHistories, sessionId, history);
      }
      chatHistories := chatHistories[sessionId := history];
    }

    /** `handle`: validate, take the stored history (or a new, unstored
        one), seed it when empty, start the chat (which may put a sentinel
        turn in front), send the input, record the turns. `reply` is what
        sending the message produces: `Some(text)`, or `None` when it throws. */
    method Handle(req: Request, reply: Option<string>) returns (resp: Response, call: Option<ChatCall>)
      modifies this
      ensures chatHistories == StoreAfter(old(chatHistories), req, reply)
      // a rejected request: 400 and no model call
      ensures !WellFormedRequest(req) ==> resp == ErrorResponse(400, MISSING_FIELDS) && call.None?
      // the chat is started exactly when the prepared history passes the check
      ensures WellFormedRequest(req) ==>
        && (call.Some? <==> AllWellFormed(PreparedFor(old(chatHistories), req)))
        && (call.Some? ==>
              call.value == ChatCall(Chat(ToContents(PreparedFor(old(chatHistories), req)), MAX_OUTPUT_TOKENS),
                                     req.userResponse))
      // a reply exactly when the chat was started and the message answered
      ensures WellFormedRequest(req) ==>
        if call.Some? && reply.Some? then resp == Reply(reply.value, chatHistories[req.sessionId])
        else resp == ErrorResponse(500, RESPONSE_FAILED)
      // on a store of well-formed histories (and always on a new session)
      // the malformed-entry failure cannot happen, and the store stays valid
      ensures WellFormedRequest(req) && (old(Valid()) || req.sessionId !in old(chatHistories)) ==> call.Some?
      ensures old(Valid()) ==> Valid()
    {
      if WellFormedStore(chatHistories) {
        StoreAfterKeepsWellFormed(chatHistories, req, reply);
      }
      if !Truthy(req.sessionId) || !Truthy(req.jobTitle) || req.userResponse.Undefined? || req.userResponse.Null? {
        resp, call := ErrorResponse(400, MISSING_FIELDS), None;
        return;
      }
      var id := req.sessionId;
      var stored := id in chatHistories;
      if WellFormedStore(chatHistories) || !stored {
        PreparedWellFormed(chatHistories, req);
      }
      var history: seq<Turn> := if stored then chatHistories[id] else [];
      if |history| == 0 {
        history := history + [UserTurn(Or(req.userResponse, Str(SENTINEL)))];
      }
      var chat;
      history, chat := GetAIChat(history);
      ghost var prepared := PreparedFor(old(chatHistories), req);
      assert history == prepared;
      if stored {
        // the seed push and the unshift acted on the stored array
        chatHistories := chatHistories[id := history];
      }
      if chat.Failure? {
        resp, call := ErrorResponse(500, RESPONSE_FAILED), None;
        return;
      }
      call := Some(ChatCall(chat.value, req.userResponse));
      if reply.None? {
        resp := ErrorResponse(500, RESPONSE_FAILED);
        return;
      }
      var updated := UpdateHistory(id, req.userResponse, Str(reply.value));
      resp := Reply(reply.value, updated);
      if stored {
        Stores.Overwrite(old(chatHistories), id, prepared, updated);
      }
    }
  }
}
