/** The shared history helper: append the user's and the model's latest
    turns to the history stored for a session in a map of histories. */
module HistoryManager {
  import opened Values
  import opened Turns

  /** The map of histories a caller passes in, updated in place. */
  class ChatHistories {
    var entries: map<Value, seq<Turn>>

    constructor ()
      ensures entries == map[]
    {
      entries := map[];
    }
  }

  /** A user input that is recorded as a turn: truthy and not the sentinel. */
  predicate IsRealInput(userResponse: Value) {
    Truthy(userResponse) && userResponse != Str(SENTINEL)
  }

  /** The turns one update appends: a user turn for a real input, then
      always a model turn, even an empty one. */
  function AppendedTurns(userResponse: Value, aiResponse: Value): (t: seq<Turn>)
    ensures 1 <= |t| <= 2
    ensures |t| == 2 <==> IsRealInput(userResponse)
    ensures |t| == 2 ==> t[0] == UserTurn(userResponse)
    ensures t[|t| - 1] == ModelTurn(aiResponse)
    ensures forall i :: 0 <= i < |t| - 1 ==> t[i].role == USER
  {
    (if IsRealInput(userResponse) then [UserTurn(userResponse)] else []) + [ModelTurn(aiResponse)]
  }

  /** `updateHistory(sessionId, chatHistories, userResponse, aiResponse)`. */
  method UpdateHistory(sessionId: Value, chatHistories: ChatHistories, userResponse: Value, aiResponse: Value)
    returns (history: seq<Turn>)
    modifies chatHistories
    ensures var before := if sessionId in old(chatHistories.entries) then old(chatHistories.entries)[sessionId] else [];
      history == before + AppendedTurns(userResponse, aiResponse)
    ensures chatHistories.entries == old(chatHistories.entries)[sessionId := history]
  {
    if sessionId in chatHistories.entries {
      history := chatHistories.entries[sessionId];
    } else {
      history := [];
    }
    if Truthy(userResponse) && userResponse != Str(SENTINEL) {
      history := history + [UserTurn(userResponse)];
    }
    history := history + [ModelTurn(aiResponse)];
    chatHistories.entries := chatHistories.entries[sessionId := history];
  }

  /** One update keeps every earlier turn in place and adds one or two at
      the end, so histories only ever grow. */
  lemma UpdateIsAppendOnly(before: seq<Turn>, userResponse: Value, aiResponse: Value)
    ensures var after := before + AppendedTurns(userResponse, aiResponse);
      && after[..|before|] == before
      && |before| + 1 <= |after| <= |before| + 2
      && after[|after| - 1] == ModelTurn(aiResponse)
  {
    var after := before + AppendedTurns(userResponse, aiResponse);
    assert after[..|before|] == before;
  }
}
