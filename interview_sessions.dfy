/** The session store of the interview backend: one session per session id,
    created on first use, updated once per request around a call of the turn
    engine. */
module InterviewSessions {
  import opened Values
  import opened Turns
  import opened StageTable
  import opened TurnEngine
  import Stores

  datatype Session = Session(
    history: seq<Turn>,
    interviewStage: string,
    followUpCount: int,
    userAnswers: seq<Value>)

  const NEW_SESSION := Session([], Name(Initial), 0, [])

  /** The stage at call time lets the user's input count as an answer. */
  predicate AnswerCollected(interviewStage: string) {
    interviewStage !in STAGES_TO_EXCLUDE_USER_ANSWERS
  }

  /** The fields of a request body; an absent field is `Undefined`. */
  datatype Request = Request(sessionId: Value, jobTitle: Value, userResponse: Value)

  /** A request is served when the id and job title are truthy and a
      response is present (`null` passes). */
  predicate WellFormedRequest(req: Request) {
    Truthy(req.sessionId) && Truthy(req.jobTitle) && !req.userResponse.Undefined?
  }

  const MISSING_FIELDS := "Missing sessionId, jobTitle, or userResponse."
  const PROCESS_FAILED := "Failed to process interview."

  datatype Response =
    | ErrorResponse(status: nat, error: string)
    | Reply(response: string, history: seq<Turn>, interviewStage: string, followUpCount: int)

  // ---------------------------------------------------------------------
  // One turn on one session, as a function of the session before it

  /** The session after the user's input is recorded, before the model call. */
  function RecordInput(s: Session, input: Value): (r: Session)
    ensures r.interviewStage == s.interviewStage && r.followUpCount == s.followUpCount
    ensures |r.history| == |s.history| + (if input == Str(SENTINEL) then 0 else 1)
    ensures |r.userAnswers| == |s.userAnswers| + (if input != Str(SENTINEL) && AnswerCollected(s.interviewStage) then 1 else 0)
  {
    if input == Str(SENTINEL) then s
    else
      s.(history := s.history + [UserTurn(input)],
         userAnswers := if AnswerCollected(s.interviewStage) then s.userAnswers + [input] else s.userAnswers)
  }

  function ArgsOf(s: Session, jobTitle: Value): TurnArgs {
    TurnArgs(jobTitle, s.history, s.followUpCount, s.interviewStage, s.userAnswers)
  }

  /** The session after the engine returned `r`. */
  function ApplyResult(s: Session, r: TurnResult): (s': Session)
    ensures s'.interviewStage == r.newInterviewStage && s'.followUpCount == r.newFollowUpCount
    ensures s'.userAnswers == s.userAnswers
    ensures |s'.history| == |s.history| + (if r.modelResponseText == "" then 0 else 1)
  {
    var h := if r.modelResponseText != "" then s.history + [ModelTurn(Str(r.modelResponseText))] else s.history;
    s.(history := h, interviewStage := r.newInterviewStage, followUpCount := r.newFollowUpCount)
  }

  datatype Exchange = Exchange(session: Session, step: Step)

  /** A whole turn: the stored session it leaves behind and the engine step.
      A failed model call leaves stage and counter as they were; otherwise
      they are the engine's. */
  function SessionTurn(s: Session, jobTitle: Value, input: Value, reply: Option<string>): (e: Exchange)
    ensures e.step.outcome.Threw? ==>
      e.session.interviewStage == s.interviewStage && e.session.followUpCount == s.followUpCount
    ensures e.step.outcome.Returned? ==>
      && e.session.interviewStage == e.step.outcome.result.newInterviewStage
      && e.session.followUpCount == e.step.outcome.result.newFollowUpCount
  {
    var recorded := RecordInput(s, input);
    var step := ProcessInterviewTurn(ArgsOf(recorded, jobTitle), reply);
    match step.outcome
    case Threw => Exchange(recorded, step)
    case Returned(r) => Exchange(ApplyResult(recorded, r), step)
  }

  /** What one turn does to a session. The history only grows: by a
      user turn unless the input is the sentinel, then by a model turn exactly
      when the engine returned non-empty text. The input becomes an answer
      exactly when it is not the sentinel and the stage at call time is not
      excluded. */
  lemma SessionTurnEffects(s: Session, jobTitle: Value, input: Value, reply: Option<string>)
    ensures var e := SessionTurn(s, jobTitle, input, reply);
      && e.step == ProcessInterviewTurn(ArgsOf(RecordInput(s, input), jobTitle), reply)
      && |e.session.history| >= |s.history|
      && e.session.history[..|s.history|] == s.history
    ensures var e := SessionTurn(s, jobTitle, input, reply);
      var userAdded := if input != Str(SENTINEL) then 1 else 0;
      var modelAdded := if e.step.outcome.Returned? && e.step.outcome.result.modelResponseText != "" then 1 else 0;
      && |e.session.history| == |s.history| + userAdded + modelAdded
      && (userAdded == 1 ==> e.session.history[|s.history|] == UserTurn(input))
      && (modelAdded == 1 ==>
            e.session.history[|e.session.history| - 1] == ModelTurn(Str(e.step.outcome.result.modelResponseText)))
    ensures var e := SessionTurn(s, jobTitle, input, reply);
      e.session.userAnswers ==
        s.userAnswers + (if input != Str(SENTINEL) && AnswerCollected(s.interviewStage) then [input] else [])
  {
  }

  /** What holds of every stored session: its stage and counter are
      reachable, and no model turn in its history is empty. */
  predicate ValidSession(s: Session) {
    && Reachable(s.interviewStage, s.followUpCount)
    && forall i :: 0 <= i < |s.history| && IsModelTurn(s.history[i]) ==> Truthy(s.history[i].text)
  }

  lemma NewSessionIsValid()
    ensures ValidSession(NEW_SESSION)
  {
  }

  /** Every turn keeps a session valid. */
  lemma SessionTurnPreservesValid(s: Session, jobTitle: Value, input: Value, reply: Option<string>)
    requires ValidSession(s)
    ensures ValidSession(SessionTurn(s, jobTitle, input, reply).session)
  {
    var recorded := RecordInput(s, input);
    ReachableIsClosed(ArgsOf(recorded, jobTitle), reply);
    var h := SessionTurn(s, jobTitle, input, reply).session.history;
    forall i | 0 <= i < |h| && IsModelTurn(h[i])
      ensures Truthy(h[i].text)
    {
      if i < |s.history| {
        assert h[i] == s.history[i];
      }
    }
  }

  /** For a valid session, inputs are collected exactly in the two question
      stages. */
  lemma AnswersOnlyInQuestionStages(s: Session)
    requires ValidSession(s)
    ensures AnswerCollected(s.interviewStage) <==>
      Parse(s.interviewStage) in {Some(AwaitingFirstCoreQuestion), Some(AskingFollowUps)}
  {
    var st := Parse(s.interviewStage).value;
    assert s.interviewStage == Name(st);
  }

  /** A whole interview with follow-up cap 2: the opening sentinel and three
      real answers walk initial, awaiting_first_core_question,
      asking_follow_ups, asking_follow_ups, pre_feedback; the three answers
      are collected in order and the history holds one model turn for the
      opening and a user and a model turn for each answer. */
  lemma FullInterview(jobTitle: Value, a1: string, a2: string, a3: string,
                      r0: string, r1: string, r2: string, r3: string)
    requires a1 != SENTINEL && a2 != SENTINEL && a3 != SENTINEL
    requires r0 != "" && r1 != "" && r2 != "" && r3 != ""
    ensures
      var h1 := [ModelTurn(Str(r0))];
      var h2 := h1 + [UserTurn(Str(a1)), ModelTurn(Str(r1))];
      var h3 := h2 + [UserTurn(Str(a2)), ModelTurn(Str(r2))];
      var h4 := h3 + [UserTurn(Str(a3)), ModelTurn(Str(r3))];
      var s1 := Session(h1, Name(AwaitingFirstCoreQuestion), 0, []);
      var s2 := Session(h2, Name(AskingFollowUps), 0, [Str(a1)]);
      var s3 := Session(h3, Name(AskingFollowUps), 1, [Str(a1), Str(a2)]);
      var s4 := Session(h4, Name(PreFeedback), 2, [Str(a1), Str(a2), Str(a3)]);
      && SessionTurn(NEW_SESSION, jobTitle, Str(SENTINEL), Some(r0)).session == s1
      && SessionTurn(s1, jobTitle, Str(a1), Some(r1)).session == s2
      && SessionTurn(s2, jobTitle, Str(a2), Some(r2)).session == s3
      && SessionTurn(s3, jobTitle, Str(a3), Some(r3)).session == s4
  {
    assert [Str(a1)] + [Str(a2)] == [Str(a1), Str(a2)];
    assert [Str(a1), Str(a2)] + [Str(a3)] == [Str(a1), Str(a2), Str(a3)];
    OpeningTurn(jobTitle, r0);
    var h1 := [ModelTurn(Str(r0))];
    var s1 := Session(h1, Name(AwaitingFirstCoreQuestion), 0, []);
    FirstAnswerTurn(s1, jobTitle, a1, r1);
    var h2 := h1 + [UserTurn(Str(a1)), ModelTurn(Str(r1))];
    FollowUpTurn(Session(h2, Name(AskingFollowUps), 0, [Str(a1)]), jobTitle, a2, r2);
    var h3 := h2 + [UserTurn(Str(a2)), ModelTurn(Str(r2))];
    FollowUpTurn(Session(h3, Name(AskingFollowUps), 1, [Str(a1), Str(a2)]), jobTitle, a3, r3);
  }

  /** The opening turn on a new session. */
  lemma OpeningTurn(jobTitle: Value, r0: string)
    requires r0 != ""
    ensures SessionTurn(NEW_SESSION, jobTitle, Str(SENTINEL), Some(r0)).session ==
      Session([ModelTurn(Str(r0))], Name(AwaitingFirstCoreQuestion), 0, [])
  {
  }

  /** The first real answer: a user and a model turn are appended, the answer
      is collected, and the follow-up stage begins. */
  lemma FirstAnswerTurn(s: Session, jobTitle: Value, a: string, r: string)
    requires a != SENTINEL && r != ""
    requires s.interviewStage == Name(AwaitingFirstCoreQuestion) && s.followUpCount == 0
    ensures SessionTurn(s, jobTitle, Str(a), Some(r)).session ==
      Session(s.history + [UserTurn(Str(a)), ModelTurn(Str(r))], Name(AskingFollowUps), 0,
              s.userAnswers + [Str(a)])
  {
    ParseName(AwaitingFirstCoreQuestion);
    assert s.history + [UserTurn(Str(a))] + [ModelTurn(Str(r))] ==
           s.history + [UserTurn(Str(a)), ModelTurn(Str(r))];
  }

  /** A follow-up answer: a user and a model turn are appended, the answer is
      collected, the counter goes up and the stage moves to pre-feedback once
      it reaches the maximum. */
  lemma FollowUpTurn(s: Session, jobTitle: Value, a: string, r: string)
    requires a != SENTINEL && r != ""
    requires s.interviewStage == Name(AskingFollowUps) && 0 <= s.followUpCount < MAX_FOLLOW_UPS
    ensures SessionTurn(s, jobTitle, Str(a), Some(r)).session ==
      Session(s.history + [UserTurn(Str(a)), ModelTurn(Str(r))],
              if s.followUpCount + 1 < MAX_FOLLOW_UPS then Name(AskingFollowUps) else Name(PreFeedback),
              s.followUpCount + 1, s.userAnswers + [Str(a)])
  {
    ParseName(AskingFollowUps);
    assert s.history + [UserTurn(Str(a))] + [ModelTurn(Str(r))] ==
           s.history + [UserTurn(Str(a)), ModelTurn(Str(r))];
  }

  // ---------------------------------------------------------------------
  // The request handler and its session map

  predicate ValidStore(m: map<Value, Session>) {
    forall id :: id in m ==> ValidSession(m[id])
  }

  lemma StoreStaysValid(m: map<Value, Session>, k: Value, s: Session)
    requires ValidStore(m) && ValidSession(s)
    ensures ValidStore(m[k := s])
  {
  }

  class GeminiAIEX {
    var chatHistories: map<Value, Session>

    ghost predicate Valid()
      reads this
    {
      ValidStore(chatHistories)
    }

    constructor ()
      ensures Valid() && chatHistories == map[]
    {
      chatHistories := map[];
    }

    /** `handle`: validate the request, get or create the session, record the
        input, run the engine, record its reply and the new stage and counter.
        `reply` is what the model call produces if the engine makes one. */
    method Handle(req: Request, reply: Option<string>) returns (resp: Response, request: Option<ModelRequest>)
      requires Valid()
      modifies this
      ensures Valid()
      ensures !WellFormedRequest(req) ==>
        resp == ErrorResponse(400, MISSING_FIELDS) && request.None? && chatHistories == old(chatHistories)
      ensures WellFormedRequest(req) ==>
        var s := if req.sessionId in old(chatHistories) then old(chatHistories)[req.sessionId] else NEW_SESSION;
        var e := SessionTurn(s, req.jobTitle, req.userResponse, reply);
        && chatHistories == old(chatHistories)[req.sessionId := e.session]
        && request == e.step.request
        && resp == match e.step.outcome
                   case Threw => ErrorResponse(500, PROCESS_FAILED)
                   case Returned(r) =>
                     Reply(r.modelResponseText, e.session.history, r.newInterviewStage, r.newFollowUpCount)
    {
      if !Truthy(req.sessionId) || !Truthy(req.jobTitle) || req.userResponse.Undefined? {
        resp, request := ErrorResponse(400, MISSING_FIELDS), None;
        return;
      }
      var id := req.sessionId;
      var session: Session;
      if id in chatHistories {
        session := chatHistories[id];
        Stores.Unchanged(chatHistories, id);
      } else {
        session := NEW_SESSION;
        chatHistories := chatHistories[id := session];
      }
      ghost var before := session;
      ghost var e := SessionTurn(before, req.jobTitle, req.userResponse, reply);
      assert chatHistories == old(chatHistories)[id := session];
      if req.userResponse != Str(SENTINEL) {
        session := session.(history := session.history + [UserTurn(req.userResponse)]);
        if session.interviewStage !in STAGES_TO_EXCLUDE_USER_ANSWERS {
          session := session.(userAnswers := session.userAnswers + [req.userResponse]);
        }
        Stores.Overwrite(old(chatHistories), id, before, session);
        chatHistories := chatHistories[id := session];
      }
      assert session == RecordInput(before, req.userResponse);
      ghost var recorded := session;
      var args := TurnArgs(req.jobTitle, session.history, session.followUpCount,
                           session.interviewStage, session.userAnswers);
      var step := ProcessInterviewTurn(args, reply);
      request := step.request;
      assert step == e.step;
      SessionTurnPreservesValid(before, req.jobTitle, req.userResponse, reply);
      StoreStaysValid(old(chatHistories), id, e.session);
      if step.outcome.Threw? {
        assert session == e.session;
        resp := ErrorResponse(500, PROCESS_FAILED);
        return;
      }
      var r := step.outcome.result;
      if r.modelResponseText != "" {
        session := session.(history := session.history + [ModelTurn(Str(r.modelResponseText))]);
      }
      session := session.(interviewStage := r.newInterviewStage, followUpCount := r.newFollowUpCount);
      assert session == e.session;
      Stores.Overwrite(old(chatHistories), id, recorded, session);
      chatHistories := chatHistories[id := session];
      resp := Reply(r.modelResponseText, session.history, r.newInterviewStage, r.newFollowUpCount);
    }
  }
}
