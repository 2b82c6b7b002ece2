/** The interview turn engine: given the session's stage, follow-up counter,
    history and collected answers, decide whether the model is called, with
    which instruction, history and output cap, and compute the next stage and
    counter. The hosted model is not modelled: its reply is a parameter. */
module TurnEngine {
  import opened Values
  import opened Turns
  import opened StageTable

  const UNKNOWN_STAGE_TEXT := "An error occurred (unknown stage)."

  /** What is sent to the model: the instruction, the prior history in chat
      format and the optional output-token cap. */
  datatype ModelRequest = ModelRequest(
    instruction: Instruction,
    history: seq<Content>,
    maxOutputTokens: Option<nat>)

  datatype TurnArgs = TurnArgs(
    jobTitle: Value,
    history: seq<Turn>,
    followUpCount: int,
    interviewStage: string,
    userAnswers: seq<Value>)

  datatype TurnResult = TurnResult(
    modelResponseText: string,
    newInterviewStage: string,
    newFollowUpCount: int)

  /** A turn either returns a result or lets the model call's error escape. */
  datatype Outcome = Returned(result: TurnResult) | Threw

  /** The model request made during the turn, if any, and how the turn ended. */
  datatype Step = Step(request: Option<ModelRequest>, outcome: Outcome)

  // ---------------------------------------------------------------------
  // The history filter applied before every model call

  /** The filter's test: drop an entry only when it is at index 0 and is a
      model turn. */
  predicate Kept(t: Turn, idx: nat) {
    !(idx == 0 && IsModelTurn(t))
  }

  /** `h.filter((msg, idx) => Kept(msg, idx))`, with `from` the index of `h[0]`
      in the original array. Past index 0 nothing is dropped. */
  function FilterFrom(h: seq<Turn>, from: nat): (r: seq<Turn>)
    ensures |r| <= |h|
    ensures from > 0 ==> r == h
  {
    if h == [] then []
    else (if Kept(h[0], from) then [h[0]] else []) + FilterFrom(h[1..], from + 1)
  }

  /** The history the model sees: the stored one with only a leading model
      turn removed; every other turn is kept, in order. */
  function SafeHistory(h: seq<Turn>): (r: seq<Turn>)
    ensures r == if h != [] && IsModelTurn(h[0]) then h[1..] else h
  {
    FilterFrom(h, 0)
  }

  /** The filtered history starts with a model turn only if the stored one
      starts with two of them. */
  lemma SafeHistoryLeadingModel(h: seq<Turn>)
    requires SafeHistory(h) != [] && IsModelTurn(SafeHistory(h)[0])
    ensures |h| >= 2 && IsModelTurn(h[0]) && IsModelTurn(h[1])
  {
  }

  // ---------------------------------------------------------------------
  // The transition, as the stage table describes it

  /** The stage/counter transition after a model call, stated stage by stage:
      the opening two stages reset the counter; the follow-up stage counts one
      more follow-up and leaves once the cap is reached; the last three stages
      keep the counter, and the terminal stage stays put. */
  predicate Transition(st: Stage, c: int, st': Stage, c': int) {
    match st
    case Initial => st' == AwaitingFirstCoreQuestion && c' == 0
    case AwaitingFirstCoreQuestion => st' == AskingFollowUps && c' == 0
    case AskingFollowUps =>
      c' == c + 1 && st' == (if c + 1 >= MAX_FOLLOW_UPS then PreFeedback else AskingFollowUps)
    case PreFeedback => st' == GeneratingFeedback && c' == c
    case GeneratingFeedback => st' == InterviewComplete && c' == c
    case InterviewComplete => st' == InterviewComplete && c' == c
  }

  /** The follow-up stage with the cap already reached: the turn is skipped. */
  predicate SilentSkip(args: TurnArgs) {
    args.interviewStage == Name(AskingFollowUps) && args.followUpCount >= MAX_FOLLOW_UPS
  }

  /** The history the model is shown: none in the opening stage, otherwise
      the filtered stored history. */
  function SeenHistory(interviewStage: string, history: seq<Turn>): seq<Turn> {
    if interviewStage == Name(Initial) then [] else SafeHistory(history)
  }

  /** `processInterviewTurn`. `reply` is what the model call produces if it
      is made: `Some(text)` or `None` when the call throws. */
  function ProcessInterviewTurn(args: TurnArgs, reply: Option<string>): (s: Step)
    // unknown stage: fixed error text, nothing changes, no model call
    ensures Parse(args.interviewStage).None? ==>
      s == Step(None, Returned(TurnResult(UNKNOWN_STAGE_TEXT, args.interviewStage, args.followUpCount)))
    // silent skip: empty text, move on to pre_feedback, counter kept, no model call
    ensures SilentSkip(args) ==>
      s == Step(None, Returned(TurnResult("", Name(PreFeedback), args.followUpCount)))
    // in every other case the model is called exactly once
    ensures s.request.Some? <==> Parse(args.interviewStage).Some? && !SilentSkip(args)
    ensures s.request.None? ==> s.outcome.Returned?
    ensures s.request.Some? ==>
      var st := Parse(args.interviewStage).value;
      && s.request.value.instruction == BuildInstruction(st, args.jobTitle, args.userAnswers)
      && s.request.value.history == ToContents(SeenHistory(args.interviewStage, args.history))
      && s.request.value.maxOutputTokens == Config(st).maxOutputTokens
      && (s.outcome.Threw? <==> reply.None?)
    ensures s.request.Some? && reply.Some? ==> s.outcome.result.modelResponseText == reply.value
  {
    match Parse(args.interviewStage)
    case None =>
      Step(None, Returned(TurnResult(UNKNOWN_STAGE_TEXT, args.interviewStage, args.followUpCount)))
    case Some(st) =>
      var config := Config(st);
      var instruction := BuildInstruction(st, args.jobTitle, args.userAnswers);
      if st == AskingFollowUps && config.maxFollowUps.Some? && args.followUpCount >= config.maxFollowUps.value then
        Step(None, Returned(TurnResult("", Name(config.nextStage.value), args.followUpCount)))
      else
        var sent := if st == Initial then [] else args.history;
        var request := ModelRequest(instruction, ToContents(SafeHistory(sent)), config.maxOutputTokens);
        match reply
        case None => Step(Some(request), Threw)
        case Some(text) =>
          var next := if config.nextStage.Some? then Name(config.nextStage.value) else args.interviewStage;
          var newStage :=
            if st == AskingFollowUps then
              (if args.followUpCount + 1 >= config.maxFollowUps.value then Name(config.nextStage.value)
               else args.interviewStage)
            else next;
          var newCount :=
            if st == Initial || st == AwaitingFirstCoreQuestion then 0
            else if st == AskingFollowUps then args.followUpCount + 1
            else args.followUpCount;
          Step(Some(request), Returned(TurnResult(text, newStage, newCount)))
  }

  /** Whenever the model replies, the stage and counter the engine returns
      are a step of the stage table's transition relation. */
  lemma TurnFollowsTable(args: TurnArgs, text: string)
    requires Parse(args.interviewStage).Some? && !SilentSkip(args)
    ensures
      var r := ProcessInterviewTurn(args, Some(text)).outcome.result;
      && Parse(r.newInterviewStage).Some?
      && Transition(Parse(args.interviewStage).value, args.followUpCount,
                    Parse(r.newInterviewStage).value, r.newFollowUpCount)
  {
    var st := Parse(args.interviewStage).value;
    ParseName(st);
    if st != InterviewComplete {
      ParseName(Config(st).nextStage.value);
    }
  }

  // ---------------------------------------------------------------------
  // The states a session can reach

  /** The (stage, counter) pairs reachable from a new session: the counter is
      0 before the follow-ups, below the cap during them and at the cap after. */
  predicate Reachable(interviewStage: string, followUpCount: int) {
    match Parse(interviewStage)
    case None => false
    case Some(st) =>
      match st
      case Initial => followUpCount == 0
      case AwaitingFirstCoreQuestion => followUpCount == 0
      case AskingFollowUps => 0 <= followUpCount < MAX_FOLLOW_UPS
      case _ => followUpCount == MAX_FOLLOW_UPS
  }

  /** From a reachable state the model is always called (neither the
      unknown-stage path nor the silent skip can happen), and a returned
      result is reachable again. */
  lemma ReachableIsClosed(args: TurnArgs, reply: Option<string>)
    requires Reachable(args.interviewStage, args.followUpCount)
    ensures ProcessInterviewTurn(args, reply).request.Some?
    ensures ProcessInterviewTurn(args, reply).outcome.Returned? ==>
      var r := ProcessInterviewTurn(args, reply).outcome.result;
      Reachable(r.newInterviewStage, r.newFollowUpCount)
  {
    var st := Parse(args.interviewStage).value;
    ParseName(st);
    var s := ProcessInterviewTurn(args, reply);
    if s.outcome.Returned? {
      TurnFollowsTable(args, reply.value);
      var r := s.outcome.result;
      ParseName(Parse(r.newInterviewStage).value);
    }
  }

  /** Without a model call the reply cannot matter. */
  lemma NoCallIgnoresReply(args: TurnArgs, reply: Option<string>, other: Option<string>)
    requires ProcessInterviewTurn(args, reply).request.None?
    ensures ProcessInterviewTurn(args, other) == ProcessInterviewTurn(args, reply)
  {
  }
}
