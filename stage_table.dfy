/** The static stage table of the interview: six stages, each with a successor,
    an optional output-token cap and, for the follow-up stage, a follow-up cap;
    and the instruction each stage sends to the model. */
module StageTable {
  import opened Values

  datatype Stage =
    | Initial
    | AwaitingFirstCoreQuestion
    | AskingFollowUps
    | PreFeedback
    | GeneratingFeedback
    | InterviewComplete

  /** The key under which a stage is stored in a session. */
  function Name(st: Stage): string {
    match st
    case Initial => "initial"
    case AwaitingFirstCoreQuestion => "awaiting_first_core_question"
    case AskingFollowUps => "asking_follow_ups"
    case PreFeedback => "pre_feedback"
    case GeneratingFeedback => "generating_feedback"
    case InterviewComplete => "interview_complete"
  }

  /** Looks a stored stage name up in the table; `None` when it has no entry. */
  function Parse(name: string): (r: Option<Stage>)
    ensures r.Some? ==> Name(r.value) == name
  {
    if name == "initial" then Some(Initial)
    else if name == "awaiting_first_core_question" then Some(AwaitingFirstCoreQuestion)
    else if name == "asking_follow_ups" then Some(AskingFollowUps)
    else if name == "pre_feedback" then Some(PreFeedback)
    else if name == "generating_feedback" then Some(GeneratingFeedback)
    else if name == "interview_complete" then Some(InterviewComplete)
    else None
  }

  /** Every stage is found again under its own name, so names are distinct. */
  lemma ParseName(st: Stage)
    ensures Parse(Name(st)) == Some(st)
  {
  }

  /** The follow-up cap of `asking_follow_ups`. */
  const MAX_FOLLOW_UPS: nat := 2

  /** One row of the table. */
  datatype StageConfig = StageConfig(
    maxOutputTokens: Option<nat>,
    maxFollowUps: Option<nat>,
    nextStage: Option<Stage>)

  /** The table itself. Only `initial` has no output-token cap, only
      `asking_follow_ups` has a follow-up cap, and only `interview_complete`
      has no successor. */
  function Config(st: Stage): (r: StageConfig)
    ensures r.maxOutputTokens.None? <==> st == Initial
    ensures r.maxFollowUps == if st == AskingFollowUps then Some(MAX_FOLLOW_UPS) else None
    ensures r.nextStage.None? <==> st == InterviewComplete
  {
    match st
    case Initial => StageConfig(None, None, Some(AwaitingFirstCoreQuestion))
    case AwaitingFirstCoreQuestion => StageConfig(Some(200), None, Some(AskingFollowUps))
    case AskingFollowUps => StageConfig(Some(200), Some(MAX_FOLLOW_UPS), Some(PreFeedback))
    case PreFeedback => StageConfig(Some(100), None, Some(GeneratingFeedback))
    case GeneratingFeedback => StageConfig(Some(500), None, Some(InterviewComplete))
    case InterviewComplete => StageConfig(Some(50), None, None)
  }

  /** The stages whose user input is not collected as an answer. */
  const STAGES_TO_EXCLUDE_USER_ANSWERS: seq<string> :=
    ["initial", "pre_feedback", "generating_feedback", "interview_complete"]

  /** The successor relation is one chain through all six stages, ending at
      the only stage without a successor; only `asking_follow_ups` has a
      follow-up cap. */
  lemma TableIsOneChain(st: Stage)
    ensures Config(st).nextStage.None? <==> st == InterviewComplete
    ensures Config(st).maxFollowUps.Some? <==> st == AskingFollowUps
    ensures Config(st).nextStage == Some(AwaitingFirstCoreQuestion) <==> st == Initial
    ensures Config(st).nextStage == Some(AskingFollowUps) <==> st == AwaitingFirstCoreQuestion
    ensures Config(st).nextStage == Some(PreFeedback) <==> st == AskingFollowUps
    ensures Config(st).nextStage == Some(GeneratingFeedback) <==> st == PreFeedback
    ensures Config(st).nextStage == Some(InterviewComplete) <==> st == GeneratingFeedback
    ensures Config(st).nextStage != Some(Initial)
  {
  }

  // ---------------------------------------------------------------------
  // Instructions

  /** The instruction a stage sends. The prose is opaque; what is kept is
      which stage it belongs to, whether it mentions the job title, and, for
      `generating_feedback`, the enumeration of the collected answers. */
  datatype Instruction =
    | Prompt(stage: Stage, jobTitle: Option<Value>)
    | FeedbackPrompt(title: Value, answers: string)

  function BuildInstruction(st: Stage, jobTitle: Value, userAnswers: seq<Value>): (r: Instruction)
    ensures st == GeneratingFeedback <==> r.FeedbackPrompt?
    ensures r.FeedbackPrompt? ==> r == FeedbackPrompt(jobTitle, AnswerList(userAnswers))
    ensures r.Prompt? ==> r.stage == st
    ensures r.Prompt? ==> (r.jobTitle.Some? <==> st in {Initial, AwaitingFirstCoreQuestion, AskingFollowUps})
  {
    match st
    case Initial => Prompt(st, Some(jobTitle))
    case AwaitingFirstCoreQuestion => Prompt(st, Some(jobTitle))
    case AskingFollowUps => Prompt(st, Some(jobTitle))
    case PreFeedback => Prompt(st, None)
    case GeneratingFeedback => FeedbackPrompt(jobTitle, AnswerList(userAnswers))
    case InterviewComplete => Prompt(st, None)
  }

  /** Decimal digits of a natural number, as `${n}` prints it. */
  function Decimal(n: nat): (r: string)
    ensures r != []
    ensures forall i :: 0 <= i < |r| ==> '0' <= r[i] <= '9'
    ensures r[0] == '0' ==> n == 0
  {
    if n < 10 then [DigitChar(n)] else Decimal(n / 10) + [DigitChar(n % 10)]
  }

  function DigitChar(d: nat): (c: char)
    requires d < 10
    ensures '0' <= c <= '9'
    ensures c as int == '0' as int + d
  {
    ['0', '1', '2', '3', '4', '5', '6', '7', '8', '9'][d]
  }

  /** The number a string of decimal digits denotes. */
  function DigitsValue(s: string): nat
    requires forall i :: 0 <= i < |s| ==> '0' <= s[i] <= '9'
  {
    if s == [] then 0
    else DigitsValue(s[..|s| - 1]) * 10 + (s[|s| - 1] as int - '0' as int)
  }

  /** `Decimal` prints the number itself: reading it back gives `n`, so two
      different question numbers never print alike. */
  lemma {:induction false} DecimalRoundTrip(n: nat)
    ensures DigitsValue(Decimal(n)) == n
  {
    var r := Decimal(n);
    if n >= 10 {
      DecimalRoundTrip(n / 10);
      assert r[..|r| - 1] == Decimal(n / 10);
    }
  }

  /** `Question {i} Answer: {a}` */
  function Entry(i: nat, a: Value): string {
    "Question " + Decimal(i) + " Answer: " + Render(a)
  }

  /** `userAnswers.map((ans, idx) => ...)`: entry `idx` carries number `idx + 1`. */
  function Entries(answers: seq<Value>): (es: seq<string>)
    ensures |es| == |answers|
    ensures forall i :: 0 <= i < |es| ==> es[i] == Entry(i + 1, answers[i])
  {
    seq(|answers|, idx requires 0 <= idx < |answers| => Entry(idx + 1, answers[idx]))
  }

  /** `Array.prototype.join(sep)`. */
  function Join(xs: seq<string>, sep: string): (r: string)
    ensures xs == [] ==> r == ""
    ensures |xs| == 1 ==> r == xs[0]
    ensures xs != [] ==> |xs[0]| <= |r|
  {
    if xs == [] then ""
    else if |xs| == 1 then xs[0]
    else xs[0] + sep + Join(xs[1..], sep)
  }

  /** A join starts with its first element. */
  lemma {:induction false} JoinStartsWithFirst(xs: seq<string>, sep: string)
    requires xs != []
    ensures Join(xs, sep)[..|xs[0]|] == xs[0]
  {
    if |xs| > 1 {
      assert Join(xs, sep) == xs[0] + (sep + Join(xs[1..], sep));
    }
  }

  const ANSWER_SEPARATOR := "\n- "

  /** The enumeration of the collected answers in the feedback instruction. */
  function AnswerList(answers: seq<Value>): (r: string)
    ensures r == "" <==> answers == []
  {
    Join(Entries(answers), ANSWER_SEPARATOR)
  }

  lemma {:induction false} JoinSnoc(xs: seq<string>, y: string, sep: string)
    ensures Join(xs + [y], sep) == if xs == [] then y else Join(xs, sep) + sep + y
  {
    if |xs| == 1 {
      assert xs + [y] == [xs[0], y];
    } else if |xs| > 1 {
      assert (xs + [y])[1..] == xs[1..] + [y];
      JoinSnoc(xs[1..], y, sep);
    } else {
      assert xs + [y] == [y];
    }
  }

  /** No answers give an empty enumeration. */
  lemma AnswerListEmpty()
    ensures AnswerList([]) == ""
  {
  }

  /** Collecting one more answer extends the enumeration by one entry that
      carries the next 1-based number, after a separator when it is not the
      first; all earlier entries are kept, in order. */
  lemma AnswerListSnoc(answers: seq<Value>, a: Value)
    ensures AnswerList(answers + [a]) ==
      if answers == [] then Entry(1, a)
      else AnswerList(answers) + ANSWER_SEPARATOR + Entry(|answers| + 1, a)
  {
    assert Entries(answers + [a]) == Entries(answers) + [Entry(|answers| + 1, a)];
    JoinSnoc(Entries(answers), Entry(|answers| + 1, a), ANSWER_SEPARATOR);
  }
}
