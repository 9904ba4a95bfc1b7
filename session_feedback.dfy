/** The feedback screen shown after a session: a 1..10 confidence rating, free
    notes, and a save that attaches both to the user's session row. */
module SessionFeedback {
  import opened Wrappers
  import opened Js
  import opened Indicators
  import opened Backend

  const CONFIDENCE_DOTS: nat := 10
  const INITIAL_CONFIDENCE: int := 5

  datatype SessionData = SessionData(scenarioType: string, durationSeconds: int, sessionId: Option<string>)

  /** The `practice_sessions` update: it sets only the score and the notes, on the
      row whose `id` and `user_id` both match. */
  datatype FeedbackUpdate = FeedbackUpdate(sessionId: string, userId: string, confidenceScore: int, feedback: string)

  /** `formatDuration`: whole minutes, `m `, the remaining seconds, `s`. */
  function FormatDuration(seconds: int): string {
    IntToString(seconds / 60) + "m " + IntToString(JsRemInt60(seconds)) + "s"
  }

  /** Reads an `Mm Ss` duration back into seconds. */
  function DurationSeconds(t: string): (r: Option<int>) {
    if t != [] && t[|t| - 1] == 's' then
      match SplitFirst(t[..|t| - 1], 'm')
      case Some((a, b)) =>
        if b != [] && b[0] == ' ' then
          match (ParseNat(a), ParseNat(b[1..]))
          case (Some(m), Some(s)) => if s < 60 then Some(m * 60 + s) else None
          case _ => None
        else None
      case None => None
    else None
  }

  lemma {:induction false} DurationReadsBack(m: nat, s: nat)
    requires s < 60
    ensures DurationSeconds(NatToString(m) + "m " + NatToString(s) + "s") == Some(m * 60 + s)
  {
    var a, b := NatToString(m), " " + NatToString(s);
    var t := a + "m " + NatToString(s) + "s";
    assert t[..|t| - 1] == a + ['m'] + b;
    NatToStringOmits(m, 'm');
    SplitFirstJoined(a, 'm', b);
    assert b[1..] == NatToString(s);
    ParseNatToString(m);
    ParseNatToString(s);
  }

  /** A non-negative duration is shown so that it reads back exactly. */
  lemma FormatDurationReadsBack(seconds: int)
    requires seconds >= 0
    ensures DurationSeconds(FormatDuration(seconds)) == Some(seconds)
  {
    DurationReadsBack(seconds / 60, seconds % 60);
  }

  /** The feedback component's state. */
  class SessionFeedback {
    const sessionData: SessionData
    var confidenceScore: int
    var notes: string
    var saving: bool

    ghost predicate Valid()
      reads this
    {
      1 <= confidenceScore <= CONFIDENCE_DOTS
    }

    constructor (sessionData: SessionData)
      ensures Valid()
      ensures this.sessionData == sessionData
      ensures confidenceScore == INITIAL_CONFIDENCE && notes == "" && !saving
    {
      this.sessionData := sessionData;
      confidenceScore, notes, saving := INITIAL_CONFIDENCE, "", false;
    }

    /** Pressing the dot at index `i` (of ten) rates `i + 1`. */
    method PressDot(i: nat)
      requires Valid() && i < CONFIDENCE_DOTS
      modifies this`confidenceScore
      ensures Valid() && confidenceScore == i + 1
    {
      confidenceScore := i + 1;
    }

    method EditNotes(text: string)
      modifies this`notes
      ensures notes == text
    {
      notes := text;
    }

    /** The highlighted dots: exactly the first `confidenceScore` of the ten. */
    function Dots(): (dots: seq<bool>)
      reads this
      requires Valid()
      ensures |dots| == CONFIDENCE_DOTS && CountLit(dots) == confidenceScore
      ensures forall i :: 0 <= i < |dots| ==> (dots[i] <==> i < confidenceScore)
    {
      CountLitIsClampedScore(CONFIDENCE_DOTS, confidenceScore);
      Lit(CONFIDENCE_DOTS, confidenceScore)
    }

    /** `handleSaveFeedback` up to its `await`, from the Save button (disabled while
        saving): without a user or a session id (`undefined` or empty) nothing
        happens; otherwise saving starts and the update is sent. */
    method BeginSave(user: Option<User>) returns (request: Option<FeedbackUpdate>)
      requires Valid() && !saving
      modifies this`saving
      ensures Valid()
      ensures request ==
                if user.Some? && Truthy(sessionData.sessionId)
                then Some(FeedbackUpdate(sessionData.sessionId.value, user.value.id, confidenceScore, notes))
                else None
      ensures saving <==> request.Some?
    {
      if user.None? || !Truthy(sessionData.sessionId) {
        return None;
      }
      saving := true;
      request := Some(FeedbackUpdate(sessionData.sessionId.value, user.value.id, confidenceScore, notes));
    }

    /** The rest of `handleSaveFeedback`, once the update settles: `onComplete` runs
        unless it threw, and saving ends on both paths. */
    method FinishSave(reply: Settled) returns (completed: bool)
      requires Valid() && saving
      modifies this`saving
      ensures Valid() && !saving
      ensures completed <==> reply == Fulfilled
    {
      completed := reply == Fulfilled;
      saving := false;
    }

    /** The whole save: afterwards nothing is saving, and `onComplete` ran only
        after an update was sent and settled without throwing. */
    method HandleSaveFeedback(user: Option<User>, reply: Settled)
      returns (request: Option<FeedbackUpdate>, completed: bool)
      requires Valid() && !saving
      modifies this`saving
      ensures Valid() && !saving
      ensures request.None? <==> user.None? || !Truthy(sessionData.sessionId)
      ensures request.Some? ==> request.value.confidenceScore == confidenceScore
                                && request.value.feedback == notes
                                && 1 <= request.value.confidenceScore <= CONFIDENCE_DOTS
      ensures completed <==> request.Some? && reply == Fulfilled
    {
      request := BeginSave(user);
      completed := false;
      if request.Some? {
        completed := FinishSave(reply);
      }
    }
  }
}
