/** The timed practice session: a stopwatch that estimates the tokens a session
    uses at a fixed rate while it runs, and on ending asks the backend to debit the
    elapsed seconds, recording the session and notifying the caller only when the
    debit succeeds.  Time is `Date.now()` in integer milliseconds; elapsed time and
    the token estimate are exact reals. */
module PracticeSession {
  import opened Wrappers
  import opened Js
  import opened Backend

  /** The estimate rate: a token per 36 seconds, written as a decimal. */
  const TOKENS_PER_SECOND: real := 0.02778

  /** The balance a session needs before it may start. */
  const MIN_TOKENS_TO_START: real := 1.0

  datatype Scenario = Scenario(id: string, title: string, prompt: string)

  /** What `onComplete` receives and what the `practice_sessions` row holds besides `user_id`. */
  datatype SessionData = SessionData(scenarioType: string, durationSeconds: int)

  /** The `practice_sessions` insert: `{ user_id, ...sessionData }`. */
  datatype SessionInsert = SessionInsert(userId: string, data: SessionData)

  /** What one `endSession` did outside the component. */
  datatype EndEffects = EndEffects(
    consumeCall: Option<Rpc>,         // the `consume_tokens` call, if made
    inserted: Option<SessionInsert>,  // the session row inserted, if any
    completed: Option<SessionData>)   // the argument `onComplete` was called with, if it was

  /** Seconds since `startTime` at instant `now`: what every tick computes. */
  function ElapsedSeconds(startTime: real, now: int): real {
    (now as real - startTime) / 1000.0
  }

  /** The advisory token estimate for `elapsed` seconds. */
  function TokensFor(elapsed: real): real {
    elapsed * TOKENS_PER_SECOND
  }

  /** The start instant resume installs so that time continues from `elapsed`. */
  function RebasedStart(elapsed: real, now: int): real {
    now as real - elapsed * 1000.0
  }

  /** After a resume at `resumeAt`, a tick at `tickAt` reads the frozen time plus
      the time since the resume: elapsed time carries over a pause and never goes back. */
  lemma ResumeContinuesElapsed(frozen: real, resumeAt: int, tickAt: int)
    ensures ElapsedSeconds(RebasedStart(frozen, resumeAt), tickAt)
              == frozen + (tickAt - resumeAt) as real / 1000.0
    ensures resumeAt <= tickAt ==> ElapsedSeconds(RebasedStart(frozen, resumeAt), tickAt) >= frozen
  {
  }

  /** The estimate is linear in elapsed time; 360 seconds cost 10.0008 tokens at the
      decimal rate (a third of a thousandth more than one per 36 seconds). */
  lemma TokensLinear(a: real, b: real)
    ensures TokensFor(a + b) == TokensFor(a) + TokensFor(b)
    ensures TokensFor(360.0) == 10.0008
    ensures a <= b ==> TokensFor(a) <= TokensFor(b)
  {
  }

  /** `formatTime`: whole minutes, a colon, whole seconds of the minute padded to two digits. */
  function FormatTime(seconds: real): string {
    var mins := FloorDiv60(seconds);
    var secs := JsRem60(seconds).Floor;
    IntToString(mins) + ":" + PadStart2(IntToString(secs))
  }

  /** Reads an `m:ss` clock back into whole seconds. */
  function ClockSeconds(t: string): (r: Option<int>) {
    if |t| >= 4 && t[|t| - 3] == ':' then
      match (ParseNat(t[..|t| - 3]), ParseNat(t[|t| - 2..]))
      case (Some(m), Some(s)) => if s < 60 then Some(m * 60 + s) else None
      case _ => None
    else None
  }

  lemma FloorShift(x: real, k: int)
    ensures (x - k as real).Floor == x.Floor - k
  {
  }

  lemma TwoDigits(hi: nat, lo: nat)
    requires hi < 10 && lo < 10
    ensures ParseNat([DigitChar(hi), DigitChar(lo)]) == Some(hi * 10 + lo)
  {
    var p := [DigitChar(hi), DigitChar(lo)];
    assert AllDigits(p);
    assert p[..1] == [DigitChar(hi)] && p[..1][..0] == [];
    assert DigitsValue(p[..1]) == DigitValue(DigitChar(hi)) == hi;
    assert DigitsValue(p) == DigitsValue(p[..1]) * 10 + DigitValue(DigitChar(lo));
  }

  /** The minutes and padded seconds of a clock read back as their total. */
  lemma {:induction false} ClockReadsBack(mins: nat, secs: nat)
    requires secs < 60
    ensures ClockSeconds(NatToString(mins) + ":" + PadStart2(NatToString(secs))) == Some(mins * 60 + secs)
  {
    var m := NatToString(mins);
    var p := PadStart2(NatToString(secs));
    if secs < 10 {
      assert p == [DigitChar(0), DigitChar(secs)];
      TwoDigits(0, secs);
    } else {
      assert NatToString(secs) == [DigitChar(secs / 10), DigitChar(secs % 10)];
      TwoDigits(secs / 10, secs % 10);
    }
    var t := m + ":" + p;
    ParseNatToString(mins);
    assert t[..|t| - 3] == m && t[|t| - 2..] == p && t[|t| - 3] == ':';
  }

  /** Whole minutes and the whole seconds of the minute of a non-negative time. */
  lemma ClockParts(seconds: real)
    requires seconds >= 0.0
    ensures FloorDiv60(seconds) >= 0 && 0 <= JsRem60(seconds).Floor < 60
    ensures FloorDiv60(seconds) * 60 + JsRem60(seconds).Floor == seconds.Floor
  {
    FloorShift(seconds, FloorDiv60(seconds) * 60);
  }

  /** For a non-negative time the display is `m:ss` and reads back as the whole seconds. */
  lemma FormatTimeReadsBack(seconds: real)
    requires seconds >= 0.0
    ensures ClockSeconds(FormatTime(seconds)) == Some(seconds.Floor)
  {
    ClockParts(seconds);
    var mins: nat, secs: nat := FloorDiv60(seconds), JsRem60(seconds).Floor;
    assert FormatTime(seconds) == NatToString(mins) + ":" + PadStart2(NatToString(secs));
    ClockReadsBack(mins, secs);
  }

  /** The practice-session component's state. `timerRunning` stands for the interval
      handle; `permanent` and `resettable` are the balance loaded for the gate. */
  class VoicePracticeSession {
    const scenario: Scenario
    var isActive: bool
    var isPaused: bool
    var elapsedTime: real
    var tokensConsumed: real
    var permanent: real
    var resettable: real
    var loading: bool
    var startTime: real
    var timerRunning: bool

    /** The timer runs exactly while the session is active and not paused, and the
        estimate always matches the elapsed time. */
    ghost predicate Valid()
      reads this
    {
      && timerRunning == (isActive && !isPaused)
      && (!isActive ==> !isPaused)
      && tokensConsumed == TokensFor(elapsedTime)
    }

    constructor (scenario: Scenario)
      ensures Valid()
      ensures this.scenario == scenario
      ensures !isActive && !isPaused && !timerRunning && loading
      ensures elapsedTime == 0.0 && tokensConsumed == 0.0 && startTime == 0.0
      ensures permanent == 0.0 && resettable == 0.0
    {
      this.scenario := scenario;
      isActive, isPaused, timerRunning, loading := false, false, false, true;
      elapsedTime, tokensConsumed, startTime := 0.0, 0.0, 0.0;
      permanent, resettable := 0.0, 0.0;
    }

    /** `fetchCurrentTokens`: without a user nothing happens (the spinner stays);
        otherwise a returned row replaces the balance (a `null` column reads as 0 in
        the arithmetic) and loading ends whatever the outcome. */
    method FetchCurrentTokens(user: Option<User>, reply: Response<TokenRow>)
      requires Valid()
      modifies this`permanent, this`resettable, this`loading
      ensures Valid()
      ensures user.None? ==> unchanged(this)
      ensures user.Some? ==> !loading
      ensures user.Some? && reply.Resolved? && reply.data.Some? ==>
                permanent == reply.data.value.permanentTokens.GetOr(0.0)
                && resettable == reply.data.value.resettableTokens.GetOr(0.0)
      ensures !(user.Some? && reply.Resolved? && reply.data.Some?) ==>
                permanent == old(permanent) && resettable == old(resettable)
    {
      if user.None? {
        return;
      }
      if reply.Resolved? && reply.data.Some? {
        permanent := reply.data.value.permanentTokens.GetOr(0.0);
        resettable := reply.data.value.resettableTokens.GetOr(0.0);
      }
      loading := false;
    }

    /** The mount effect as written: it runs once (its dependency list is empty),
        and the fetch it runs sees the first render's user. The auth hook always
        starts with no user, so the fetch returns before its `finally`: loading
        never ends and the balance stays empty. */
    method Mount()
      requires Valid()
      modifies this`permanent, this`resettable, this`loading
      ensures Valid()
      ensures unchanged(this)
    {
      FetchCurrentTokens(None, Rejected);
    }

    /** The mount the component evidently intends: the fetch runs again once the
        auth hook reports the signed-in user, so loading ends and the balance is
        the fetched one. */
    method UserArrives(user: User, reply: Response<TokenRow>)
      requires Valid()
      modifies this`permanent, this`resettable, this`loading
      ensures Valid() && !loading
      ensures reply.Resolved? && reply.data.Some? ==>
                permanent == reply.data.value.permanentTokens.GetOr(0.0)
                && resettable == reply.data.value.resettableTokens.GetOr(0.0)
      ensures !(reply.Resolved? && reply.data.Some?) ==>
                permanent == old(permanent) && resettable == old(resettable)
    {
      FetchCurrentTokens(Some(user), reply);
    }

    /** `startSession`, reachable from the Start button, which is drawn only once
        loading has ended and while inactive: refused (with an alert) below one token; otherwise running from `now`, with the
        elapsed time and estimate of any earlier session left as they were. */
    method StartSession(now: int) returns (started: bool)
      requires Valid() && !loading && !isActive
      modifies this`isActive, this`isPaused, this`startTime, this`timerRunning
      ensures Valid()
      ensures started <==> permanent + resettable >= MIN_TOKENS_TO_START
      ensures !started ==> unchanged(this)
      ensures started ==> isActive && !isPaused && timerRunning && startTime == now as real
      ensures elapsedTime == old(elapsedTime) && tokensConsumed == old(tokensConsumed)
    {
      var totalTokens := permanent + resettable;
      if totalTokens < MIN_TOKENS_TO_START {
        return false;
      }
      isActive := true;
      isPaused := false;
      startTime := now as real;
      timerRunning := true;
      started := true;
    }

    /** One firing of the 100 ms interval. */
    method Tick(now: int)
      requires Valid() && timerRunning
      modifies this`elapsedTime, this`tokensConsumed
      ensures Valid()
      ensures elapsedTime == ElapsedSeconds(startTime, now)
      ensures tokensConsumed == TokensFor(elapsedTime)
    {
      var elapsed := (now as real - startTime) / 1000.0;
      elapsedTime := elapsed;
      tokensConsumed := elapsed * TOKENS_PER_SECOND;
    }

    /** `pauseSession`, from the Pause button shown while running: the timer stops
        and the elapsed time is frozen, not reset. */
    method PauseSession()
      requires Valid() && isActive && !isPaused
      modifies this`isPaused, this`timerRunning
      ensures Valid()
      ensures isActive && isPaused && !timerRunning
    {
      isPaused := true;
      timerRunning := false;
    }

    /** `resumeSession`, from the Resume button shown while paused: the start instant
        is moved back by the frozen time and the timer restarts. */
    method ResumeSession(now: int)
      requires Valid() && isActive && isPaused
      modifies this`isPaused, this`startTime, this`timerRunning
      ensures Valid()
      ensures isActive && !isPaused && timerRunning
      ensures startTime == RebasedStart(elapsedTime, now)
    {
      isPaused := false;
      startTime := now as real - elapsedTime * 1000.0;
      timerRunning := true;
    }

    /** The record a successful end reports: the scenario title and the elapsed time
        rounded to whole seconds. */
    function Record(): (d: SessionData)
      reads this
      ensures d.scenarioType == scenario.title
      ensures elapsedTime - 0.5 < d.durationSeconds as real <= elapsedTime + 0.5
    {
      SessionData(scenario.title, JsRound(elapsedTime))
    }

    /** `endSession`. The End button is drawn only while active, but nothing in the
        handler checks that, and a second tap can land before the re-render that
        removes the button; so the model leaves it unguarded: it stops the timer and
        returns to the idle state at once; then, only for a signed-in user and a
        positive elapsed time, it asks `consume_tokens` for the full-precision
        seconds, and only when that reports success inserts the session and, once
        the insert settles without throwing, calls `onComplete`. */
    method EndSession(user: Option<User>, consumeReply: Response<RpcData>, insertReply: Settled)
      returns (effects: EndEffects)
      requires Valid()
      modifies this`isActive, this`isPaused, this`timerRunning
      ensures Valid()
      ensures !isActive && !isPaused && !timerRunning
      ensures elapsedTime == old(elapsedTime) && tokensConsumed == old(tokensConsumed)
      ensures effects.consumeCall ==
                if user.Some? && elapsedTime > 0.0 then Some(ConsumeTokens(user.value.id, elapsedTime)) else None
      ensures effects.inserted ==
                if effects.consumeCall.Some? && consumeReply.Resolved? && consumeReply.data.Some?
                   && consumeReply.data.value.success
                then Some(SessionInsert(user.value.id, Record())) else None
      ensures effects.completed ==
                if effects.inserted.Some? && insertReply == Fulfilled then Some(Record()) else None
    {
      timerRunning := false;
      isActive := false;
      isPaused := false;
      effects := EndEffects(None, None, None);
      if user.Some? && elapsedTime > 0.0 {
        effects := effects.(consumeCall := Some(ConsumeTokens(user.value.id, elapsedTime)));
        if consumeReply.Resolved? && consumeReply.data.Some? && consumeReply.data.value.success {
          var sessionData := SessionData(scenario.title, JsRound(elapsedTime));
          effects := effects.(inserted := Some(SessionInsert(user.value.id, sessionData)));
          if insertReply == Fulfilled {
            effects := effects.(completed := Some(sessionData));
          }
        }
      }
    }

    /** The balance shown while a session runs: the loaded balance less the estimate
        for the elapsed time. */
    function RemainingTokens(): (r: real)
      reads this
      requires Valid()
      ensures r == permanent + resettable - TokensFor(elapsedTime)
    {
      permanent + resettable - tokensConsumed
    }

    /** The start the component evidently intends: like `StartSession`, but a new
        session begins from zero elapsed time and a zero estimate. */
    method StartFreshSession(now: int) returns (started: bool)
      requires Valid() && !loading && !isActive
      modifies this`isActive, this`isPaused, this`startTime, this`timerRunning, this`elapsedTime, this`tokensConsumed
      ensures Valid()
      ensures started <==> permanent + resettable >= MIN_TOKENS_TO_START
      ensures !started ==> unchanged(this)
      ensures started ==> isActive && !isPaused && timerRunning && startTime == now as real
      ensures started ==> elapsedTime == 0.0 && tokensConsumed == 0.0
    {
      if permanent + resettable < MIN_TOKENS_TO_START {
        return false;
      }
      isActive, isPaused, startTime, timerRunning := true, false, now as real, true;
      elapsedTime, tokensConsumed := 0.0, 0.0;
      started := true;
    }
  }

  /** As written, a mounted session never leaves its spinner: loading stays on, so
      the Start button is never drawn, and the balance stays empty. */
  method MountNeverLoads(scenario: Scenario) returns (loading: bool, balance: real)
    ensures loading
    ensures balance == 0.0 && balance < MIN_TOKENS_TO_START
  {
    var s := new VoicePracticeSession(scenario);
    s.Mount();
    loading, balance := s.loading, s.permanent + s.resettable;
  }

  /** With the corrected mount, a user holding one token sees the Start button,
      and pressing it starts the session. */
  method CorrectedMountCanStart(user: User, scenario: Scenario, now: int) returns (started: bool)
    ensures started
  {
    var s := new VoicePracticeSession(scenario);
    s.Mount();
    s.UserArrives(user, Resolved(Some(TokenRow(Some(1.0), None))));
    started := s.StartSession(now);
  }

  /** Assuming the corrected mount (without it no session starts at all): a user
      with a balance runs a five-second session, ends it (debited and recorded),
      starts again and presses End before the first tick: the second end debits
      and records the previous session's five seconds a second time. */
  method StaleElapsedTimeIsResent(user: User, scenario: Scenario) returns (first: EndEffects, second: EndEffects)
    ensures first.consumeCall == Some(ConsumeTokens(user.id, 5.0))
    ensures first.completed == Some(SessionData(scenario.title, 5))
    ensures second == first
  {
    var s := new VoicePracticeSession(scenario);
    s.Mount();
    s.UserArrives(user, Resolved(Some(TokenRow(Some(6.0), None))));
    var started := s.StartSession(0);
    s.Tick(5000);
    first := s.EndSession(Some(user), Resolved(Some(RpcData(true, None))), Fulfilled);
    started := s.StartSession(60000);
    second := s.EndSession(Some(user), Resolved(Some(RpcData(true, None))), Fulfilled);
  }

  /** With the corrected start, ending before the first tick makes no backend call
      and records nothing, whatever came before. */
  method FreshStartThenEndIsNoOp(s: VoicePracticeSession, now: int, user: Option<User>,
                                 reply: Response<RpcData>, insertReply: Settled)
                                 returns (started: bool, effects: EndEffects)
    requires s.Valid() && !s.loading && !s.isActive
    modifies s
    ensures started ==> effects == EndEffects(None, None, None)
  {
    started := s.StartFreshSession(now);
    effects := s.EndSession(user, reply, insertReply);
  }

  /** Pausing and resuming never sets the clock back: the first tick after a resume
      reads at least the time frozen by the pause. */
  method PauseResumeKeepsTime(s: VoicePracticeSession, pausedAt: int, resumeAt: int, tickAt: int)
    requires s.Valid() && s.isActive && !s.isPaused
    requires resumeAt <= tickAt
    modifies s
    ensures s.Valid() && s.isActive && !s.isPaused
    ensures s.elapsedTime >= ElapsedSeconds(old(s.startTime), pausedAt)
  {
    s.Tick(pausedAt);
    var frozen := s.elapsedTime;
    s.PauseSession();
    s.ResumeSession(resumeAt);
    s.Tick(tickAt);
    ResumeContinuesElapsed(frozen, resumeAt, tickAt);
  }

  /** Assuming the corrected mount: start, five seconds, end: one debit of five
      seconds, one record of five seconds, one completion. */
  method FiveSecondSession(user: User, scenario: Scenario) returns (effects: EndEffects)
    ensures effects.consumeCall == Some(ConsumeTokens(user.id, 5.0))
    ensures effects.inserted == Some(SessionInsert(user.id, SessionData(scenario.title, 5)))
    ensures effects.completed == Some(SessionData(scenario.title, 5))
  {
    var s := new VoicePracticeSession(scenario);
    s.Mount();
    s.UserArrives(user, Resolved(Some(TokenRow(Some(1.0), Some(0.0)))));
    var started := s.StartSession(1000);
    s.Tick(6000);
    effects := s.EndSession(Some(user), Resolved(Some(RpcData(true, None))), Fulfilled);
  }

  /** A second End (a double tap before the button disappears) repeats the debit. */
  method DoubleEndDebitsTwice(s: VoicePracticeSession, user: User) returns (first: EndEffects, second: EndEffects)
    requires s.Valid() && s.elapsedTime > 0.0
    modifies s
    ensures first.consumeCall == second.consumeCall == Some(ConsumeTokens(user.id, s.elapsedTime))
    ensures first.completed == second.completed == Some(s.Record())
  {
    var ok := Resolved(Some(RpcData(true, None)));
    first := s.EndSession(Some(user), ok, Fulfilled);
    second := s.EndSession(Some(user), ok, Fulfilled);
  }
}
