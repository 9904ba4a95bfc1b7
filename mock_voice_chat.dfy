/** The scripted voice chat screen: no SDK, a three-line sample transcript that an
    effect re-seeds whenever recording, pause or the partner change, and a skip
    button that adds one of three canned partner lines. */
module MockVoiceChat {
  import opened Conversation

  const SEED_OPENING: string := "Hi there! It's nice to meet you. What brings you to this coffee shop today?"
  const SEED_REPLY: string := "I come here pretty often actually. They have the best lattes in town. How about you?"
  const SEED_FOLLOW_UP: string := "This is my first time here! I've heard great things about their pastries. Any recommendations?"

  const SKIP_RESPONSES: seq<string> := [
    "That sounds interesting! Tell me more about your hobbies.",
    "I love trying new restaurants. Do you have any favorites?",
    "What do you enjoy doing on weekends?"
  ]

  /** The transcript the effect installs. */
  function Seed(partnerName: string): (t: seq<Entry>)
    ensures |t| == 3 && t[0].speaker == partnerName && t[1].speaker == YOU && t[2].speaker == partnerName
  {
    [Entry(partnerName, SEED_OPENING), Entry(YOU, SEED_REPLY), Entry(partnerName, SEED_FOLLOW_UP)]
  }

  class VoiceChat {
    var partnerName: string
    var isRecording: bool
    var isPaused: bool
    var transcript: seq<Entry>
    var audioVisualization: seq<real>

    /** The transcript is always the seed followed by skipped-to partner lines. */
    ghost predicate Valid()
      reads this
    {
      && |transcript| >= 3 && transcript[..3] == Seed(partnerName)
      && (forall i :: 3 <= i < |transcript| ==>
            transcript[i].speaker == partnerName && transcript[i].text in SKIP_RESPONSES)
      && ValidBars(audioVisualization)
    }

    /** Mounting: state starts empty and the effect's first run seeds the transcript. */
    constructor (partnerName: string)
      ensures Valid()
      ensures this.partnerName == partnerName && !isRecording && !isPaused
      ensures transcript == Seed(partnerName) && audioVisualization == []
    {
      this.partnerName := partnerName;
      isRecording, isPaused := false, false;
      audioVisualization := [];
      transcript := Seed(partnerName);
    }

    /** The effect, run after every change of `isRecording`, `isPaused` or `partnerName`. */
    method RunEffect()
      requires ValidBars(audioVisualization)
      modifies this`transcript
      ensures Valid()
      ensures transcript == Seed(partnerName)
    {
      transcript := Seed(partnerName);
    }

    /** `toggleRecording`: flips recording and clears the pause; recording changed,
        so the effect re-seeds the transcript. */
    method ToggleRecording()
      requires Valid()
      modifies this`isRecording, this`isPaused, this`transcript
      ensures Valid()
      ensures isRecording == !old(isRecording) && !isPaused
      ensures transcript == Seed(partnerName)
    {
      isRecording := !isRecording;
      if isPaused {
        isPaused := false;
      }
      RunEffect();
    }

    /** `togglePause`, from the pause button (enabled only while recording): flips
        the pause, and the effect re-seeds the transcript. */
    method TogglePause()
      requires Valid() && isRecording
      modifies this`isPaused, this`transcript
      ensures Valid()
      ensures isPaused == !old(isPaused) && isRecording
      ensures transcript == Seed(partnerName)
    {
      isPaused := !isPaused;
      RunEffect();
    }

    /** `skipTurn`, given the random pick among the three canned lines: appends
        exactly that partner line. */
    method SkipTurn(pick: nat)
      requires Valid() && pick < |SKIP_RESPONSES|
      modifies this`transcript
      ensures Valid()
      ensures transcript == old(transcript) + [Entry(partnerName, SKIP_RESPONSES[pick])]
      ensures old(transcript) <= transcript
    {
      transcript := transcript + [Entry(partnerName, SKIP_RESPONSES[pick])];
    }

    /** A new `partnerName` prop: the effect runs, discarding skipped lines, only
        when the name actually changed. */
    method SetPartnerName(name: string)
      requires Valid()
      modifies this`partnerName, this`transcript
      ensures Valid() && partnerName == name
      ensures name != old(partnerName) ==> transcript == Seed(name)
      ensures name == old(partnerName) ==> transcript == old(transcript)
    {
      if name != partnerName {
        partnerName := name;
        RunEffect();
      }
    }

    /** One firing of the visualization interval: bars move only while recording and
        not paused. */
    method RedrawBars(samples: seq<real>)
      requires Valid() && RandomDraws(samples)
      modifies this`audioVisualization
      ensures Valid()
      ensures audioVisualization == Bars(isRecording && !isPaused, samples)
      ensures !isRecording || isPaused ==>
                forall i :: 0 <= i < BAR_COUNT ==> audioVisualization[i] == IDLE_HEIGHT
    {
      audioVisualization := Bars(isRecording && !isPaused, samples);
    }
  }
}
