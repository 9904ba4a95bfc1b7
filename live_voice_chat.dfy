/** The voice chat screen backed by the conversational-voice SDK. The SDK's
    connection, audio and volume are outside the model: its callbacks are methods,
    and its volume requests are returned values. */
module LiveVoiceChat {
  import opened Wrappers
  import opened Conversation

  const GREETING: string := "Hi! Ready to practice your conversation skills?"
  const CONNECTED_LINE: string := "Great! Let's start our conversation. How are you doing today?"
  const AGENT_RESPONSE: string := "agent_response"
  const USER_TRANSCRIPT: string := "user_transcript"
  const FULL_VOLUME: real := 1.0
  const SILENT_VOLUME: real := 0.0

  /** A message delivered to `onMessage`: its `type` and its optional `text`. */
  datatype Message = Message(kind: string, text: Option<string>)

  class VoiceChat {
    const partnerName: string
    var transcript: seq<Entry>
    var audioVisualization: seq<real>
    var isMuted: bool

    /** The transcript always opens with the partner's greeting. */
    ghost predicate Valid()
      reads this
    {
      |transcript| >= 1 && transcript[0] == Entry(partnerName, GREETING) && ValidBars(audioVisualization)
    }

    constructor (partnerName: string)
      ensures Valid()
      ensures this.partnerName == partnerName
      ensures transcript == [Entry(partnerName, GREETING)]
      ensures audioVisualization == [] && !isMuted
    {
      this.partnerName := partnerName;
      transcript := [Entry(partnerName, GREETING)];
      audioVisualization := [];
      isMuted := false;
    }

    /** `onConnect`: the partner's fixed opening line is appended. */
    method OnConnect()
      requires Valid()
      modifies this`transcript
      ensures Valid()
      ensures transcript == old(transcript) + [Entry(partnerName, CONNECTED_LINE)]
    {
      transcript := transcript + [Entry(partnerName, CONNECTED_LINE)];
    }

    /** `onMessage`: an agent response is appended as the partner's line and a user
        transcript as the user's (missing text as ""); any other kind of message
        leaves the transcript alone. The old transcript is always kept as a prefix. */
    method OnMessage(message: Message)
      requires Valid()
      modifies this`transcript
      ensures Valid()
      ensures old(transcript) <= transcript && |transcript| <= |old(transcript)| + 1
      ensures message.kind == AGENT_RESPONSE ==>
                transcript == old(transcript) + [Entry(partnerName, message.text.GetOr(""))]
      ensures message.kind == USER_TRANSCRIPT ==>
                transcript == old(transcript) + [Entry(YOU, message.text.GetOr(""))]
      ensures message.kind != AGENT_RESPONSE && message.kind != USER_TRANSCRIPT ==>
                transcript == old(transcript)
    {
      if message.kind == AGENT_RESPONSE {
        transcript := transcript + [Entry(partnerName, message.text.GetOr(""))];
      } else if message.kind == USER_TRANSCRIPT {
        transcript := transcript + [Entry(YOU, message.text.GetOr(""))];
      }
    }

    /** `toggleMute`: asks the SDK for full volume when muted and silence when not,
        then flips the flag. Returns the volume requested. */
    method ToggleMute() returns (volume: real)
      requires Valid()
      modifies this`isMuted
      ensures Valid()
      ensures isMuted == !old(isMuted)
      ensures volume == (if old(isMuted) then FULL_VOLUME else SILENT_VOLUME)
      ensures isMuted <==> volume == SILENT_VOLUME
    {
      if isMuted {
        volume := FULL_VOLUME;
      } else {
        volume := SILENT_VOLUME;
      }
      isMuted := !isMuted;
    }

    /** One firing of the visualization interval, given whether the SDK reports a
        connection and one random draw per bar. */
    method RedrawBars(isConnected: bool, samples: seq<real>)
      requires Valid() && RandomDraws(samples)
      modifies this`audioVisualization
      ensures Valid()
      ensures audioVisualization == Bars(isConnected && !isMuted, samples)
      ensures |audioVisualization| == BAR_COUNT
      ensures !isConnected || isMuted ==>
                forall i :: 0 <= i < BAR_COUNT ==> audioVisualization[i] == IDLE_HEIGHT
    {
      audioVisualization := Bars(isConnected && !isMuted, samples);
    }

    /** `endConversation`: `onEndSession` runs only once the SDK's `endSession()`
        has resolved; a rejection is logged and nothing else happens. */
    method EndConversation(endReply: Settled) returns (sessionEnded: bool)
      ensures sessionEnded <==> endReply == Fulfilled
    {
      sessionEnded := false;
      if endReply == Fulfilled {
        sessionEnded := true;
      }
    }

    /** `startConversation`: a rejected `startSession` is reported with an alert. */
    method StartConversation(startReply: Settled) returns (alerted: bool)
      ensures alerted <==> startReply == Thrown
    {
      alerted := startReply == Thrown;
    }
  }
}
