/**
 * The chat assistant: spoken input is answered by a keyword classifier, and
 * every exchange is appended to a message log that opens with a welcome.
 */
module Chat {
  import opened Wrappers
  import opened Text
  import opened Ui

  const Welcome := "Hello! I'm your city assistant. How can I help you report an issue today?"
  const PermissionText := "Microphone permission required"
  const ListeningText := "Listening..."

  /** What the assistant understood the user to be talking about. */
  datatype Topic = Garbage | Road | Streetlight | Place | Photo | Fallback

  predicate Garbageish(l: string) { Contains(l, "garbage") || Contains(l, "trash") }
  predicate Roadish(l: string) { Contains(l, "pothole") || Contains(l, "road") }
  predicate Lightish(l: string) { Contains(l, "streetlight") || Contains(l, "light") }
  predicate Placeish(l: string) { Contains(l, "location") || Contains(l, "address") }
  predicate Photoish(l: string) { Contains(l, "photo") || Contains(l, "picture") || Contains(l, "image") }

  /** `processUserInput`'s `when`: the lower-cased input is tested for the
      keyword groups in a fixed order and the first group that occurs in it
      decides. */
  function Classify(input: string): (t: Topic)
    ensures var l := Lower(input);
            && (t == Garbage <==> Garbageish(l))
            && (t == Road <==> !Garbageish(l) && Roadish(l))
            && (t == Streetlight <==> !Garbageish(l) && !Roadish(l) && Lightish(l))
            && (t == Place <==> !Garbageish(l) && !Roadish(l) && !Lightish(l) && Placeish(l))
            && (t == Photo <==> !Garbageish(l) && !Roadish(l) && !Lightish(l) && !Placeish(l) && Photoish(l))
            && (t == Fallback <==> !Garbageish(l) && !Roadish(l) && !Lightish(l) && !Placeish(l) && !Photoish(l))
  {
    var l := Lower(input);
    if Garbageish(l) then Garbage
    else if Roadish(l) then Road
    else if Lightish(l) then Streetlight
    else if Placeish(l) then Place
    else if Photoish(l) then Photo
    else Fallback
  }

  const GarbageReply := "I understand you want to report a garbage issue. Can you describe the location?"
  const RoadReply := "Got it, a road infrastructure issue. Where is this pothole located?"
  const StreetlightReply := "A streetlight issue. Please share the location details."
  const PlaceReply := "Would you like to share your current location or enter it manually?"
  const PhotoReply := "Please take a photo of the issue. I'll help you report it."
  const FallbackReply := "I'm here to help you report civic issues. You can describe problems with roads, garbage, streetlights, or other infrastructure."

  /** The bot's answer for each topic. */
  function Reply(t: Topic): string {
    match t
    case Garbage => GarbageReply
    case Road => RoadReply
    case Streetlight => StreetlightReply
    case Place => PlaceReply
    case Photo => PhotoReply
    case Fallback => FallbackReply
  }

  /** Each topic gets its own answer. */
  lemma RepliesDistinct(a: Topic, b: Topic)
    requires a != b
    ensures Reply(a) != Reply(b)
  {
    if (a == Road && b == Place) || (a == Place && b == Road) {
      assert RoadReply[65] == 'd' && PlaceReply[65] == 'y';
    } else {
      assert |Reply(a)| != |Reply(b)|;
    }
  }

  /** Matching is by substring, so "streetlight" adds nothing to "light":
      a text that mentions a streetlight mentions a light. */
  lemma StreetlightCoveredByLight(l: string)
    ensures Lightish(l) <==> Contains(l, "light")
  {
    if Contains(l, "streetlight") {
      assert "streetlight" == "street" + "light" + "";
      ContainsInner(l, "street", "light", "");
    }
  }

  /** Case never matters: the input and its lower-cased form are
      classified alike. */
  lemma ClassifyIgnoresCase(input: string)
    ensures Classify(Lower(input)) == Classify(input)
  {
    LowerIdempotent(input);
  }

  /** One entry of the log; `timestamp` is the clock when it was added. */
  datatype ChatMessage = ChatMessage(message: string, isUser: bool, timestamp: int)

  /** The adapter's view type: 1 lays out a user bubble, 0 a bot bubble. */
  function ViewType(m: ChatMessage): (v: int)
    ensures v == 1 <==> m.isUser
    ensures v == 0 <==> !m.isUser
  {
    if m.isUser then 1 else 0
  }

  /** `firstOrNull()` of the recognised texts. */
  function FirstMatch(matches: Option<seq<string>>): (r: Option<string>)
    ensures r.Some? <==> matches.Some? && matches.value != []
    ensures r.Some? ==> r.value == matches.value[0]
  {
    if matches.Some? && matches.value != [] then Some(matches.value[0]) else None
  }

  /** One spoken turn in the log: the user's text, then the bot's answer;
      each message reads the clock when it is created, so the two carry
      their own stamps. */
  function Exchange(text: string, userTime: int, botTime: int): (ms: seq<ChatMessage>)
    ensures |ms| == 2 && ms[0].isUser && !ms[1].isUser
    ensures ms[0].message == text && ms[1].message == Reply(Classify(text))
    ensures ms[0].timestamp == userTime && ms[1].timestamp == botTime
  {
    [ChatMessage(text, true, userTime), ChatMessage(Reply(Classify(text)), false, botTime)]
  }

  /** What the recogniser reports when it fails. */
  datatype SpeechError =
    | AudioError | ClientError | InsufficientPermissions | NetworkError | NetworkTimeout
    | NoMatch | RecognizerBusy | ServerError | SpeechTimeout | OtherError(code: int)

  function SpeechErrorText(e: SpeechError): string {
    match e
    case AudioError => "Audio recording error"
    case ClientError => "Client error"
    case InsufficientPermissions => "Insufficient permissions"
    case NetworkError => "Network error"
    case NetworkTimeout => "Network timeout"
    case NoMatch => "No speech match"
    case RecognizerBusy => "Recognition service busy"
    case ServerError => "Server error"
    case SpeechTimeout => "No speech input"
    case OtherError(_) => "Unknown error"
  }

  /** Every recogniser error the screen knows has its own message; only
      the codes it does not know share "Unknown error". */
  lemma SpeechErrorTextsDistinct(a: SpeechError, b: SpeechError)
    requires a != b && !(a.OtherError? && b.OtherError?)
    ensures SpeechErrorText(a) != SpeechErrorText(b)
  {
    var x, y := SpeechErrorText(a), SpeechErrorText(b);
    if |x| == |y| && x[0] == y[0] {
      assert x[1] != y[1] || x[3] != y[3] || x[10] != y[10];
    }
  }

  lemma UnknownCodesShareText(c: int, d: int)
    ensures SpeechErrorText(OtherError(c)) == SpeechErrorText(OtherError(d)) == "Unknown error"
  {
  }

  class ChatScreen {
    var messages: seq<ChatMessage>
    var isListening: bool
    /** The mic animation and the "listening" caption show together. */
    var micIndicatorVisible: Visibility
    /** The caption's text; None while it is still the layout's own. */
    var listeningCaption: Option<string>

    /** The log always opens with the assistant's welcome. */
    ghost predicate Valid()
      reads this
    {
      messages != [] && messages[0].message == Welcome && !messages[0].isUser
    }

    /** `onViewCreated`: the log holds only the welcome, and the mic is
        idle. */
    constructor OnViewCreated(now: int)
      ensures Valid()
      ensures messages == [ChatMessage(Welcome, false, now)]
      ensures !isListening && micIndicatorVisible == AsInLayout && listeningCaption.None?
    {
      messages := [ChatMessage(Welcome, false, now)];
      isListening := false;
      micIndicatorVisible := AsInLayout;
      listeningCaption := None;
    }

    method AddUserMessage(text: string, now: int)
      requires Valid()
      modifies this
      ensures Valid()
      ensures messages == old(messages) + [ChatMessage(text, true, now)]
      ensures isListening == old(isListening) && micIndicatorVisible == old(micIndicatorVisible)
      ensures listeningCaption == old(listeningCaption)
    {
      messages := messages + [ChatMessage(text, true, now)];
    }

    /** Appends the bot's answer (which is also spoken aloud). */
    method AddBotMessage(text: string, now: int)
      requires Valid()
      modifies this
      ensures Valid()
      ensures messages == old(messages) + [ChatMessage(text, false, now)]
      ensures isListening == old(isListening) && micIndicatorVisible == old(micIndicatorVisible)
      ensures listeningCaption == old(listeningCaption)
    {
      messages := messages + [ChatMessage(text, false, now)];
    }

    /** `processUserInput`: exactly one bot message, the answer for the
        input's topic; only the photo topic moves on, to the AI report. */
    method ProcessUserInput(input: string, now: int) returns (t: Option<Transition>)
      requires Valid()
      modifies this
      ensures Valid()
      ensures messages == old(messages) + [ChatMessage(Reply(Classify(input)), false, now)]
      ensures t.Some? <==> Classify(input) == Photo
      ensures t.Some? ==> t.value == Open(AIReport, map[], true)
      ensures isListening == old(isListening) && micIndicatorVisible == old(micIndicatorVisible)
      ensures listeningCaption == old(listeningCaption)
    {
      var topic := Classify(input);
      AddBotMessage(Reply(topic), now);
      t := if topic == Photo then Some(Open(AIReport, map[], true)) else None;
    }

    /** `startVoiceRecognition`. */
    method StartListening()
      requires Valid()
      modifies this
      ensures Valid()
      ensures isListening && micIndicatorVisible == Visible
      ensures messages == old(messages) && listeningCaption == old(listeningCaption)
    {
      isListening := true;
      micIndicatorVisible := Visible;
    }

    /** `stopVoiceRecognition`. */
    method StopListening()
      requires Valid()
      modifies this
      ensures Valid()
      ensures !isListening && micIndicatorVisible == Gone
      ensures messages == old(messages) && listeningCaption == old(listeningCaption)
    {
      isListening := false;
      micIndicatorVisible := Gone;
    }

    /** The mic button: stops while listening; otherwise starts when the
        microphone permission is held and asks for it when not. */
    method OnMicClick(permissionGranted: bool) returns (askPermission: bool)
      requires Valid()
      modifies this
      ensures Valid()
      ensures old(isListening) ==> !isListening && micIndicatorVisible == Gone && !askPermission
      ensures !old(isListening) && permissionGranted ==>
                isListening && micIndicatorVisible == Visible && !askPermission
      ensures !old(isListening) && !permissionGranted ==>
                !isListening && micIndicatorVisible == old(micIndicatorVisible) && askPermission
      ensures messages == old(messages) && listeningCaption == old(listeningCaption)
    {
      askPermission := false;
      if isListening {
        StopListening();
      } else if permissionGranted {
        StartListening();
      } else {
        askPermission := true;
      }
    }

    /** The answer to the permission request. */
    method OnPermissionResult(granted: bool) returns (toast: Option<string>)
      requires Valid()
      modifies this
      ensures Valid()
      ensures granted ==> isListening && micIndicatorVisible == Visible && toast.None?
      ensures !granted ==> isListening == old(isListening) && micIndicatorVisible == old(micIndicatorVisible)
                           && toast == Some(PermissionText)
      ensures messages == old(messages) && listeningCaption == old(listeningCaption)
    {
      if granted {
        StartListening();
        toast := None;
      } else {
        toast := Some(PermissionText);
      }
    }

    /** The recogniser is ready: the caption reads "Listening...". */
    method OnReadyForSpeech()
      requires Valid()
      modifies this
      ensures Valid()
      ensures listeningCaption == Some(ListeningText)
      ensures messages == old(messages) && isListening == old(isListening)
      ensures micIndicatorVisible == old(micIndicatorVisible)
    {
      listeningCaption := Some(ListeningText);
    }

    /** `onResults`: only the first recognised text is used; it is logged as
        the user's message (stamped `userTime`) before the bot answers it
        (stamped `botTime`). Listening stops in every case. */
    method OnResults(matches: Option<seq<string>>, userTime: int, botTime: int) returns (t: Option<Transition>)
      requires Valid()
      modifies this
      ensures Valid()
      ensures !isListening && micIndicatorVisible == Gone
      ensures listeningCaption == old(listeningCaption)
      ensures FirstMatch(matches).Some? ==>
                messages == old(messages) + Exchange(FirstMatch(matches).value, userTime, botTime)
                && (t.Some? <==> Classify(FirstMatch(matches).value) == Photo)
                && (t.Some? ==> t.value == Open(AIReport, map[], true))
      ensures FirstMatch(matches).None? ==> messages == old(messages) && t.None?
    {
      t := None;
      var first := FirstMatch(matches);
      if first.Some? {
        var text := first.value;
        ghost var before := messages;
        ghost var exchange := Exchange(text, userTime, botTime);
        AddUserMessage(text, userTime);
        assert messages == before + exchange[..1];
        t := ProcessUserInput(text, botTime);
        assert messages == before + exchange;
      }
      StopListening();
    }

    /** The end of speech stops listening. */
    method OnEndOfSpeech()
      requires Valid()
      modifies this
      ensures Valid()
      ensures !isListening && micIndicatorVisible == Gone
      ensures messages == old(messages) && listeningCaption == old(listeningCaption)
    {
      StopListening();
    }

    /** A recognition error stops listening and reports the error. */
    method OnError(e: SpeechError) returns (toast: string)
      requires Valid()
      modifies this
      ensures Valid()
      ensures !isListening && micIndicatorVisible == Gone
      ensures messages == old(messages) && listeningCaption == old(listeningCaption)
      ensures toast == SpeechErrorText(e)
    {
      StopListening();
      toast := SpeechErrorText(e);
    }
  }
}
