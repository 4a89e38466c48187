/**
 * `OcrViewModel`: the chat transcript state, the rule-based reply, and the
 * operations that rewrite the state. The reply coroutine launched by
 * `sendMessage` is modelled as a queue of pending replies whose completion
 * (or failure) is a separate step.
 */
module Chat {
  import opened Wrappers
  import opened Strings

  const OcrReply := "I can help you with OCR text recognition. Use the camera button to scan text from images."
  const CameraReply := "Tap the camera icon in the top bar to start scanning text from your camera."
  const GreetingReply := "Hello! I'm your OCR assistant. I can help you extract and analyze text from images."
  const EchoPrefix := "I understand you said: \""
  const EchoSuffix := "\". How can I help you with text recognition or analysis?"
  const SendFailedPrefix := "Failed to send message: "

  /** One transcript entry; `timestamp` is the creation time in milliseconds, passed in by the caller. */
  datatype ChatMessage = ChatMessage(content: string, isUser: bool, timestamp: int)

  datatype ChatUiState = ChatUiState(messages: seq<ChatMessage>, isLoading: bool, errorMessage: Option<string>)

  predicate AsksAboutOcr(m: string) {
    ContainsIgnoreCase(m, "ocr") || ContainsIgnoreCase(m, "scan")
  }

  predicate AsksAboutCamera(m: string) {
    ContainsIgnoreCase(m, "camera")
  }

  predicate Greets(m: string) {
    ContainsIgnoreCase(m, "hello") || ContainsIgnoreCase(m, "hi")
  }

  /** The reply when no rule matches: the input quoted inside a fixed template. */
  function Echo(m: string): (r: string)
    ensures |r| == |EchoPrefix| + |m| + |EchoSuffix|
    ensures r[|EchoPrefix| - 1] == '"'
    ensures r[|EchoPrefix|..|EchoPrefix| + |m|] == m
  {
    EchoPrefix + m + EchoSuffix
  }

  /** No echo is one of the three canned replies. */
  lemma EchoIsNotCanned(m: string)
    ensures Echo(m) != OcrReply && Echo(m) != CameraReply && Echo(m) != GreetingReply
  {
    // the echo ends in a question mark, every canned reply in a full stop
    var e := Echo(m);
    assert e[|e| - 1] == EchoSuffix[|EchoSuffix| - 1] == '?';
    assert OcrReply[|OcrReply| - 1] == CameraReply[|CameraReply| - 1] == GreetingReply[|GreetingReply| - 1] == '.';
  }

  /** `generateResponse`: the first matching rule wins, and the reply tells which rule fired. */
  function GenerateResponse(userMessage: string): (r: string)
    ensures r == OcrReply <==> AsksAboutOcr(userMessage)
    ensures r == CameraReply <==> !AsksAboutOcr(userMessage) && AsksAboutCamera(userMessage)
    ensures r == GreetingReply
            <==> !AsksAboutOcr(userMessage) && !AsksAboutCamera(userMessage) && Greets(userMessage)
    ensures r == Echo(userMessage)
            <==> !AsksAboutOcr(userMessage) && !AsksAboutCamera(userMessage) && !Greets(userMessage)
  {
    EchoIsNotCanned(userMessage);
    if AsksAboutOcr(userMessage) then OcrReply
    else if AsksAboutCamera(userMessage) then CameraReply
    else if Greets(userMessage) then GreetingReply
    else Echo(userMessage)
  }

  /** "hi" is a plain substring test: any word containing it greets, unless an earlier rule matched. */
  lemma HiInsideAnyWordGreets(m: string, i: nat)
    requires i + 2 <= |m| && Lower(m[i]) == 'h' && Lower(m[i + 1]) == 'i'
    requires !AsksAboutOcr(m) && !AsksAboutCamera(m)
    ensures GenerateResponse(m) == GreetingReply
  {
    assert MatchesAt(m, "hi", i);
  }

  /** The OCR rule outranks the camera and greeting rules. */
  lemma OcrRuleComesFirst(m: string, i: nat)
    requires MatchesAt(m, "scan", i) || MatchesAt(m, "ocr", i)
    ensures GenerateResponse(m) == OcrReply
  {
  }

  lemma HiInThisGreets()
    ensures GenerateResponse("this") == GreetingReply
  {
    HiInsideAnyWordGreets("this", 1);
  }

  lemma HelloGreets()
    ensures GenerateResponse("Hello") == GreetingReply
  {
    assert MatchesAt("Hello", "hello", 0);
  }

  lemma OcrQuestionGetsGuidance()
    ensures GenerateResponse("tell me about OCR") == OcrReply
  {
    OcrRuleComesFirst("tell me about OCR", 14);
  }

  lemma CameraOutranksGreeting()
    ensures GenerateResponse("camera, hello") == CameraReply
  {
    var m := "camera, hello";
    assert !ContainsFrom(m, "ocr", 0);
    assert !ContainsFrom(m, "scan", 0);
    assert MatchesAt(m, "camera", 0);
  }

  lemma UnmatchedIsEchoed()
    ensures GenerateResponse("Thanks") == Echo("Thanks")
  {
    var m := "Thanks";
    assert !ContainsFrom(m, "ocr", 0) && !ContainsFrom(m, "scan", 0);
    assert !ContainsFrom(m, "camera", 0);
    assert !ContainsFrom(m, "hello", 0) && !ContainsFrom(m, "hi", 0);
  }

  class OcrViewModel {
    var uiState: ChatUiState
    /** The messages whose reply coroutine has been launched and has not finished, oldest first. */
    var pendingReplies: seq<string>

    constructor ()
      ensures uiState == ChatUiState([], false, None)
      ensures pendingReplies == []
    {
      uiState := ChatUiState([], false, None);
      pendingReplies := [];
    }

    /** `sendMessage`, up to the launch of the reply coroutine. */
    method SendMessage(message: string, now: int)
      modifies this
      ensures IsBlank(message) ==> uiState == old(uiState) && pendingReplies == old(pendingReplies)
      ensures !IsBlank(message) ==>
                && uiState.messages == old(uiState.messages) + [ChatMessage(message, true, now)]
                && uiState.isLoading
                && uiState.errorMessage == None
                && pendingReplies == old(pendingReplies) + [message]
    {
      if IsBlank(message) {
        return;
      }
      var userMessage := ChatMessage(message, true, now);
      uiState := uiState.(messages := uiState.messages + [userMessage], isLoading := true, errorMessage := None);
      pendingReplies := pendingReplies + [message];
    }

    /** The oldest reply coroutine finishes its delay and appends the generated reply. */
    method CompleteReply(now: int)
      requires pendingReplies != []
      modifies this
      ensures uiState.messages
              == old(uiState.messages) + [ChatMessage(GenerateResponse(old(pendingReplies[0])), false, now)]
      ensures !uiState.isLoading
      ensures uiState.errorMessage == old(uiState.errorMessage)
      ensures pendingReplies == old(pendingReplies[1..])
    {
      var message := pendingReplies[0];
      var aiResponse := ChatMessage(GenerateResponse(message), false, now);
      uiState := uiState.(messages := uiState.messages + [aiResponse], isLoading := false);
      pendingReplies := pendingReplies[1..];
    }

    /** The oldest reply coroutine throws (for instance when it is cancelled). */
    method FailReply(exceptionMessage: Option<string>)
      requires pendingReplies != []
      modifies this
      ensures uiState.messages == old(uiState.messages)
      ensures !uiState.isLoading
      ensures uiState.errorMessage == Some(SendFailedPrefix + Rendered(exceptionMessage))
      ensures pendingReplies == old(pendingReplies[1..])
    {
      uiState := uiState.(isLoading := false, errorMessage := Some(SendFailedPrefix + Rendered(exceptionMessage)));
      pendingReplies := pendingReplies[1..];
    }

    /** `clearMessages`: empties the transcript and the error; pending replies still arrive later. */
    method ClearMessages()
      modifies this
      ensures uiState.messages == [] && uiState.errorMessage == None
      ensures uiState.isLoading == old(uiState.isLoading)
      ensures pendingReplies == old(pendingReplies)
    {
      uiState := uiState.(messages := [], errorMessage := None);
    }

    /** `dismissError`: only the error changes. */
    method DismissError()
      modifies this
      ensures uiState == old(uiState).(errorMessage := None)
      ensures pendingReplies == old(pendingReplies)
    {
      uiState := uiState.(errorMessage := None);
    }
  }
}
