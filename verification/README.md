# Camera OCR and chat coordinators, modelled in Dafny

This project models the part of the Android app that holds logic of its own:

- **`OcrViewModel`** (module `Chat`). This is the chat transcript state `{messages, isLoading, errorMessage}`. `sendMessage` is split into a submit step and a later reply step; `clearMessages` and `dismissError` are modelled too. The rule-based reply `generateResponse` is a pure function: the first matching rule wins, and each rule is a case-insensitive substring test.
- **`CameraViewModel`** (module `Camera`). This is the camera screen state `{isLoading, errorMessage, recognizedText, isProcessing, isCameraInitialized}`. It is a class with one method per event:
  - initialization start, success and failure;
  - capture start and capture error;
  - recognition result and recognition exception;
  - `clearResults` and `retryCamera`.

  Which references the view-model holds is kept as three flags: `cameraProvider`, `imageCapture` and the lateinit `textRecognitionHelper`.
- **`TextRecognitionHelper`** (module `Recognition`). This is the fallback policy: a pure function from the outcomes of the vendor calls to the single string that reaches `onResult`, or to the exception that escapes. It also records which stages of the helper were entered.

Module `Strings` models the Kotlin library calls the view-models rely on: `isBlank()`, `contains(…, ignoreCase = true)` (an `indexOf` scan using `regionMatches`), and the `"${e.message}"` template, which writes a null message as `null`. Module `Wrappers` holds `Option`, which stands for Kotlin's nullable types.

The vendor calls are parameters. ML Kit's `recognizer.process` becomes `RecognizerOutcome`, building the image from the URI becomes `PrimaryOutcome`, and CameraX binding becomes `InitOutcome`. `BitmapFactory` and the content resolver share one datatype, `FallbackOutcome`: a decoded bitmap, a null bitmap (`NotDecodable`, which carries no message), or an exception with its message. The outcome of `takePicture` is which method runs next: `OnCaptureError(message)` when saving the picture fails, `ProcessImageForOcr(primary, fallback)` when it is saved. Timestamps (`System.currentTimeMillis()`) become an argument `now`.

The camera-initialization coroutine never suspends, because `cameraProviderFuture.get()` blocks. On the main dispatcher it therefore finishes before `initializeCamera` returns. For that reason `InitializeCamera` runs `StartInit` and then `InitSucceeded` or `InitFailed` in one call. The chat reply coroutine does suspend (in `delay(1000)`). Its completion is therefore a separate step, `CompleteReply` or `FailReply`. The class keeps the launched replies in a first-in-first-out queue, `pendingReplies`, because every reply waits the same delay on one thread.

The code behaves as follows, which a reader might not expect:

- A blank recognition result is still stored in `recognizedText`, and `errorMessage` is set as well, so the two are not mutually exclusive (`CameraViewModel.kt:120-125`).
- A failed initialization never resets `isCameraInitialized` (`CameraViewModel.kt:79-83`).
- A capture is refused only when there is no `imageCapture`, not when one is already in progress (`CameraViewModel.kt:89`). The capture button's visibility is what prevents a double capture.
- A recognizer failure is delivered as recognized text, for example `Error recognizing text: …` (`TextRecognitionHelper.kt:25`). It never reaches `errorMessage`.

## Model

| member | source | states |
|---|---|---|
| Strings.IsBlank | app/src/main/java/com/wpk/modul1/viewmodel/OcrViewModel.kt:29 | a string is blank iff every character is whitespace (so the empty string is blank) |
| Strings.MatchesAtMeansFolded | app/src/main/java/com/wpk/modul1/viewmodel/OcrViewModel.kt:69-77 | matching at an offset iff the pattern fits there and each pattern character equals the character beneath it after case folding |
| Strings.ContainsFrom | app/src/main/java/com/wpk/modul1/viewmodel/OcrViewModel.kt:69-77 | the left-to-right scan from offset i succeeds iff some offset k >= i matches |
| Strings.ContainsIgnoreCase | app/src/main/java/com/wpk/modul1/viewmodel/OcrViewModel.kt:69-77 | `contains(pat, ignoreCase = true)` holds iff some offset of the string matches the pattern case-insensitively |
| Strings.Rendered | app/src/main/java/com/wpk/modul1/viewmodel/OcrViewModel.kt:61 | a null exception message is written as "null", any other message as itself; the result is "null" iff the message is null or is "null" |
| Strings.RenderedDeterminesMessage | app/src/main/java/com/wpk/modul1/viewmodel/OcrViewModel.kt:61 | two messages render alike only when they are equal or are a null message and the message "null", so every error string carries its message except for that one collision |
| Chat.Echo | app/src/main/java/com/wpk/modul1/viewmodel/OcrViewModel.kt:80-82 | the fallback reply has the template's length plus the input's, and holds the input verbatim right after the opening quote |
| Chat.EchoIsNotCanned | app/src/main/java/com/wpk/modul1/viewmodel/OcrViewModel.kt:68-82 | no echo reply equals any of the three canned replies, so a reply identifies the rule that produced it |
| Chat.GenerateResponse | app/src/main/java/com/wpk/modul1/viewmodel/OcrViewModel.kt:67-84 | first matching rule wins: the OCR reply iff "ocr" or "scan" occurs; the camera reply iff not that and "camera" occurs; the greeting iff neither and "hello" or "hi" occurs; otherwise, and only then, the echo of the input |
| Chat.HiInsideAnyWordGreets | app/src/main/java/com/wpk/modul1/viewmodel/OcrViewModel.kt:76-79 | any input with "hi" (any case) at any offset, inside a word or not, gets the greeting unless the OCR or camera rule matched |
| Chat.OcrRuleComesFirst | app/src/main/java/com/wpk/modul1/viewmodel/OcrViewModel.kt:69-72 | an input containing "scan" or "ocr" gets the OCR reply whatever else it contains |
| Chat.HiInThisGreets | app/src/main/java/com/wpk/modul1/viewmodel/OcrViewModel.kt:76-79 | "this" gets the greeting |
| Chat.HelloGreets | app/src/main/java/com/wpk/modul1/viewmodel/OcrViewModel.kt:76-79 | "Hello" gets the greeting |
| Chat.OcrQuestionGetsGuidance | app/src/main/java/com/wpk/modul1/viewmodel/OcrViewModel.kt:69-72 | "tell me about OCR" gets the OCR guidance reply |
| Chat.CameraOutranksGreeting | app/src/main/java/com/wpk/modul1/viewmodel/OcrViewModel.kt:73-79 | "camera, hello" gets the camera reply, not the greeting |
| Chat.UnmatchedIsEchoed | app/src/main/java/com/wpk/modul1/viewmodel/OcrViewModel.kt:80-82 | "Thanks" matches no rule and is echoed |
| Chat.OcrViewModel.constructor | app/src/main/java/com/wpk/modul1/viewmodel/OcrViewModel.kt:13-20 | empty transcript, not loading, no error, no reply pending |
| Chat.OcrViewModel.SendMessage | app/src/main/java/com/wpk/modul1/viewmodel/OcrViewModel.kt:28-44 | blank message: nothing changes; otherwise exactly one user message with this content is appended after the unchanged earlier ones, loading is set, the error is cleared, and a reply is queued |
| Chat.OcrViewModel.CompleteReply | app/src/main/java/com/wpk/modul1/viewmodel/OcrViewModel.kt:44-56 | the oldest pending reply appends one non-user message whose content is `GenerateResponse` of that message after the messages present now; loading is cleared; the error is untouched |
| Chat.OcrViewModel.FailReply | app/src/main/java/com/wpk/modul1/viewmodel/OcrViewModel.kt:58-62 | a failed reply leaves the messages unchanged, clears loading and sets the error to "Failed to send message: " plus the exception message |
| Chat.OcrViewModel.ClearMessages | app/src/main/java/com/wpk/modul1/viewmodel/OcrViewModel.kt:86-91 | messages emptied, error cleared, loading unchanged; pending replies still arrive |
| Chat.OcrViewModel.DismissError | app/src/main/java/com/wpk/modul1/viewmodel/OcrViewModel.kt:93-95 | only the error changes, to none |
| Recognition.RecognizeTextFromBitmap | app/src/main/java/com/wpk/modul1/data/ocr/TextRecognitionHelper.kt:16-27 | recognized text is delivered as is; a recognizer failure is delivered as the report "Error recognizing text: " plus the exception message |
| Recognition.RecognizeTextFromUriFallback | app/src/main/java/com/wpk/modul1/data/ocr/TextRecognitionHelper.kt:52-66 | the fallback always delivers a string and never re-enters itself; recognized bitmap text is delivered as is; a recognizer failure gives "Error recognizing text: " plus the message, a null bitmap exactly "Failed to decode image from URI", an exception "Error processing image: " plus the message |
| Recognition.RecognizeTextFromUri | app/src/main/java/com/wpk/modul1/data/ocr/TextRecognitionHelper.kt:30-49 | stages run in pipeline order, each at most once; the fallback runs iff the primary recognizer failed or building the image threw an IOException; primary success delivers exactly its text with no fallback; only a non-IO exception escapes; when nothing is recognized the result is a failure report, namely the exact report of the fallback step that failed |
| Recognition.FailureReportsAreDistinct | app/src/main/java/com/wpk/modul1/data/ocr/TextRecognitionHelper.kt:23-64 | the three failure reports never coincide, and the exception message is determined by the report, so a report names the step that failed and carries its message |
| Recognition.FailureReportIsNotBlank | app/src/main/java/com/wpk/modul1/data/ocr/TextRecognitionHelper.kt:24-65 | every failure report the helper writes is non-blank |
| Camera.CameraViewModel.constructor | app/src/main/java/com/wpk/modul1/viewmodel/CameraViewModel.kt:20-35 | all flags false, no text, no error, no references held |
| Camera.CameraViewModel.StartInit | app/src/main/java/com/wpk/modul1/viewmodel/CameraViewModel.kt:43 | loading set and error cleared; the other three fields unchanged |
| Camera.CameraViewModel.InitSucceeded | app/src/main/java/com/wpk/modul1/viewmodel/CameraViewModel.kt:74-77 | loading cleared and camera initialized; error, recognized text and processing unchanged |
| Camera.CameraViewModel.InitFailed | app/src/main/java/com/wpk/modul1/viewmodel/CameraViewModel.kt:79-83 | loading cleared, error "Camera initialization failed: " plus the message; `isCameraInitialized` unchanged (never reset) |
| Camera.CameraViewModel.InitializeCamera | app/src/main/java/com/wpk/modul1/viewmodel/CameraViewModel.kt:38-86 | the helper is created; which references are assigned depends on how far the coroutine got; on success the camera is initialized with no error; on any failure the error is reported and the initialized flag is kept; text and processing untouched |
| Camera.CameraViewModel.CaptureAndProcessImage | app/src/main/java/com/wpk/modul1/viewmodel/CameraViewModel.kt:88-91 | with no image capture the state is unchanged; otherwise, even while already processing, processing is set and the error cleared |
| Camera.CameraViewModel.OnCaptureError | app/src/main/java/com/wpk/modul1/viewmodel/CameraViewModel.kt:107-112 | processing cleared, error "Image capture failed: " plus the message, nothing else changes |
| Camera.CameraViewModel.OnRecognitionResult | app/src/main/java/com/wpk/modul1/viewmodel/CameraViewModel.kt:120-126 | processing cleared and the text stored even when blank; error is "No text detected in image" iff the text is blank, none otherwise |
| Camera.CameraViewModel.OnRecognitionException | app/src/main/java/com/wpk/modul1/viewmodel/CameraViewModel.kt:127-131 | processing cleared, error "OCR processing failed: " plus the message, recognized text unchanged |
| Camera.CameraViewModel.ProcessImageForOcr | app/src/main/java/com/wpk/modul1/viewmodel/CameraViewModel.kt:117-134 | the whole new state: a delivered string ends processing and becomes the recognized text even when blank, with the error "No text detected in image" iff it is blank and none otherwise; an escaping exception ends processing, keeps the old text and sets "OCR processing failed: " plus the message; text recognized on the primary or the fallback path is stored; when nothing was recognized the failure report lands in `recognizedText` and `errorMessage` is none |
| Camera.CameraViewModel.ClearResults | app/src/main/java/com/wpk/modul1/viewmodel/CameraViewModel.kt:136-141 | only recognized text and error are cleared; on a state with neither it changes nothing (idempotent) |
| Camera.CameraViewModel.RetryCamera | app/src/main/java/com/wpk/modul1/viewmodel/CameraViewModel.kt:143-146 | clear the results, then initialize: the text ends cleared and loading off, processing kept; the error is none on success or the initialization failure otherwise, and the initialized flag is set on success or kept; the provider, image-capture and helper references are assigned as far as the initialization got |

## Left out

- Unicode: whitespace and case folding cover ASCII only. The app also treats non-ASCII whitespace as blank, and it folds a few non-ASCII letters onto ASCII ones (the long s, the Kelvin sign, the dotless i and the capital I with dot).
- `Strings.IsBlank`: every non-ASCII character counts as non-whitespace, so a string of non-ASCII whitespace (a no-break space, say) is not blank in the model although it is in the app.
- `Strings.ContainsIgnoreCase`: no non-ASCII character is folded. The app's case-insensitive comparison matches three ASCII letters with non-ASCII ones: "s" with the long s (U+017F), "k" with the Kelvin sign (U+212A), and "i" with the dotless i (U+0131) and the capital I with dot (U+0130). In the app "hı" therefore gets the greeting (`OcrViewModel.kt:76-79`) and "ſcan" gets the OCR reply (`OcrViewModel.kt:69-72`); the model echoes both.
- The Compose screens (`CameraScreen.kt`, `ChatScreen.kt`) and `MainActivity.kt`. They are presentation and navigation only. The capture and send buttons they hide or disable are the only guard against a second capture or send.
- CameraX, ML Kit, `BitmapFactory` and the content resolver. They are foreign library calls and appear only as outcomes with an exception message. The temporary file name and its timestamp (`CameraViewModel.kt:94`) are not modelled.
- Coroutines, the camera executor and `onCleared`. Concurrency and resource release are out of scope. Each callback is a separate sequential method. `ProcessImageForOcr` delivers the helper's asynchronous result in the same step that starts it; `OnRecognitionResult` and `OnRecognitionException` are also available on their own, so other events can be placed in between.
- Chat reply order: the queue assumes first-in-first-out completion. This holds because every reply waits the same delay on the main thread.
- JVM `Error`s, which are not `Exception`s: the helper and the view-model catch only `Exception` (`TextRecognitionHelper.kt:63`, `CameraViewModel.kt:127`). An out-of-memory error while decoding a bitmap, for example, escapes them. On the fallback route taken from the recognizer's failure listener it would crash the main thread instead of being delivered as a result string. The model has no outcome for such errors.
