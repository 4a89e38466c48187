/**
 * `CameraViewModel`: the camera/OCR screen state and the events that rewrite
 * it. CameraX and ML Kit are replaced by abstract outcomes; which references
 * the view-model holds (`cameraProvider`, `imageCapture`, the lateinit
 * `textRecognitionHelper`) is kept as flags.
 */
module Camera {
  import opened Wrappers
  import opened Strings
  import Recognition

  const InitFailedPrefix := "Camera initialization failed: "
  const CaptureFailedPrefix := "Image capture failed: "
  const OcrFailedPrefix := "OCR processing failed: "
  const NoTextDetected := "No text detected in image"

  datatype CameraUiState = CameraUiState(
    isLoading: bool,
    errorMessage: Option<string>,
    recognizedText: Option<string>,
    isProcessing: bool,
    isCameraInitialized: bool)

  /** How the body of the camera-initialization coroutine ends. */
  datatype InitOutcome =
    | ProviderUnavailable(message: Option<string>) // obtaining the camera provider threw
    | UseCasesFailed(message: Option<string>)      // provider obtained; building a use case threw
    | BindingFailed(message: Option<string>)       // use cases built; (un)binding them threw
    | Bound                                        // preview and capture bound to the lifecycle

  class CameraViewModel {
    var uiState: CameraUiState
    var hasCameraProvider: bool      // cameraProvider != null
    var hasImageCapture: bool        // imageCapture != null
    var hasRecognitionHelper: bool   // the lateinit textRecognitionHelper has been assigned

    /** The references are assigned in this order, and the camera is reported
        initialized only once an image capture exists. */
    ghost predicate Valid()
      reads this
    {
      && (hasImageCapture ==> hasCameraProvider && hasRecognitionHelper)
      && (uiState.isCameraInitialized ==> hasImageCapture)
    }

    constructor ()
      ensures Valid()
      ensures uiState == CameraUiState(false, None, None, false, false)
      ensures !hasCameraProvider && !hasImageCapture && !hasRecognitionHelper
    {
      uiState := CameraUiState(false, None, None, false, false);
      hasCameraProvider, hasImageCapture, hasRecognitionHelper := false, false, false;
    }

    /** First step of the initialization coroutine: loading, error cleared. */
    method StartInit()
      requires Valid()
      modifies this
      ensures Valid()
      ensures uiState == old(uiState).(isLoading := true, errorMessage := None)
      ensures hasCameraProvider == old(hasCameraProvider) && hasImageCapture == old(hasImageCapture)
      ensures hasRecognitionHelper == old(hasRecognitionHelper)
    {
      uiState := uiState.(isLoading := true, errorMessage := None);
    }

    /** The use cases are bound: no longer loading, camera initialized; the error,
        the recognized text and the processing flag are left as they are. */
    method InitSucceeded()
      requires Valid() && hasImageCapture
      modifies this
      ensures Valid()
      ensures uiState == old(uiState).(isLoading := false, isCameraInitialized := true)
      ensures hasCameraProvider == old(hasCameraProvider) && hasImageCapture == old(hasImageCapture)
      ensures hasRecognitionHelper == old(hasRecognitionHelper)
    {
      uiState := uiState.(isLoading := false, isCameraInitialized := true);
    }

    /** Any exception in the coroutine: no longer loading, error reported;
        `isCameraInitialized` is not reset. */
    method InitFailed(message: Option<string>)
      requires Valid()
      modifies this
      ensures Valid()
      ensures uiState == old(uiState).(isLoading := false, errorMessage := Some(InitFailedPrefix + Rendered(message)))
      ensures hasCameraProvider == old(hasCameraProvider) && hasImageCapture == old(hasImageCapture)
      ensures hasRecognitionHelper == old(hasRecognitionHelper)
    {
      uiState := uiState.(isLoading := false, errorMessage := Some(InitFailedPrefix + Rendered(message)));
    }

    /** `initializeCamera`. The coroutine has no suspension point, so on the main
        dispatcher it runs to its end before the call returns. */
    method InitializeCamera(outcome: InitOutcome)
      requires Valid()
      modifies this
      ensures Valid()
      ensures hasRecognitionHelper
      ensures hasCameraProvider == (old(hasCameraProvider) || !outcome.ProviderUnavailable?)
      ensures hasImageCapture == (old(hasImageCapture) || outcome.BindingFailed? || outcome.Bound?)
      ensures !uiState.isLoading
      ensures uiState.recognizedText == old(uiState.recognizedText)
      ensures uiState.isProcessing == old(uiState.isProcessing)
      ensures outcome.Bound? ==> uiState.isCameraInitialized && uiState.errorMessage == None
      ensures !outcome.Bound? ==>
                && uiState.isCameraInitialized == old(uiState.isCameraInitialized)
                && uiState.errorMessage == Some(InitFailedPrefix + Rendered(outcome.message))
    {
      hasRecognitionHelper := true;
      StartInit();
      match outcome
      case ProviderUnavailable(message) =>
        InitFailed(message);
      case UseCasesFailed(message) =>
        hasCameraProvider := true;
        InitFailed(message);
      case BindingFailed(message) =>
        hasCameraProvider, hasImageCapture := true, true;
        InitFailed(message);
      case Bound =>
        hasCameraProvider, hasImageCapture := true, true;
        InitSucceeded();
    }

    /** `captureAndProcessImage`, up to handing the picture request to CameraX.
        Without an image capture nothing happens; nothing else is checked here. */
    method CaptureAndProcessImage() returns (started: bool)
      requires Valid()
      modifies this
      ensures Valid()
      ensures started == hasImageCapture
      ensures started ==> uiState == old(uiState).(isProcessing := true, errorMessage := None)
      ensures !started ==> uiState == old(uiState)
      ensures hasCameraProvider == old(hasCameraProvider) && hasImageCapture == old(hasImageCapture)
      ensures hasRecognitionHelper == old(hasRecognitionHelper)
    {
      if !hasImageCapture {
        return false;
      }
      uiState := uiState.(isProcessing := true, errorMessage := None);
      started := true;
    }

    /** The picture could not be saved. */
    method OnCaptureError(message: Option<string>)
      requires Valid()
      modifies this
      ensures Valid()
      ensures uiState == old(uiState).(isProcessing := false, errorMessage := Some(CaptureFailedPrefix + Rendered(message)))
      ensures hasCameraProvider == old(hasCameraProvider) && hasImageCapture == old(hasImageCapture)
      ensures hasRecognitionHelper == old(hasRecognitionHelper)
    {
      uiState := uiState.(isProcessing := false, errorMessage := Some(CaptureFailedPrefix + Rendered(message)));
    }

    /** The helper delivered a string: it becomes the recognized text even when it is
        blank, and a blank string is reported as an error as well. */
    method OnRecognitionResult(text: string)
      requires Valid()
      modifies this
      ensures Valid()
      ensures uiState.recognizedText == Some(text) && !uiState.isProcessing
      ensures uiState.errorMessage == (if IsBlank(text) then Some(NoTextDetected) else None)
      ensures uiState.isLoading == old(uiState.isLoading)
      ensures uiState.isCameraInitialized == old(uiState.isCameraInitialized)
      ensures hasCameraProvider == old(hasCameraProvider) && hasImageCapture == old(hasImageCapture)
      ensures hasRecognitionHelper == old(hasRecognitionHelper)
    {
      uiState := uiState.(
        isProcessing := false,
        recognizedText := Some(text),
        errorMessage := if IsBlank(text) then Some(NoTextDetected) else None);
    }

    /** The helper threw: error reported, the recognized text is left as it was. */
    method OnRecognitionException(message: Option<string>)
      requires Valid()
      modifies this
      ensures Valid()
      ensures uiState == old(uiState).(isProcessing := false, errorMessage := Some(OcrFailedPrefix + Rendered(message)))
      ensures hasCameraProvider == old(hasCameraProvider) && hasImageCapture == old(hasImageCapture)
      ensures hasRecognitionHelper == old(hasRecognitionHelper)
    {
      uiState := uiState.(isProcessing := false, errorMessage := Some(OcrFailedPrefix + Rendered(message)));
    }

    /** `onImageSaved` followed by `processImageForOCR`: the saved picture goes through the
        recognition helper and its one result (or escaping exception) reaches the state.
        Pictures are only saved through an image capture, which implies the helper exists. */
    method ProcessImageForOcr(primary: Recognition.PrimaryOutcome, fallback: Recognition.FallbackOutcome)
      requires Valid() && hasImageCapture
      modifies this
      ensures Valid()
      ensures !uiState.isProcessing
      ensures uiState.isLoading == old(uiState.isLoading)
      ensures uiState.isCameraInitialized == old(uiState.isCameraInitialized)
      ensures hasCameraProvider == old(hasCameraProvider) && hasImageCapture == old(hasImageCapture)
      ensures hasRecognitionHelper == old(hasRecognitionHelper)
      // the one string the helper delivers becomes the recognized text, even when blank,
      // and only a blank string is reported as an error
      ensures var d := Recognition.RecognizeTextFromUri(primary, fallback).delivery;
              d.Result? ==> uiState == old(uiState).(
                isProcessing := false,
                recognizedText := Some(d.text),
                errorMessage := if IsBlank(d.text) then Some(NoTextDetected) else None)
      // an exception thrown out of the helper keeps the previous text and reports an error
      ensures var d := Recognition.RecognizeTextFromUri(primary, fallback).delivery;
              d.Escaped? ==> uiState == old(uiState).(
                isProcessing := false,
                errorMessage := Some(OcrFailedPrefix + Rendered(d.message)))
      // so a non-IO exception from loading the image is an error and keeps the old text,
      ensures primary.LoadOtherException? ==>
                && uiState.recognizedText == old(uiState.recognizedText)
                && uiState.errorMessage == Some(OcrFailedPrefix + Rendered(primary.message))
      // text recognized on either path becomes the recognized text
      ensures primary.Loaded? && primary.process.Recognized?
              ==> uiState.recognizedText == Some(primary.process.text)
      ensures (primary.LoadIOException? || (primary.Loaded? && primary.process.RecognizerFailed?))
              && fallback.Decoded? && fallback.process.Recognized?
              ==> uiState.recognizedText == Some(fallback.process.text)
      // and a recognizer failure shows up as recognized text, not as an error
      ensures Recognition.NothingRecognized(primary, fallback) ==>
                && uiState.errorMessage == None
                && uiState.recognizedText.Some?
                && Recognition.IsFailureReport(uiState.recognizedText.value)
    {
      var run := Recognition.RecognizeTextFromUri(primary, fallback);
      match run.delivery
      case Result(text) =>
        assert Recognition.NothingRecognized(primary, fallback) ==> !IsBlank(text) by {
          if Recognition.NothingRecognized(primary, fallback) {
            Recognition.FailureReportIsNotBlank(text);
          }
        }
        OnRecognitionResult(text);
      case Escaped(message) =>
        OnRecognitionException(message);
    }

    /** `clearResults`: only the recognized text and the error are cleared. Clearing a
        state with neither leaves it unchanged, so a second clear changes nothing. */
    method ClearResults()
      requires Valid()
      modifies this
      ensures Valid()
      ensures uiState == old(uiState).(recognizedText := None, errorMessage := None)
      ensures old(uiState.recognizedText) == None && old(uiState.errorMessage) == None ==> uiState == old(uiState)
      ensures hasCameraProvider == old(hasCameraProvider) && hasImageCapture == old(hasImageCapture)
      ensures hasRecognitionHelper == old(hasRecognitionHelper)
    {
      uiState := uiState.(recognizedText := None, errorMessage := None);
    }

    /** `retryCamera`: clear the results, then initialize again. */
    method RetryCamera(outcome: InitOutcome)
      requires Valid()
      modifies this
      ensures Valid()
      ensures uiState.recognizedText == None && !uiState.isLoading
      ensures uiState.isProcessing == old(uiState.isProcessing)
      ensures outcome.Bound? ==> uiState.isCameraInitialized && uiState.errorMessage == None
      ensures !outcome.Bound? ==>
                && uiState.isCameraInitialized == old(uiState.isCameraInitialized)
                && uiState.errorMessage == Some(InitFailedPrefix + Rendered(outcome.message))
      ensures hasRecognitionHelper
      ensures hasCameraProvider == (old(hasCameraProvider) || !outcome.ProviderUnavailable?)
      ensures hasImageCapture == (old(hasImageCapture) || outcome.BindingFailed? || outcome.Bound?)
    {
      ClearResults();
      InitializeCamera(outcome);
    }
  }
}
