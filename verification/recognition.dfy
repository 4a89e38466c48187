/**
 * The decision logic of `TextRecognitionHelper`: which single string reaches
 * `onResult`, given what the vendor calls report. ML Kit's recognizer, the
 * content resolver and `BitmapFactory` are replaced by abstract outcomes.
 */
module Recognition {
  import opened Wrappers
  import opened Strings

  const DecodeFailedReport := "Failed to decode image from URI"
  const ProcessingErrorPrefix := "Error processing image: "
  const RecognizingErrorPrefix := "Error recognizing text: "

  /** What a `recognizer.process(image)` task completes with. */
  datatype RecognizerOutcome =
    | Recognized(text: string)
    | RecognizerFailed(message: Option<string>)

  /** The primary path: `InputImage.fromFilePath(context, uri)`, then the recognizer. */
  datatype PrimaryOutcome =
    | Loaded(process: RecognizerOutcome)        // the image was built and handed to the recognizer
    | LoadIOException(message: Option<string>)  // `fromFilePath` threw an IOException
    | LoadOtherException(message: Option<string>) // building the image or starting the recognizer threw another Exception

  /** The fallback path: open the stream, decode a bitmap, recognize it. */
  datatype FallbackOutcome =
    | Decoded(process: RecognizerOutcome)       // a bitmap was decoded and handed to the recognizer
    | NotDecodable                              // `decodeStream` returned null
    | DecodeThrew(message: Option<string>)      // opening, decoding, closing or handing over the bitmap threw an Exception

  /** The stages of the helper that one call enters. */
  datatype Stage = DirectUri | UriFallback | BitmapRecognition

  /** How a call ends: one string delivered to `onResult`, or an exception thrown to the caller. */
  datatype Delivery = Result(text: string) | Escaped(message: Option<string>)

  datatype Run = Run(stages: seq<Stage>, delivery: Delivery)

  /** A string that the helper writes itself to report a failure. */
  predicate IsFailureReport(s: string) {
    s == DecodeFailedReport
    || (|s| >= |ProcessingErrorPrefix| && s[..|ProcessingErrorPrefix|] == ProcessingErrorPrefix)
    || (|s| >= |RecognizingErrorPrefix| && s[..|RecognizingErrorPrefix|] == RecognizingErrorPrefix)
  }

  /** No path recognized any text, and no exception escaped. */
  predicate NothingRecognized(primary: PrimaryOutcome, fallback: FallbackOutcome) {
    && !primary.LoadOtherException?
    && !(primary.Loaded? && primary.process.Recognized?)
    && !(fallback.Decoded? && fallback.process.Recognized?)
  }

  /** `recognizeTextFromBitmap`: the recognized text, or an error report. */
  function RecognizeTextFromBitmap(process: RecognizerOutcome): (r: string)
    ensures process.Recognized? ==> r == process.text
    ensures process.RecognizerFailed? ==> IsFailureReport(r)
    ensures process.RecognizerFailed? ==> r == RecognizingErrorPrefix + Rendered(process.message)
  {
    match process
    case Recognized(text) => text
    case RecognizerFailed(message) => RecognizingErrorPrefix + Rendered(message)
  }

  /** `recognizeTextFromUriFallback`: every outcome is delivered as a string. */
  function RecognizeTextFromUriFallback(fallback: FallbackOutcome): (run: Run)
    ensures run.delivery.Result?
    ensures run.stages == if fallback.Decoded? then [UriFallback, BitmapRecognition] else [UriFallback]
    ensures fallback.Decoded? && fallback.process.Recognized? ==> run.delivery.text == fallback.process.text
    ensures !(fallback.Decoded? && fallback.process.Recognized?) ==> IsFailureReport(run.delivery.text)
    // which report: a recognizer failure, an undecodable image, or an exception, with its message
    ensures fallback.Decoded? && fallback.process.RecognizerFailed?
            ==> run.delivery.text == RecognizingErrorPrefix + Rendered(fallback.process.message)
    ensures fallback.NotDecodable? ==> run.delivery.text == DecodeFailedReport
    ensures fallback.DecodeThrew? ==> run.delivery.text == ProcessingErrorPrefix + Rendered(fallback.message)
  {
    match fallback
    case Decoded(process) => Run([UriFallback, BitmapRecognition], Result(RecognizeTextFromBitmap(process)))
    case NotDecodable => Run([UriFallback], Result(DecodeFailedReport))
    case DecodeThrew(message) => Run([UriFallback], Result(ProcessingErrorPrefix + Rendered(message)))
  }

  /** `recognizeTextFromUri`: the primary path, falling back to the bitmap path at most once. */
  function RecognizeTextFromUri(primary: PrimaryOutcome, fallback: FallbackOutcome): (run: Run)
    // the stages are entered in pipeline order, each at most once
    ensures run.stages <= [DirectUri, UriFallback, BitmapRecognition]
    ensures |run.stages| >= 1
    // the fallback runs exactly when the primary recognizer failed or building the image hit an IOException
    ensures UriFallback in run.stages
            <==> primary.LoadIOException? || (primary.Loaded? && primary.process.RecognizerFailed?)
    // a successful primary recognition is delivered as it is
    ensures primary.Loaded? && primary.process.Recognized?
            ==> run == Run([DirectUri], Result(primary.process.text))
    // only a non-IO exception from building the image leaves the helper
    ensures run.delivery.Escaped? <==> primary.LoadOtherException?
    ensures primary.LoadOtherException? ==> run.delivery.message == primary.message
    // text found by the bitmap path is delivered as it is
    ensures UriFallback in run.stages && fallback.Decoded? && fallback.process.Recognized?
            ==> run.delivery == Result(fallback.process.text)
    // when nothing was recognized, the failure is reported as a result string
    ensures NothingRecognized(primary, fallback)
            ==> run.delivery.Result? && IsFailureReport(run.delivery.text)
    // and the report names the fallback step that failed, with the exception message
    ensures UriFallback in run.stages && fallback.Decoded? && fallback.process.RecognizerFailed?
            ==> run.delivery == Result(RecognizingErrorPrefix + Rendered(fallback.process.message))
    ensures UriFallback in run.stages && fallback.NotDecodable?
            ==> run.delivery == Result(DecodeFailedReport)
    ensures UriFallback in run.stages && fallback.DecodeThrew?
            ==> run.delivery == Result(ProcessingErrorPrefix + Rendered(fallback.message))
  {
    match primary
    case Loaded(Recognized(text)) => Run([DirectUri], Result(text))
    case Loaded(RecognizerFailed(_)) =>
      var f := RecognizeTextFromUriFallback(fallback);
      Run([DirectUri] + f.stages, f.delivery)
    case LoadIOException(_) =>
      var f := RecognizeTextFromUriFallback(fallback);
      Run([DirectUri] + f.stages, f.delivery)
    case LoadOtherException(message) => Run([DirectUri], Escaped(message))
  }

  /** The three reports cannot be confused with each other, so a report names the step that
      failed, and the exception message is exactly what follows its prefix. */
  lemma FailureReportsAreDistinct(m1: string, m2: string)
    ensures RecognizingErrorPrefix + m1 != ProcessingErrorPrefix + m2
    ensures RecognizingErrorPrefix + m1 != DecodeFailedReport
    ensures ProcessingErrorPrefix + m1 != DecodeFailedReport
    ensures RecognizingErrorPrefix + m1 == RecognizingErrorPrefix + m2 ==> m1 == m2
    ensures ProcessingErrorPrefix + m1 == ProcessingErrorPrefix + m2 ==> m1 == m2
  {
    assert (RecognizingErrorPrefix + m1)[6] == RecognizingErrorPrefix[6] == 'r';
    assert (ProcessingErrorPrefix + m2)[6] == ProcessingErrorPrefix[6] == 'p';
    assert (ProcessingErrorPrefix + m1)[0] == (RecognizingErrorPrefix + m1)[0] == 'E';
    assert DecodeFailedReport[0] == 'F';
    if RecognizingErrorPrefix + m1 == RecognizingErrorPrefix + m2 {
      assert m1 == (RecognizingErrorPrefix + m1)[|RecognizingErrorPrefix|..];
    }
    if ProcessingErrorPrefix + m1 == ProcessingErrorPrefix + m2 {
      assert m1 == (ProcessingErrorPrefix + m1)[|ProcessingErrorPrefix|..];
    }
  }

  /** Every report the helper writes itself starts with a visible character, so it is never blank. */
  lemma FailureReportIsNotBlank(s: string)
    requires IsFailureReport(s)
    ensures !IsBlank(s)
  {
    assert !IsWhitespace(s[0]) by {
      if s != DecodeFailedReport {
        if |s| >= |ProcessingErrorPrefix| && s[..|ProcessingErrorPrefix|] == ProcessingErrorPrefix {
          assert s[0] == s[..|ProcessingErrorPrefix|][0] == 'E';
        } else {
          assert s[0] == s[..|RecognizingErrorPrefix|][0] == 'E';
        }
      }
    }
  }
}
