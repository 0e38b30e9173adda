/**
 * The Index page: three state cells (loading flag, last result, last
 * weather) and `handlePredict`, which formats a submission, posts it and
 * records success or reports one of three kinds of failure.
 */
module Page {
  import opened Wrappers
  import opened Api
  import opened Form

  /**
   * How the awaited POST settles: a 2xx response with its body, an error
   * carrying a response (whose JSON body may have a string `detail`), an error
   * whose request got no response, or an error raised before any request.
   */
  datatype HttpOutcome =
    | Ok(body: PredictionResult)
    | ErrorResponse(detail: Option<string>)
    | NoResponse
    | SetupError

  /** A `toast.success` or `toast.error` notification. */
  datatype Toast = SuccessToast(message: string) | ErrorToast(message: string)

  const SuccessMessage := "Traffic prediction generated successfully!"
  const ResponseFallbackMessage := "Failed to generate prediction."
  const UnreachableMessage := "Unable to reach the server. Please ensure the backend is running."
  const GenericMessage := "An error occurred. Please try again."

  /**
   * The message shown for a failed request. A response takes precedence;
   * its `detail` is shown when present and non-empty.
   */
  function FailureMessage(outcome: HttpOutcome): (message: string)
    requires !outcome.Ok?
    ensures outcome.ErrorResponse? && outcome.detail.Some? && outcome.detail.value != "" ==>
      message == outcome.detail.value
    ensures outcome.ErrorResponse? && (outcome.detail.None? || outcome.detail.value == "") ==>
      message == ResponseFallbackMessage
    ensures outcome.NoResponse? ==> message == UnreachableMessage
    ensures outcome.SetupError? ==> message == GenericMessage
    ensures message != ""
  {
    match outcome
    case ErrorResponse(detail) =>
      if detail.Some? && detail.value != "" then detail.value else ResponseFallbackMessage
    case NoResponse => UnreachableMessage
    case SetupError => GenericMessage
  }

  /** The body sent to the backend: the form data with `DateTime` replaced by its ISO form. */
  function Payload(data: PredictionData, iso: string): (payload: PredictionData)
    ensures payload.dateTime == iso
    ensures payload.junction == data.junction && payload.weatherCondition == data.weatherCondition
    ensures payload.speedLimit == data.speedLimit
  {
    data.(dateTime := iso)
  }

  /** The page component and its state cells. */
  class IndexPage {
    var isLoading: bool
    var result: Option<PredictionResult>
    var weatherCondition: string

    constructor ()
      ensures !isLoading && result == None && weatherCondition == ""
    {
      isLoading := false;
      result := None;
      weatherCondition := "";
    }

    /**
     * `handlePredict` up to the awaited POST. `toIso` is
     * `new Date(s).toISOString()`, `None` when it throws on an invalid date;
     * that error carries neither response nor request.
     */
    method BeginPredict(data: PredictionData, toIso: string -> Option<string>)
      returns (request: Option<PredictionData>, toast: Option<Toast>)
      modifies this
      ensures toIso(data.dateTime).Some? ==>
        request == Some(Payload(data, toIso(data.dateTime).value)) && isLoading && toast == None
      ensures toIso(data.dateTime).None? ==>
        request == None && !isLoading && toast == Some(ErrorToast(FailureMessage(SetupError)))
      ensures result == old(result) && weatherCondition == old(weatherCondition)
    {
      isLoading := true;
      var iso := toIso(data.dateTime);
      if iso.None? {
        toast := Some(ErrorToast(FailureMessage(SetupError)));
        request := None;
        isLoading := false;
        return;
      }
      request := Some(Payload(data, iso.value));
      toast := None;
    }

    /** `handlePredict` after the POST settles: record or report, then clear the loading flag. */
    method CompletePredict(data: PredictionData, outcome: HttpOutcome) returns (toast: Toast)
      requires isLoading
      modifies this
      ensures !isLoading
      ensures outcome.Ok? ==>
        result == Some(outcome.body) && weatherCondition == data.weatherCondition &&
        toast == SuccessToast(SuccessMessage)
      ensures !outcome.Ok? ==>
        result == old(result) && weatherCondition == old(weatherCondition) &&
        toast == ErrorToast(FailureMessage(outcome))
    {
      if outcome.Ok? {
        weatherCondition := data.weatherCondition;
        result := Some(outcome.body);
        toast := SuccessToast(SuccessMessage);
      } else {
        toast := ErrorToast(FailureMessage(outcome));
      }
      isLoading := false;
    }

    /**
     * The whole of `handlePredict`; `post` stands for the backend's answer to
     * a payload. The loading flag is set while the request is outstanding
     * and always cleared at the end.
     */
    method HandlePredict(data: PredictionData, toIso: string -> Option<string>, post: PredictionData -> HttpOutcome)
      returns (sent: Option<PredictionData>, toast: Toast)
      modifies this
      ensures !isLoading
      ensures sent.Some? <==> toIso(data.dateTime).Some?
      ensures sent.Some? ==> sent.value == Payload(data, toIso(data.dateTime).value)
      ensures sent.Some? && post(sent.value).Ok? ==>
        result == Some(post(sent.value).body) && weatherCondition == data.weatherCondition &&
        toast == SuccessToast(SuccessMessage)
      ensures sent.Some? && !post(sent.value).Ok? ==>
        result == old(result) && weatherCondition == old(weatherCondition) &&
        toast == ErrorToast(FailureMessage(post(sent.value)))
      ensures sent.None? ==>
        result == old(result) && weatherCondition == old(weatherCondition) &&
        toast == ErrorToast(GenericMessage)
    {
      var started;
      sent, started := BeginPredict(data, toIso);
      if sent.None? {
        toast := started.value;
        return;
      }
      assert isLoading;
      toast := CompletePredict(data, post(sent.value));
    }
  }
}
