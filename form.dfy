/**
 * PredictionForm: the four-field form state, its field-by-field update and
 * the ordered validation run on submit.
 */
module Form {

  /** A JavaScript number produced by `parseInt`: an integer or NaN. */
  datatype JsNumber = Int(value: int) | NaN

  /** The form state, also the value handed to `onPredict`. */
  datatype PredictionData = PredictionData(
    dateTime: string,
    junction: JsNumber,
    weatherCondition: string,
    speedLimit: JsNumber)

  /** The state the form starts in: nothing chosen yet. */
  const InitialData := PredictionData("", Int(-1), "", Int(0))

  /** The ids of the four inputs. */
  const DateTimeId := "datetime"
  const JunctionId := "junction"
  const WeatherId := "weather"
  const SpeedId := "speed"

  /**
   * The state after a change event from the element `id` carrying `value`;
   * `parsed` is `parseInt(value)`. Only the field the id names changes.
   */
  function Updated(data: PredictionData, id: string, value: string, parsed: JsNumber): (next: PredictionData)
    ensures id == JunctionId ==> next == data.(junction := parsed)
    ensures id == SpeedId ==> next == data.(speedLimit := parsed)
    ensures id == WeatherId ==> next == data.(weatherCondition := value)
    ensures id == DateTimeId ==> next == data.(dateTime := value)
    ensures id !in {DateTimeId, JunctionId, WeatherId, SpeedId} ==> next == data
  {
    if id == JunctionId then data.(junction := parsed)
    else if id == SpeedId then data.(speedLimit := parsed)
    else if id == WeatherId then data.(weatherCondition := value)
    else if id == DateTimeId then data.(dateTime := value)
    else data
  }

  /** The four checks, in the order they run. */
  datatype Field = DateTimeField | JunctionField | WeatherField | SpeedField

  const CheckOrder: seq<Field> := [DateTimeField, JunctionField, WeatherField, SpeedField]

  /** The notification each failed check shows. */
  function Message(field: Field): string
  {
    match field
    case DateTimeField => "Please select a date and time"
    case JunctionField => "Please select a junction type"
    case WeatherField => "Please select weather condition"
    case SpeedField => "Speed limit must be between 10 and 100 mph"
  }

  /** Each check has its own message. */
  lemma MessagesDistinct(a: Field, b: Field)
    ensures Message(a) == Message(b) <==> a == b
  {
  }

  /** `!formData.DateTime`: the empty string is falsy. */
  predicate DateTimeOk(data: PredictionData)
  {
    data.dateTime != ""
  }

  /** `formData.Junction < 0` rejects; NaN compares false and passes. */
  predicate JunctionOk(data: PredictionData)
  {
    !(data.junction.Int? && data.junction.value < 0)
  }

  predicate WeatherOk(data: PredictionData)
  {
    data.weatherCondition != ""
  }

  /** `!speed || isNaN(speed) || speed < 10 || speed > 100` rejects. */
  predicate SpeedOk(data: PredictionData)
  {
    match data.speedLimit
    case NaN => false
    case Int(speed) => !(speed == 0 || speed < 10 || speed > 100)
  }

  /** Whether the check for `field` passes. */
  predicate Passes(data: PredictionData, field: Field)
  {
    match field
    case DateTimeField => DateTimeOk(data)
    case JunctionField => JunctionOk(data)
    case WeatherField => WeatherOk(data)
    case SpeedField => SpeedOk(data)
  }

  /** The verdict of `handleSubmit`: accept, or the first failing check. */
  datatype Validation = Accepted | Rejected(field: Field)

  /** The early-return chain of `handleSubmit`. */
  function Validate(data: PredictionData): (v: Validation)
    ensures v == Accepted ==>
      && data.dateTime != ""
      && (data.junction.Int? ==> data.junction.value >= 0)
      && data.weatherCondition != ""
      && data.speedLimit.Int? && 10 <= data.speedLimit.value <= 100
    ensures v.Rejected? && v.field == SpeedField <==>
      DateTimeOk(data) && JunctionOk(data) && WeatherOk(data) &&
      !(data.speedLimit.Int? && 10 <= data.speedLimit.value <= 100)
  {
    if !DateTimeOk(data) then Rejected(DateTimeField)
    else if !JunctionOk(data) then Rejected(JunctionField)
    else if !WeatherOk(data) then Rejected(WeatherField)
    else if !SpeedOk(data) then Rejected(SpeedField)
    else Accepted
  }

  /**
   * The checks run in `CheckOrder` and stop at the first failure: the verdict
   * names the check at position `k` exactly when that check fails and every
   * earlier one passes, and accepts exactly when all four pass.
   */
  lemma ValidateReportsFirstFailure(data: PredictionData)
    ensures Validate(data) == Accepted <==> forall k :: 0 <= k < |CheckOrder| ==> Passes(data, CheckOrder[k])
    ensures forall k :: 0 <= k < |CheckOrder| ==>
      (Validate(data) == Rejected(CheckOrder[k]) <==>
        !Passes(data, CheckOrder[k]) && forall j :: 0 <= j < k ==> Passes(data, CheckOrder[j]))
  {
    assert CheckOrder[0] == DateTimeField && CheckOrder[1] == JunctionField;
    assert CheckOrder[2] == WeatherField && CheckOrder[3] == SpeedField;
  }

  /** A NaN speed and a speed of 0 both fail the speed check. */
  lemma UnusableSpeedRejected(data: PredictionData)
    requires DateTimeOk(data) && JunctionOk(data) && WeatherOk(data)
    requires data.speedLimit == NaN || data.speedLimit == Int(0)
    ensures Validate(data) == Rejected(SpeedField)
  {
  }

  /** The untouched form is rejected at its first check. */
  lemma InitialRejected()
    ensures Validate(InitialData) == Rejected(DateTimeField)
  {
  }

  /** One change event: the element's id and its new value. */
  datatype Edit = Edit(id: string, value: string)

  /** The state after a series of change events. */
  function ApplyEdits(data: PredictionData, edits: seq<Edit>, parseInt: string -> JsNumber): PredictionData
  {
    if edits == [] then data
    else
      var last := |edits| - 1;
      var e := edits[last];
      Updated(ApplyEdits(data, edits[..last], parseInt), e.id, e.value, parseInt(e.value))
  }

  predicate Edited(edits: seq<Edit>, id: string)
  {
    exists k :: 0 <= k < |edits| && edits[k].id == id
  }

  /** A field no event names keeps its initial value. */
  lemma {:induction false} UneditedFieldsKeepInitial(edits: seq<Edit>, parseInt: string -> JsNumber)
    ensures !Edited(edits, DateTimeId) ==> ApplyEdits(InitialData, edits, parseInt).dateTime == ""
    ensures !Edited(edits, JunctionId) ==> ApplyEdits(InitialData, edits, parseInt).junction == Int(-1)
    ensures !Edited(edits, WeatherId) ==> ApplyEdits(InitialData, edits, parseInt).weatherCondition == ""
    ensures !Edited(edits, SpeedId) ==> ApplyEdits(InitialData, edits, parseInt).speedLimit == Int(0)
  {
    if edits != [] {
      var last := |edits| - 1;
      UneditedFieldsKeepInitial(edits[..last], parseInt);
      forall id | !Edited(edits, id)
        ensures !Edited(edits[..last], id) && edits[last].id != id
      {
        assert forall k :: 0 <= k < last ==> edits[..last][k] == edits[k];
      }
    }
  }

  /** A submission is accepted only after the user has changed all four inputs. */
  lemma AcceptedNeedsEveryInput(edits: seq<Edit>, parseInt: string -> JsNumber)
    requires Validate(ApplyEdits(InitialData, edits, parseInt)) == Accepted
    ensures Edited(edits, DateTimeId) && Edited(edits, JunctionId)
    ensures Edited(edits, WeatherId) && Edited(edits, SpeedId)
  {
    UneditedFieldsKeepInitial(edits, parseInt);
  }

  /** What a submit does: show an error notification, or call `onPredict`. */
  datatype SubmitEffect = ShowError(message: string) | OnPredict(data: PredictionData)

  /** The form component and its state cell. */
  class PredictionForm {
    var formData: PredictionData

    constructor ()
      ensures formData == InitialData
    {
      formData := InitialData;
    }

    /** `handleChange`; `parseInt` is the runtime's integer parser. */
    method HandleChange(id: string, value: string, parseInt: string -> JsNumber)
      modifies this
      ensures formData == Updated(old(formData), id, value, parseInt(value))
    {
      if id == JunctionId {
        formData := formData.(junction := parseInt(value));
      } else if id == SpeedId {
        formData := formData.(speedLimit := parseInt(value));
      } else if id == WeatherId {
        formData := formData.(weatherCondition := value);
      } else if id == DateTimeId {
        formData := formData.(dateTime := value);
      }
    }

    /** `handleSubmit`: `onPredict` receives the state unchanged, and only when every check passes. */
    method HandleSubmit() returns (effect: SubmitEffect)
      ensures effect.OnPredict? <==> Validate(formData) == Accepted
      ensures effect.OnPredict? ==> effect.data == formData
      ensures effect.ShowError? ==> effect.message == Message(Validate(formData).field)
    {
      if !DateTimeOk(formData) {
        return ShowError(Message(DateTimeField));
      }
      if !JunctionOk(formData) {
        return ShowError(Message(JunctionField));
      }
      if !WeatherOk(formData) {
        return ShowError(Message(WeatherField));
      }
      var speed := formData.speedLimit;
      if speed.NaN? || speed.value == 0 || speed.value < 10 || speed.value > 100 {
        return ShowError(Message(SpeedField));
      }
      effect := OnPredict(formData);
    }
  }
}
