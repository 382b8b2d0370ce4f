/** One monitoring attempt, and the rules that keep it free of contradictions. */
module CheckResults {
  import opened Wrappers
  import opened Targets

  /** Nanoseconds; ZERO_TIME stands for Go's zero time.Time. */
  type Time = int

  const ZERO_TIME: Time := 0

  /** Outcome is a string type in the source: OutcomeOther holds every string that is not a constant of it. */
  datatype Outcome =
    | OutcomeSuccess
    | OutcomeUnexpectedStatus
    | OutcomeTimeout
    | OutcomeConnectionError
    | OutcomeCanceled
    | OutcomeOther(text: string)
  {
    predicate Valid() { !OutcomeOther? }

    /** A response was received. */
    predicate Responded() { OutcomeSuccess? || OutcomeUnexpectedStatus? }
  }

  datatype ValidationError =
    | ErrEmptyID
    | ErrEmptyTargetID
    | ErrZeroTimestamp
    | ErrInvalidOutcome
    | ErrNegativeLatency
    | ErrStatusCodeRequired
    | ErrStatusCodeNotAllowed
    | ErrInvalidStatusCode
    | ErrErrorMessageRequired
    | ErrErrorMessagePresent

  predicate StandardStatus(code: int) { 100 <= code <= 599 }

  datatype CheckResult = CheckResult(
    id: string,
    targetID: string,
    timestamp: Time,
    outcome: Outcome,
    statusCode: int,
    latency: Duration,
    errorMessage: string)
  {
    predicate Success() { outcome == OutcomeSuccess }

    /** What a reader may rely on: identity, and a status code or an error message according to the outcome. */
    ghost predicate Sound() {
      && id != "" && targetID != "" && timestamp != ZERO_TIME && latency >= 0
      && (outcome.Responded() <==> StandardStatus(statusCode))
      && (!outcome.Responded() <==> statusCode == 0)
      && (!outcome.Responded() ==> errorMessage != "" && outcome.Valid())
      && (Success() ==> errorMessage == "")
    }

    /** Says whose check this is, and when it was. */
    ghost predicate Identified() { id != "" && targetID != "" && timestamp != ZERO_TIME }

    /** A known outcome and a possible latency. */
    ghost predicate Measured() { Identified() && !outcome.OutcomeOther? && latency >= 0 }

    /** The first violated rule. Each error has its own cause. */
    function Validate(): (e: Option<ValidationError>)
      ensures e.None? <==> Sound()
      ensures e == Some(ErrEmptyID) <==> id == ""
      ensures e == Some(ErrEmptyTargetID) <==> id != "" && targetID == ""
      ensures e == Some(ErrZeroTimestamp) <==> id != "" && targetID != "" && timestamp == ZERO_TIME
      ensures e == Some(ErrInvalidOutcome) <==> Identified() && outcome.OutcomeOther?
      ensures e == Some(ErrNegativeLatency) <==> Identified() && !outcome.OutcomeOther? && latency < 0
      ensures e == Some(ErrStatusCodeRequired) <==> Measured() && outcome.Responded() && statusCode == 0
      ensures e == Some(ErrInvalidStatusCode) <==>
                Measured() && outcome.Responded() && statusCode != 0 && !StandardStatus(statusCode)
      ensures e == Some(ErrErrorMessagePresent) <==>
                Measured() && Success() && StandardStatus(statusCode) && errorMessage != ""
      ensures e == Some(ErrStatusCodeNotAllowed) <==> Measured() && !outcome.Responded() && statusCode != 0
      ensures e == Some(ErrErrorMessageRequired) <==>
                Measured() && !outcome.Responded() && statusCode == 0 && errorMessage == ""
    {
      if id == "" then Some(ErrEmptyID)
      else if targetID == "" then Some(ErrEmptyTargetID)
      else if timestamp == ZERO_TIME then Some(ErrZeroTimestamp)
      else if !outcome.Valid() then Some(ErrInvalidOutcome)
      else if latency < 0 then Some(ErrNegativeLatency)
      else match outcome
        case OutcomeSuccess | OutcomeUnexpectedStatus =>
          if statusCode == 0 then Some(ErrStatusCodeRequired)
          else if statusCode < 100 || statusCode > 599 then Some(ErrInvalidStatusCode)
          else if outcome == OutcomeSuccess && errorMessage != "" then Some(ErrErrorMessagePresent)
          else None
        case _ =>
          if statusCode != 0 then Some(ErrStatusCodeNotAllowed)
          else if errorMessage == "" then Some(ErrErrorMessageRequired)
          else None
    }
  }

  /** The zero value Go returns beside an error. */
  const ZERO_RESULT := CheckResult("", "", ZERO_TIME, OutcomeOther(""), 0, 0, "")

  datatype NewParams = NewParams(
    targetID: string,
    timestamp: Time,
    outcome: Outcome,
    statusCode: int,
    latency: Duration,
    errorMessage: string)

  /** The record the parameters describe, whether or not it is sound. */
  function Described(freshId: string, p: NewParams): CheckResult {
    CheckResult(freshId, p.targetID, p.timestamp, p.outcome, p.statusCode, p.latency, p.errorMessage)
  }

  /** freshId is the value id.New() hands out. Refuses exactly the parameters that describe an unsound result, and
      carries every field over otherwise. */
  function New(freshId: string, p: NewParams): (r: Result<CheckResult, ValidationError>)
    ensures r.Ok? <==> Described(freshId, p).Sound()
    ensures r.Ok? ==> r.value == Described(freshId, p)
    ensures r.Err? ==> Described(freshId, p).Validate() == Some(r.error)
  {
    var c := Described(freshId, p);
    match c.Validate()
    case Some(e) => Err(e)
    case None => Ok(c)
  }
}
