/** A single HTTP check: every way the exchange can end, mapped to a result. */
module Checker {
  import opened Wrappers
  import opened Targets
  import opened CheckResults

  /** An error from http.Client.Do, seen through errors.Is and Error(). */
  datatype ClientError = ClientError(isCanceled: bool, isDeadlineExceeded: bool, message: string)

  /** What the network did with the request. */
  datatype Exchange =
    | Unbuildable(reason: string)
    | Failed(error: ClientError)
    | Responded(statusCode: int)

  /** Client errors always carry a text. */
  predicate Plausible(x: Exchange) { x.Failed? ==> x.error.message != "" }

  function Classify(e: ClientError): Outcome {
    if e.isCanceled then OutcomeCanceled
    else if e.isDeadlineExceeded then OutcomeTimeout
    else OutcomeConnectionError
  }

  function Digits(n: nat): string {
    if n < 10 then [('0' as int + n) as char] else Digits(n / 10) + [('0' as int + n % 10) as char]
  }

  /** The %d verb. */
  function Decimal(n: int): string {
    if n < 0 then "-" + Digits(-n) else Digits(n)
  }

  /** Reads a decimal numeral, most significant digit first. */
  function Read(s: string): int {
    if s == [] then 0 else 10 * Read(s[..|s| - 1]) + (s[|s| - 1] as int - '0' as int)
  }

  predicate IsNumeral(s: string) { s != [] && forall i :: 0 <= i < |s| ==> '0' <= s[i] <= '9' }

  /** Digits writes n as a numeral without leading zeros, the only one that reads back as n. */
  lemma {:induction false} DigitsReadBack(n: nat)
    ensures IsNumeral(Digits(n)) && Read(Digits(n)) == n && (n > 0 ==> Digits(n)[0] != '0')
  {
    if n >= 10 {
      DigitsReadBack(n / 10);
      assert Digits(n)[..|Digits(n)| - 1] == Digits(n / 10);
    } else {
      assert Digits(n)[..0] == [];
    }
  }

  /** What %d writes for n is n. */
  lemma DecimalReadsBack(n: int)
    ensures if n < 0 then Decimal(n)[0] == '-' && IsNumeral(Decimal(n)[1..]) && Read(Decimal(n)[1..]) == -n
            else IsNumeral(Decimal(n)) && Read(Decimal(n)) == n
  {
    DigitsReadBack(if n < 0 then -n else n);
    assert n < 0 ==> Decimal(n)[1..] == Digits(-n);
  }

  /** r reports exchange x with target t: stated from the reader's side, not as the code computes it. */
  ghost predicate Reports(t: Target, x: Exchange, r: CheckResult) {
    && r.Sound()
    && r.targetID == t.id
    && (r.Success() <==> x.Responded? && StandardStatus(x.statusCode) && x.statusCode == t.expectedStatusCode)
    && (r.outcome == OutcomeUnexpectedStatus <==>
          x.Responded? && StandardStatus(x.statusCode) && x.statusCode != t.expectedStatusCode)
    && (r.outcome.Responded() ==> x.Responded? && r.statusCode == x.statusCode && r.errorMessage == "")
    && (r.outcome == OutcomeCanceled <==> x.Failed? && x.error.isCanceled)
    && (r.outcome == OutcomeTimeout <==> x.Failed? && !x.error.isCanceled && x.error.isDeadlineExceeded)
    && (r.outcome == OutcomeConnectionError <==>
          !(x.Failed? && (x.error.isCanceled || x.error.isDeadlineExceeded))
          && !(x.Responded? && StandardStatus(x.statusCode)))
    && (x.Failed? ==> r.errorMessage == x.error.message)
    && (x.Unbuildable? ==> r.errorMessage == "request could not be constructed: " + x.reason)
    && (x.Responded? && !StandardStatus(x.statusCode) ==>
          r.errorMessage == "received non-standard status code " + Decimal(x.statusCode))
  }

  /** r is a result some exchange with t can produce. */
  ghost predicate Genuine(t: Target, r: CheckResult) {
    exists x: Exchange :: Plausible(x) && Reports(t, x, r)
  }

  /** Err stands for the panic in finish. */
  method Finish(targetID: string, freshId: string, timestamp: Time, latency: Duration, outcome: Outcome,
                statusCode: int, errorMessage: string)
    returns (r: Result<CheckResult, ValidationError>)
    ensures r.Ok? <==> CheckResult(freshId, targetID, timestamp, outcome, statusCode, latency, errorMessage).Sound()
    ensures r.Ok? ==> r.value == CheckResult(freshId, targetID, timestamp, outcome, statusCode, latency, errorMessage)
    ensures r.Err? ==>
              CheckResult(freshId, targetID, timestamp, outcome, statusCode, latency, errorMessage).Validate()
              == Some(r.error)
  {
    r := New(freshId, NewParams(targetID, timestamp, outcome, statusCode, latency, errorMessage));
  }

  /** start, latency and freshId are what the clock and id.New() supply. The check never panics unless the
      target has no id. */
  method Check(t: Target, x: Exchange, freshId: string, start: Time, latency: Duration)
    returns (r: Result<CheckResult, ValidationError>)
    requires freshId != "" && start != ZERO_TIME && latency >= 0 && Plausible(x)
    ensures r.Ok? <==> t.id != ""
    ensures r.Err? ==> r.error == ErrEmptyTargetID
    ensures r.Ok? ==> Reports(t, x, r.value) && Genuine(t, r.value)
    ensures r.Ok? ==> r.value.id == freshId && r.value.timestamp == start && r.value.latency == latency
  {
    match x {
      case Unbuildable(reason) =>
        r := Finish(t.id, freshId, start, latency, OutcomeConnectionError, 0,
                    "request could not be constructed: " + reason);
      case Failed(error) =>
        var outcome := Classify(error);
        r := Finish(t.id, freshId, start, latency, outcome, 0, error.message);
      case Responded(statusCode) =>
        if statusCode < 100 || statusCode > 599 {
          r := Finish(t.id, freshId, start, latency, OutcomeConnectionError, 0,
                      "received non-standard status code " + Decimal(statusCode));
        } else {
          var outcome := OutcomeUnexpectedStatus;
          if statusCode == t.expectedStatusCode {
            outcome := OutcomeSuccess;
          }
          r := Finish(t.id, freshId, start, latency, outcome, statusCode, "");
        }
    }
    assert r.Ok? ==> Plausible(x) && Reports(t, x, r.value);
  }

  /** Every genuine result is valid, belongs to its target, and is a success only on the expected status. */
  lemma GenuineIsValid(t: Target, r: CheckResult)
    requires Genuine(t, r)
    ensures r.Validate() == None && r.targetID == t.id
    ensures r.Success() ==> r.statusCode == t.expectedStatusCode && StandardStatus(r.statusCode)
  {
    var x: Exchange :| Plausible(x) && Reports(t, x, r);
  }
}
