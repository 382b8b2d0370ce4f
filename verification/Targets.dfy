/** The monitored endpoint: a plain comparable record. */
module Targets {

  /** Durations are whole nanoseconds, as in Go's time.Duration. */
  type Duration = int

  datatype Target = Target(
    id: string,
    name: string,
    url: string,
    httpMethod: string,
    interval: Duration,
    timeout: Duration,
    expectedStatusCode: int,
    enabled: bool)
}
