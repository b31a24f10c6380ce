/** The three kinds of telemetry a pipeline or a capture is about. */
module Signals {
  datatype Signal = Logs | Traces | Metrics
}
