/** What a location source returns or throws. */
module LocationProvider {
  import opened Wrappers
  import opened LocationSample

  /** The exceptions that reach the plugin, with their (nullable) messages. */
  datatype Thrown =
    | SecurityException(message: Option<string>)
    | IllegalStateException(message: Option<string>)
    | OtherThrowable(message: Option<string>)

  /** The outcome of `getLastKnownOrCurrent`: a sample, or the exception it threw. */
  type Acquisition = Result<LocationSample, Thrown>
}
