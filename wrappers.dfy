/** The optional value used for every telemetry field an instrument may fail to report,
    and for every average that has nothing to average. */
module Wrappers {
  datatype Option<+T> = None | Some(value: T)
}
