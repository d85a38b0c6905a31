/** Small result types shared by every module of the model. */
module Wrappers {

  datatype Option<+T> = None | Some(value: T)

  /** The Python exceptions the core can raise. The web layer catches any of
      them around the scan of one image and discards that image. */
  datatype Fault = IndexError | KeyError | TypeError | ValueError

  /** What running a piece of the core yields: a value, a raised exception,
      or no answer at all (a loop of the source that never exits). */
  datatype Outcome<+T> = Done(value: T) | Raised(fault: Fault) | Diverges
}
