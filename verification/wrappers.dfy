/** The optional value used for the screen's nullable state cells. */
module Wrappers {

  /** `None` stands for the JavaScript `null` (and for an absent JSON member). */
  datatype Option<+T> = None | Some(value: T)
}
