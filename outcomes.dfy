/** The two shapes the dashboard's values take at its boundaries. */
module Outcomes {

  /** A value that may be JavaScript's `null` or `undefined`. */
  datatype Option<+T> = None | Some(value: T)

  /** What one awaited backend call (`apiGet` / `apiPost`) delivers:
      the decoded JSON body, or a rejected promise. The error itself is only
      logged or shown in an alert, so it carries no payload here. */
  datatype Reply<+T> = Ok(value: T) | Failed
}
