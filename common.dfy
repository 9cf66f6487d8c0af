/**
 * Helpers shared by both source files: an optional value, and Python's
 * `x in some_list` test on a list literal, which scans the list from the
 * front and compares each element with `==`.
 */
module Common {

  datatype Option<T> = None | Some(value: T)

  /** Python's `text in labels` for a list of strings: a front-to-back scan
      that stops at the first element equal to `text` (exact, case-sensitive
      string equality). It agrees with membership in the sequence, which
      the rest of the model states its contracts in. */
  function ListContains(labels: seq<string>, text: string): (found: bool)
    ensures found <==> text in labels
  {
    if labels == [] then false
    else if labels[0] == text then true
    else ListContains(labels[1..], text)
  }
}
