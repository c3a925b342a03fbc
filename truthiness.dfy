/** JavaScript's `if (x)` on the optional arguments the data-access layer
    receives: `None` is an argument left out (`undefined` or `null`). */
module Truthiness {
  import opened Wrappers

  /** A string is supplied when present and not empty. */
  predicate GivenText(o: Option<string>) {
    o.Some? && o.value != ""
  }

  /** A number is supplied when present and not zero. */
  predicate GivenNumber(o: Option<int>) {
    o.Some? && o.value != 0
  }
}
