/** Shared vocabulary: optional values and the three ways a durable write can end. */
module Prelude {

  datatype Option<+T> = None | Some(value: T)

  /** The end of a durable write.
      NotApplied: the file kept its old contents and the caller got an error.
      Unconfirmed: the file has its new contents but the caller got an error (a post-commit error).
      Confirmed: the file has its new contents and the caller got no error. */
  datatype Write = NotApplied | Unconfirmed | Confirmed {
    predicate Applied() { !NotApplied? }
  }

  /** Only spaces, tabs and line ends: what a trimmed string drops. */
  predicate Blank(s: string) {
    forall i | 0 <= i < |s| :: s[i] in {' ', '\t', '\n', '\r'}
  }
}
