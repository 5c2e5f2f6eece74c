/** The voting record that the server owns and every client mirrors. */
module Shared {

  datatype Option<+T> = None | Some(value: T)

  /** The five shared fields, as the server stores them and as a snapshot carries them.
      `selectedOption` is kept as an arbitrary string because the server stores the
      `select` payload without checking it against "A" and "B". */
  datatype SharedState = SharedState(
    locked: bool,
    selectedOption: Option<string>,
    doneBy: seq<string>,
    lastAction: Option<string>,
    lastBy: Option<string>)

  /** The record the server starts with. */
  const Initial := SharedState(false, None, [], None, None)

  predicate NoDuplicates(s: seq<string>)
  {
    forall i, j :: 0 <= i < j < |s| ==> s[i] != s[j]
  }
}
