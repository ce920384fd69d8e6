/** The event history of one subject: numbered entries, each recording the state it moved to. */
module Journals {

  datatype Entry<S> = Entry(sequence: nat, state: S, recordedAt: int)

  /** Appending takes one past the last sequence number. */
  function Extend<S>(past: seq<Entry<S>>, state: S, at: int): (history: seq<Entry<S>>)
    ensures |history| == |past| + 1 && history[..|past|] == past
    ensures history[|past|].state == state && history[|past|].recordedAt == at
  {
    past + [Entry(if |past| == 0 then 1 else past[|past| - 1].sequence + 1, state, at)]
  }

  /** Numbered from 1 without gaps and ending in `state`. */
  predicate EndsIn<S(==)>(history: seq<Entry<S>>, state: S)
  {
    && |history| > 0
    && (forall k :: 0 <= k < |history| ==> history[k].sequence == k + 1)
    && history[|history| - 1].state == state
  }
}
