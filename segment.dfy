/**
 The values a loop over the indices `start .. end - 1` produces, one per index, in
 index order. The resume loop draws one identifier, merges one coin and performs one
 detail fetch per index; each of these is a segment of a per-index function.
 */
module Segments {
  /** `f` can be applied at every index of `start .. end - 1`. */
  ghost predicate DefinedOn<T>(f: nat --> T, start: nat, end: nat) {
    forall k :: start <= k < end ==> f.requires(k)
  }

  /** `[f(start), f(start + 1), ..., f(end - 1)]`. */
  function Segment<T>(f: nat --> T, start: nat, end: nat): (s: seq<T>)
    requires start <= end && DefinedOn(f, start, end)
    ensures |s| == end - start
  {
    seq(end - start, (k: nat) requires k < end - start && f.requires(start + k) => f(start + k))
  }

  /** The element for index `j` is `f(j)`. */
  lemma SegmentAt<T>(f: nat --> T, start: nat, end: nat, j: nat)
    requires start <= j < end && DefinedOn(f, start, end)
    ensures Segment(f, start, end)[j - start] == f(j)
  {
  }

  /** Stopping earlier gives a prefix of the same values. */
  lemma SegmentPrefix<T>(f: nat --> T, start: nat, mid: nat, end: nat)
    requires start <= mid <= end && DefinedOn(f, start, end)
    ensures DefinedOn(f, start, mid)
    ensures Segment(f, start, end)[..mid - start] == Segment(f, start, mid)
  {
  }

  /** One more index appends one more value. */
  lemma SegmentSnoc<T>(f: nat --> T, start: nat, end: nat)
    requires start <= end && DefinedOn(f, start, end + 1)
    ensures Segment(f, start, end + 1) == Segment(f, start, end) + [f(end)]
  {
  }
}
