/** The label part of CopyToBucketUpdateAttrs (apis/storage/v1alpha3/types.go:690-697
    and pkg/controller/storage/bucket.go:178). */
module BucketLabels {
  import opened Gcp

  type Labels = map<string, string>

  /** What an update does to the labels. A null in the request removes a label. */
  datatype Patch = Patch(sets: Labels, deletes: set<string>)

  function Apply(current: Labels, p: Patch): Labels {
    (current - p.deletes) + p.sets
  }

  /** The deletions first, or last: both are possible readings of one request. */
  function ApplyDeletesLast(current: Labels, p: Patch): Labels {
    (current + p.sets) - p.deletes
  }

  /** The patch turns `current` into `desired` whichever part is applied first. */
  predicate Achieves(p: Patch, current: Labels, desired: Labels) {
    Apply(current, p) == desired && ApplyDeletesLast(current, p) == desired
  }

  /** The patch that the code computes. */
  function Diff(desired: Labels, current: Labels): Patch {
    Patch(desired, current.Keys - desired.Keys)
  }

  lemma DiffAchieves(desired: Labels, current: Labels)
    ensures Achieves(Diff(desired, current), current, desired)
    ensures Diff(desired, current).sets.Keys !! Diff(desired, current).deletes
  {
  }

  /** No patch that achieves the desired labels deletes less, or sets other values. */
  lemma DiffIsLeast(desired: Labels, current: Labels, p: Patch)
    requires Achieves(p, current, desired)
    ensures Diff(desired, current).deletes <= p.deletes
    ensures forall k :: k in p.sets ==> k in desired && p.sets[k] == desired[k]
    ensures p.sets.Keys !! p.deletes
  {
  }

  function Restrict(m: Labels, done: set<string>): Labels {
    map k | k in m && k in done :: m[k]
  }

  lemma OneMore(desired: Labels, current: Labels, done: set<string>, k: string)
    requires k in desired
    ensures Restrict(desired, done)[k := desired[k]] == Restrict(desired, done + {k})
    ensures (current - done) - {k} == current - (done + {k})
  {
  }

  /** The loop over the desired labels, in an arbitrary order, as over a Go map: each is
      set, and taken out of the caller's map of current labels. */
  method SetLabels(desired: Labels, labels: Pointer<Labels>) returns (sets: Labels)
    modifies labels
    ensures sets == desired && labels.it == old(labels.it) - desired.Keys
  {
    var left := desired.Keys;
    ghost var done := {};
    sets := map[];
    while left != {}
      invariant left <= desired.Keys && done == desired.Keys - left
      invariant sets == Restrict(desired, done)
      invariant labels.it == old(labels.it) - done
      decreases |left|
    {
      var k :| k in left;
      OneMore(desired, old(labels.it), done, k);
      sets := sets[k := desired[k]];
      labels.it := labels.it - {k};
      left := left - {k};
      done := done + {k};
    }
  }

  /** The loop over the labels that are left: each is deleted from the bucket. */
  method DeleteLabels(labels: Labels) returns (deletes: set<string>)
    ensures deletes == labels.Keys
  {
    var left := labels.Keys;
    deletes := {};
    while left != {}
      invariant left <= labels.Keys && deletes == labels.Keys - left
      decreases |left|
    {
      var k :| k in left;
      deletes := deletes + {k};
      left := left - {k};
    }
  }

  /** The caller's map is consumed: what is left in it is what gets deleted. */
  method CopyLabels(desired: Labels, labels: Pointer<Labels>) returns (update: Patch)
    modifies labels
    ensures update == Diff(desired, old(labels.it))
    ensures Achieves(update, old(labels.it), desired) && update.sets.Keys !! update.deletes
    ensures labels.it == old(labels.it) - desired.Keys
  {
    DiffAchieves(desired, labels.it);
    var sets := SetLabels(desired, labels);
    var deletes := DeleteLabels(labels.it);
    update := Patch(sets, deletes);
  }
}
