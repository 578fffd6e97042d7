/**
 * The tag-list editing shared by the skills, qualifications and benefits
 * fields of the job wizard: an entry is added trimmed, only when it is
 * non-empty and not yet listed, and removing a value drops every
 * occurrence of it.
 */
module TagList {
  import opened Text
  import opened Seqs

  /** A list and the text typed into its input box. */
  datatype TagEdit = TagEdit(tags: seq<string>, input: string)

  /** Pressing "add": `Trim(input)` is appended and the input cleared when
      it is non-empty and new; otherwise nothing changes. */
  function AddTag(e: TagEdit): (r: TagEdit)
    ensures Trim(e.input) != [] ==> Trim(e.input) in r.tags
    ensures |e.tags| <= |r.tags| <= |e.tags| + 1 && r.tags[..|e.tags|] == e.tags
    ensures |r.tags| == |e.tags| + 1 <==> Trim(e.input) != [] && Trim(e.input) !in e.tags
    ensures |r.tags| == |e.tags| + 1 ==> r.tags[|e.tags|] == Trim(e.input) && r.input == []
    ensures |r.tags| == |e.tags| ==> r == e
  {
    var t := Trim(e.input);
    if t != [] && t !in e.tags then TagEdit(e.tags + [t], []) else e
  }

  /** Pressing a tag's remove button. */
  function RemoveTag(tags: seq<string>, v: string): (r: seq<string>)
    ensures v !in r
    ensures IsSubsequence(r, tags)
    ensures forall x :: x != v ==> multiset(r)[x] == multiset(tags)[x]
  {
    FilterKeepsOrder(tags, x => x != v);
    Filter(tags, x => x != v)
  }

  /** A tag as the add buttons store it: non-empty, no surrounding
      whitespace. */
  predicate Tidy(tag: string) {
    tag != [] && Trim(tag) == tag
  }

  /** Every listed tag is tidy. */
  predicate AllTrimmed(tags: seq<string>) {
    forall k | 0 <= k < |tags| :: Tidy(tags[k])
  }

  /** What every add and remove keeps: no duplicates, nothing untrimmed. */
  predicate WellFormed(tags: seq<string>) {
    NoDuplicates(tags) && AllTrimmed(tags)
  }

  /** Adding keeps the list free of duplicates and of untrimmed entries. */
  lemma AddTagKeepsInvariant(e: TagEdit)
    requires WellFormed(e.tags)
    ensures WellFormed(AddTag(e).tags)
  {
    var t := Trim(e.input);
    if t != [] && t !in e.tags {
      TrimIdempotent(e.input);
      AppendKeepsInvariant(e.tags, t);
    }
  }

  /** The invariant as one implication, for callers that only know it
      held before. */
  lemma AddTagPreservesWellFormed(e: TagEdit)
    ensures WellFormed(e.tags) ==> WellFormed(AddTag(e).tags)
  {
    if WellFormed(e.tags) { AddTagKeepsInvariant(e); }
  }

  /** Appending a new tidy tag keeps the invariant. */
  lemma AppendKeepsInvariant(tags: seq<string>, t: string)
    requires NoDuplicates(tags) && AllTrimmed(tags)
    requires Tidy(t) && t !in tags
    ensures NoDuplicates(tags + [t]) && AllTrimmed(tags + [t])
  {
    AppendNoDuplicates(tags, t);
    var r := tags + [t];
    forall k | 0 <= k < |r|
      ensures Tidy(r[k])
    {
      if k < |tags| {
        assert r[k] == tags[k];
      }
    }
  }

  /** Removing keeps the list free of duplicates and of untrimmed entries. */
  lemma RemoveTagKeepsInvariant(tags: seq<string>, v: string)
    requires WellFormed(tags)
    ensures WellFormed(RemoveTag(tags, v))
  {
    FilterNoDuplicates(tags, x => x != v);
    var r := RemoveTag(tags, v);
    forall k | 0 <= k < |r|
      ensures Tidy(r[k])
    {
      var i :| 0 <= i < |tags| && tags[i] == r[k];
    }
  }

  /** The removal invariant as one implication. */
  lemma RemoveTagPreservesWellFormed(tags: seq<string>, v: string)
    ensures WellFormed(tags) ==> WellFormed(RemoveTag(tags, v))
  {
    if WellFormed(tags) { RemoveTagKeepsInvariant(tags, v); }
  }

  /** Removing a tag that was just added gives back the earlier list. */
  lemma RemoveUndoesAdd(e: TagEdit)
    requires Trim(e.input) !in e.tags
    ensures RemoveTag(AddTag(e).tags, Trim(e.input)) == e.tags
  {
    var t := Trim(e.input);
    var p := (x: string) => x != t;
    forall k | 0 <= k < |e.tags|
      ensures p(e.tags[k])
    {
    }
    FilterAll(e.tags, p);
    if t != [] {
      FilterAppend(e.tags, [t], p);
      assert Filter([t], p) == [];
    }
  }

  /** A rejected add changes neither the list nor the input. */
  lemma RejectedAddChangesNothing(e: TagEdit)
    requires Trim(e.input) == [] || Trim(e.input) in e.tags
    ensures AddTag(e) == e
  {
  }
}
