/** The settings panel's tag list: adding a trimmed tag and removing every copy of one. */
module PostSettings {
  import opened Wrappers
  import opened Text

  /**
   * The list `handleAddTag` hands to `onUpdateTags`: the old tags followed by
   * the trimmed new tag, or nothing at all when the new tag is blank.
   */
  function AddedTags(tags: seq<string>, newTag: string): (r: Option<seq<string>>)
    ensures r.None? <==> Blank(newTag)
    ensures r.Some? ==>
      && |r.value| == |tags| + 1
      && r.value[..|tags|] == tags
      && r.value[|tags|] == Trim(newTag) && r.value[|tags|] != ""
  {
    var tag := Trim(newTag);
    if tag != "" then Some(tags + [tag]) else None
  }

  /** Adding does not prevent duplicates: the trimmed tag gains exactly one more copy. */
  lemma AddingCountsOneMore(tags: seq<string>, newTag: string)
    requires !Blank(newTag)
    ensures var r := AddedTags(tags, newTag).value;
      multiset(r)[Trim(newTag)] == multiset(tags)[Trim(newTag)] + 1
  {
  }

  /** `tags.filter(t => t !== tag)`. */
  function RemoveTag(tags: seq<string>, tag: string): (r: seq<string>)
    ensures tag !in r
    ensures forall t :: t in r <==> t in tags && t != tag
    ensures |r| <= |tags|
  {
    if tags == [] then []
    else if tags[0] == tag then RemoveTag(tags[1..], tag)
    else [tags[0]] + RemoveTag(tags[1..], tag)
  }

  /** Removal works piece by piece, so the remaining tags keep their order. */
  lemma {:induction false} RemoveTagDistributes(a: seq<string>, b: seq<string>, tag: string)
    ensures RemoveTag(a + b, tag) == RemoveTag(a, tag) + RemoveTag(b, tag)
    decreases |a|
  {
    if a == [] {
      assert a + b == b;
    } else {
      assert (a + b)[1..] == a[1..] + b;
      RemoveTagDistributes(a[1..], b, tag);
    }
  }

  /** Every copy of the tag goes and every other tag keeps its multiplicity. */
  lemma {:induction false} RemoveTagCounts(tags: seq<string>, tag: string)
    ensures multiset(RemoveTag(tags, tag)) == multiset(tags)[tag := 0]
    decreases |tags|
  {
    if tags != [] {
      RemoveTagCounts(tags[1..], tag);
      assert tags == [tags[0]] + tags[1..];
    }
  }

  /** Removing a tag that is not there leaves the list equal. */
  lemma {:induction false} RemoveAbsentTag(tags: seq<string>, tag: string)
    requires tag !in tags
    ensures RemoveTag(tags, tag) == tags
    decreases |tags|
  {
    if tags != [] {
      RemoveAbsentTag(tags[1..], tag);
    }
  }

  /** Removing twice is removing once. */
  lemma RemoveTagIdempotent(tags: seq<string>, tag: string)
    ensures RemoveTag(RemoveTag(tags, tag), tag) == RemoveTag(tags, tag)
  {
    RemoveAbsentTag(RemoveTag(tags, tag), tag);
  }

  /** The panel's own state: the text of the tag being typed. */
  class Panel {
    var newTag: string

    constructor ()
      ensures newTag == ""
    {
      newTag := "";
    }

    method SetNewTag(value: string)
      modifies this
      ensures newTag == value
    {
      newTag := value;
    }

    /**
     * `handleAddTag`: reports the new list (`None` when `onUpdateTags` is not
     * called) and clears the input only when a tag was added.
     */
    method HandleAddTag(tags: seq<string>) returns (update: Option<seq<string>>)
      modifies this
      ensures update == AddedTags(tags, old(newTag))
      ensures update.Some? ==> newTag == ""
      ensures update.None? ==> newTag == old(newTag)
    {
      update := AddedTags(tags, newTag);
      if update.Some? {
        newTag := "";
      }
    }
  }
}
