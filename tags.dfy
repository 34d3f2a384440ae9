/**
 * The tag-list editor shared by the job forms (`tech_stack`) and the developer
 * profile (`skills`): a tag is added trimmed and only once, and removed with
 * `filter`.
 */
module Tags {
  import opened Text
  import opened Seqs

  /** `addTechStack` / `addSkill`: append the trimmed input unless it is blank or already listed. */
  function AddTag(tags: seq<string>, input: string): (r: seq<string>)
    ensures tags <= r && |r| <= |tags| + 1
    ensures forall x :: x in r <==> x in tags || (x == Trim(input) && x != [])
    ensures NoDuplicates(tags) ==> NoDuplicates(r)
  {
    var t := Trim(input);
    if t != [] && t !in tags then tags + [t] else tags
  }

  /** `removeTechStack` / `removeSkill`: drop every occurrence of `tag`, keeping the rest in order. */
  function RemoveTag(tags: seq<string>, tag: string): (r: seq<string>)
    ensures tag !in r
    ensures forall x :: x != tag ==> (x in r <==> x in tags)
  {
    Filter(tags, t => t != tag)
  }

  /** Adding the same input twice is the same as adding it once. */
  lemma AddTagIdempotent(tags: seq<string>, input: string)
    ensures AddTag(AddTag(tags, input), input) == AddTag(tags, input)
  {
  }

  /** Trimming the input before adding it makes no difference. */
  lemma AddTrimmedTag(tags: seq<string>, input: string)
    ensures AddTag(tags, Trim(input)) == AddTag(tags, input)
  {
    TrimIdempotent(input);
  }

  /** A blank input (only white space) never changes the list. */
  lemma AddBlankTag(tags: seq<string>, input: string)
    requires AllSpace(input)
    ensures AddTag(tags, input) == tags
  {
    TrimEmptyIffAllSpace(input);
  }

  /** Removal keeps the remaining tags in their order and keeps the list free of duplicates. */
  lemma RemoveTagKeepsOrder(tags: seq<string>, tag: string)
    ensures IsSubsequence(RemoveTag(tags, tag), tags)
    ensures NoDuplicates(tags) ==> NoDuplicates(RemoveTag(tags, tag))
  {
    FilterIsSubsequence(tags, t => t != tag);
    if NoDuplicates(tags) {
      FilterNoDuplicates(tags, t => t != tag);
    }
  }

  /** Removing a tag that was just added restores the list it was added to. */
  lemma RemoveUndoesAdd(tags: seq<string>, input: string)
    requires Trim(input) != [] && Trim(input) !in tags
    ensures RemoveTag(AddTag(tags, input), Trim(input)) == tags
  {
    var t := Trim(input);
    var keep := (x: string) => x != t;
    FilterAppend(tags, [t], keep);
    FilterAll(tags, keep);
  }
}
