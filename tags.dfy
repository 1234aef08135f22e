/**
 * The tag input (src/components/Tags.js): the text typed for a new tag, the
 * flag that a tag was just added, and what the component reports to its parent.
 */
module TagInput {
  import opened Common
  import Strings

  /** The guard of `handleAddTag`: the trimmed input, when it is not empty. */
  function TagToAdd(input: string): (r: Option<string>)
    ensures r.Some? <==> !Strings.AllWhitespace(input)
    ensures r.Some? ==>
      r.value != [] &&
      !Strings.IsWhitespace(r.value[0]) && !Strings.IsWhitespace(r.value[|r.value| - 1]) &&
      Strings.IsSubstring(r.value, input)
  {
    var t := Strings.Trim(input);
    Strings.TrimEmptyIff(input);
    if t == [] then None
    else
      Strings.TrimOccurs(input);
      Some(t)
  }

  /** The tag reported is already trimmed: trimming it again changes nothing. */
  lemma AddedTagIsTrimmed(input: string)
    requires TagToAdd(input).Some?
    ensures Strings.Trim(TagToAdd(input).value) == TagToAdd(input).value
  {
    Strings.TrimIdempotent(input);
  }

  /** What the component hands to its parent: `onAddTag(tag)` or `onRemoveTag(tag)`. */
  datatype TagEvent = Added(tag: string) | Removed(tag: string)

  /** The close button of the `i`-th tag reports the tag's value, not its position. */
  function RemoveClicked(tags: seq<string>, i: nat): (r: TagEvent)
    requires i < |tags|
    ensures r == Removed(tags[i])
  {
    Removed(tags[i])
  }

  /** Two tags with the same text are indistinguishable to the parent when removed. */
  lemma RemoveByValue(tags: seq<string>, i: nat, j: nat)
    requires i < |tags| && j < |tags| && tags[i] == tags[j]
    ensures RemoveClicked(tags, i) == RemoveClicked(tags, j)
  {
  }

  class Tags {
    var newTag: string
    var isNewTagAdded: bool

    constructor ()
      ensures newTag == "" && !isNewTagAdded
    {
      newTag := "";
      isNewTagAdded := false;
    }

    /** The input's `onChange`. */
    method Edit(text: string)
      modifies this
      ensures newTag == text && isNewTagAdded == old(isNewTagAdded)
    {
      newTag := text;
    }

    /**
     * `handleAddTag`, the form's submit handler. `added` is the event passed to
     * `onAddTag`, or `None` when the input is only white space.
     */
    method AddTag() returns (added: Option<TagEvent>)
      modifies this
      ensures TagToAdd(old(newTag)).None? ==>
        added.None? && newTag == old(newTag) && isNewTagAdded == old(isNewTagAdded)
      ensures TagToAdd(old(newTag)).Some? ==>
        added == Some(Added(TagToAdd(old(newTag)).value)) && newTag == "" && isNewTagAdded
    {
      var input := newTag;
      var tag := TagToAdd(input);
      if tag.None? {
        return None;
      }
      added := Some(Added(tag.value));
      newTag := "";
      isNewTagAdded := true;
    }

    /**
     * The effect that runs after the tag list or the flag changes: with the
     * container mounted, a raised flag is lowered (the scroll itself is left out).
     */
    method AfterRender(mounted: bool)
      modifies this
      ensures newTag == old(newTag)
      ensures isNewTagAdded == (old(isNewTagAdded) && !mounted)
    {
      if isNewTagAdded && mounted {
        isNewTagAdded := false;
      }
    }
  }
}
