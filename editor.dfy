/**
 * The inline comments of the text editor (src/components/TextEditor.js): the
 * comment list and its persisted copy, the comment box, and the reply box of
 * each comment thread.
 */
module Editor {
  import opened Common
  import Strings

  /** A Slate point and range. */
  datatype Point = Point(path: seq<nat>, offset: nat)
  datatype Range = Range(anchor: Point, focus: Point)

  /** `Range.isCollapsed`: both ends are the same point. */
  predicate IsCollapsed(r: Range)
  {
    r.anchor == r.focus
  }

  /** A comment as storage holds it: the JSON snapshot of `{id, text, replies, range}`. */
  datatype CommentRecord = CommentRecord(id: int, text: string, replies: seq<string>, range: Option<Range>)

  /** The storage key under which the comment list is persisted. */
  const COMMENTS_KEY: string := "comments"

  /** One comment object; only its `replies` array is ever updated, and in place. */
  class Comment {
    const id: int
    const text: string
    const range: Option<Range>
    var replies: seq<string>

    constructor (id: int, text: string, range: Option<Range>)
      ensures this.id == id && this.text == text && this.range == range && replies == []
    {
      this.id := id;
      this.text := text;
      this.range := range;
      replies := [];
    }

    /** The object `JSON.parse` rebuilds from a stored record. */
    constructor FromRecord(r: CommentRecord)
      ensures Record() == r
    {
      id := r.id;
      text := r.text;
      range := r.range;
      replies := r.replies;
    }

    function Record(): CommentRecord
      reads this
    {
      CommentRecord(id, text, replies, range)
    }
  }

  /** `JSON.stringify` of the list, as a sequence of snapshots. */
  function Records(cs: seq<Comment>): (r: seq<CommentRecord>)
    reads set c | c in cs
    ensures |r| == |cs|
    ensures forall i :: 0 <= i < |cs| ==> r[i] == cs[i].Record()
  {
    seq(|cs|, i reads set c | c in cs requires 0 <= i < |cs| => cs[i].Record())
  }

  /** `comments.filter(comment => comment.id !== commentId)`. */
  function Without(cs: seq<Comment>, id: int): seq<Comment>
  {
    if cs == [] then []
    else if cs[0].id != id then [cs[0]] + Without(cs[1..], id)
    else Without(cs[1..], id)
  }

  /** The comments kept are exactly those with another id. */
  lemma {:induction false} WithoutMembers(cs: seq<Comment>, id: int)
    ensures forall c :: c in Without(cs, id) <==> c in cs && c.id != id
  {
    if cs != [] {
      WithoutMembers(cs[1..], id);
      assert cs == [cs[0]] + cs[1..];
    }
  }

  /** Filtering distributes over concatenation: the comments kept stay in their order. */
  lemma {:induction false} WithoutAppend(a: seq<Comment>, b: seq<Comment>, id: int)
    ensures Without(a + b, id) == Without(a, id) + Without(b, id)
  {
    if a == [] {
      assert a + b == b;
    } else {
      assert (a + b)[0] == a[0];
      assert (a + b)[1..] == a[1..] + b;
      WithoutAppend(a[1..], b, id);
    }
  }

  /** Resolving an id nobody has leaves the list as it was. */
  lemma {:induction false} WithoutAbsent(cs: seq<Comment>, id: int)
    requires forall i :: 0 <= i < |cs| ==> cs[i].id != id
    ensures Without(cs, id) == cs
  {
    if cs != [] {
      WithoutAbsent(cs[1..], id);
    }
  }

  /** The number of comments carrying an id. */
  function CountId(cs: seq<Comment>, id: int): nat
  {
    if cs == [] then 0 else (if cs[0].id == id then 1 else 0) + CountId(cs[1..], id)
  }

  /** Every comment with the id goes, so duplicated `Date.now()` ids are all removed together. */
  lemma {:induction false} WithoutLength(cs: seq<Comment>, id: int)
    ensures |Without(cs, id)| == |cs| - CountId(cs, id)
  {
    if cs != [] {
      WithoutLength(cs[1..], id);
    }
  }

  /** The editor's comment state; a missing value of `selectedRange` is `null`. */
  class TextEditor {
    var comments: seq<Comment>
    var showCommentBox: bool
    var commentText: string
    var selectedRange: Option<Range>
    var storage: map<string, seq<CommentRecord>>

    /** The box is only ever opened together with a range. */
    ghost predicate Valid()
      reads this
    {
      showCommentBox ==> selectedRange.Some?
    }

    /**
     * Loading: the list is rebuilt from the stored copy, or empty when there is
     * none; the box is closed and empty.
     */
    constructor (storage: map<string, seq<CommentRecord>>)
      ensures Valid()
      ensures this.storage == storage
      ensures Records(comments) == if COMMENTS_KEY in storage then storage[COMMENTS_KEY] else []
      ensures forall i :: 0 <= i < |comments| ==> fresh(comments[i])
      ensures !showCommentBox && commentText == "" && selectedRange.None?
    {
      var recs := if COMMENTS_KEY in storage then storage[COMMENTS_KEY] else [];
      var cs: seq<Comment> := [];
      var i := 0;
      while i < |recs|
        invariant 0 <= i <= |recs| && |cs| == i
        invariant forall k :: 0 <= k < i ==> fresh(cs[k]) && cs[k].Record() == recs[k]
      {
        var c := new Comment.FromRecord(recs[i]);
        cs := cs + [c];
        i := i + 1;
      }
      comments := cs;
      showCommentBox := false;
      commentText := "";
      selectedRange := None;
      this.storage := storage;
    }

    /** The box's `onChange`. */
    method EditComment(text: string)
      modifies this
      ensures commentText == text
      ensures comments == old(comments) && showCommentBox == old(showCommentBox)
      ensures selectedRange == old(selectedRange) && storage == old(storage)
    {
      commentText := text;
    }

    /**
     * `addComment`, from the box's Comment button, which exists only while the
     * box is open, so the new comment always has a range. `now` is the
     * `Date.now()` that becomes the id; the text is not checked.
     */
    method AddComment(now: int)
      requires Valid() && showCommentBox
      modifies this
      ensures Valid()
      ensures |comments| == |old(comments)| + 1 && comments[..|old(comments)|] == old(comments)
      ensures fresh(comments[|old(comments)|])
      ensures comments[|old(comments)|].range.Some?
      ensures Records(comments) == old(Records(comments)) + [CommentRecord(now, old(commentText), [], old(selectedRange))]
      ensures storage == old(storage)[COMMENTS_KEY := Records(comments)]
      ensures !showCommentBox && commentText == "" && selectedRange == old(selectedRange)
    {
      var comment := new Comment(now, commentText, selectedRange);
      var newComments := comments + [comment];
      assert Records(newComments) == Records(comments) + [comment.Record()];
      comments := newComments;
      storage := storage[COMMENTS_KEY := Records(newComments)];
      showCommentBox := false;
      commentText := "";
    }

    /** `cancelComment`: close the box and clear its text. */
    method CancelComment()
      modifies this
      ensures Valid()
      ensures !showCommentBox && commentText == ""
      ensures comments == old(comments) && selectedRange == old(selectedRange) && storage == old(storage)
    {
      showCommentBox := false;
      commentText := "";
    }

    /**
     * The comment branch of `handleKeyDown`: Ctrl-K or Cmd-K over a selection
     * that is not collapsed records it and opens the box; anything else leaves
     * the comment state alone.
     */
    method KeyDown(key: string, metaKey: bool, ctrlKey: bool, selection: Option<Range>)
      requires Valid()
      modifies this
      ensures Valid()
      ensures comments == old(comments) && commentText == old(commentText) && storage == old(storage)
      ensures if key == "k" && (metaKey || ctrlKey) && selection.Some? && !IsCollapsed(selection.value)
              then showCommentBox && selectedRange == selection
              else showCommentBox == old(showCommentBox) && selectedRange == old(selectedRange)
    {
      if key == "k" && (metaKey || ctrlKey) {
        if selection.Some? && !IsCollapsed(selection.value) {
          selectedRange := selection;
          showCommentBox := true;
        }
      }
    }

    /** The box's `onBlur`: leaving it while it holds only white space cancels the comment. */
    method BlurCommentBox()
      requires Valid()
      modifies this
      ensures Valid()
      ensures comments == old(comments) && selectedRange == old(selectedRange) && storage == old(storage)
      ensures if Strings.Trim(old(commentText)) == []
              then !showCommentBox && commentText == ""
              else showCommentBox == old(showCommentBox) && commentText == old(commentText)
    {
      if Strings.Trim(commentText) == [] {
        CancelComment();
      }
    }

    /** `resolveComment`: drop every comment with the id and persist the rest. */
    method ResolveComment(id: int)
      requires Valid()
      modifies this
      ensures Valid()
      ensures comments == Without(old(comments), id)
      ensures storage == old(storage)[COMMENTS_KEY := Records(comments)]
      ensures showCommentBox == old(showCommentBox) && commentText == old(commentText)
      ensures selectedRange == old(selectedRange)
    {
      var newComments := Without(comments, id);
      comments := newComments;
      storage := storage[COMMENTS_KEY := Records(newComments)];
    }
  }

  /** The reply box of one comment (`CommentThread` in the editor's file). */
  class CommentThread {
    const comment: Comment
    var replyText: string

    constructor (comment: Comment)
      ensures this.comment == comment && replyText == ""
    {
      this.comment := comment;
      replyText := "";
    }

    method EditReply(text: string)
      modifies this
      ensures replyText == text
    {
      replyText := text;
    }

    /** `addReply`: push the reply onto the comment's own array and clear the box. */
    method AddReply()
      modifies this, comment
      ensures comment.replies == old(comment.replies) + [old(replyText)]
      ensures replyText == ""
    {
      comment.replies := comment.replies + [replyText];
      replyText := "";
    }
  }

  /**
   * A reply reaches the comment the editor lists, but not the persisted copy:
   * the editor's state, storage included, is untouched.
   */
  method ReplyNotPersisted(editor: TextEditor, thread: CommentThread, k: int)
    requires 0 <= k < |editor.comments| && editor.comments[k] == thread.comment
    modifies thread, thread.comment
    ensures unchanged(editor)
    ensures editor.comments[k].replies == old(thread.comment.replies) + [old(thread.replyText)]
  {
    thread.AddReply();
  }
}
