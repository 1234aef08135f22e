/**
 * The main conversation (src/components/Chat.js): its two seed messages,
 * rebuilt whenever the editor content changes, the send handler and the
 * messages it shows.
 */
module ChatPanel {
  import opened Common
  import opened Messages
  import Strings
  import Server

  const TEXT_PREFIX: string := "Here is the user's text:\n\n"

  const INSTRUCTIONS: string :=
    "Your job is to elevate the user's writing by providing comments on their text. There are 5 types of comments you can give: 1. 'REPLACE': replace the 'anchor' field with the 'text' field, 2. 'ADD_BEFORE': add the 'text' field before the text in the 'anchor' field, 3. 'ADD_AFTER': add the 'text' field after the text in the 'anchor' field, 4. 'REMOVE': delete the 'anchor' field, 5. 'QUESTION': ask a question about the 'anchor' field. For types 'REPLACE', 'ADD_BEFORE', and 'ADD_AFTER', ensure the text makes COMPLETE SENSE after the change."

  /** The messages shown: every message that is not a system message, in order. */
  function Visible(h: seq<Message>): seq<Message>
  {
    if h == [] then []
    else if h[0].role == System then Visible(h[1..])
    else [h[0]] + Visible(h[1..])
  }

  /** `initialChatHistory`: two system messages, the user's text and the fixed instruction. */
  function InitialHistory(t: string): (r: seq<Message>)
    ensures |r| == 2 && Visible(r) == []
    ensures r[0] == Message(System, Text(TEXT_PREFIX + t))
    ensures r[1] == Message(System, Text(INSTRUCTIONS))
  {
    var r := [Message(System, Text(TEXT_PREFIX + t)), Message(System, Text(INSTRUCTIONS))];
    assert r[1..] == [r[1]] && [r[1]][1..] == [];
    assert Visible(r[1..]) == [];
    r
  }

  /** The text the seed was built from can be read back from it. */
  lemma InitialHistoryRecoversText(t: string, u: string)
    ensures InitialHistory(t) == InitialHistory(u) <==> t == u
  {
    if InitialHistory(t) == InitialHistory(u) {
      assert t == (TEXT_PREFIX + t)[|TEXT_PREFIX|..];
      assert u == (TEXT_PREFIX + u)[|TEXT_PREFIX|..];
    }
  }

  /** Filtering distributes over concatenation, so the shown messages keep their order. */
  lemma {:induction false} VisibleAppend(a: seq<Message>, b: seq<Message>)
    ensures Visible(a + b) == Visible(a) + Visible(b)
  {
    if a == [] {
      assert a + b == b;
    } else {
      assert (a + b)[0] == a[0];
      assert (a + b)[1..] == a[1..] + b;
      VisibleAppend(a[1..], b);
    }
  }

  /** A message is shown exactly when it is in the history and is not a system message. */
  lemma {:induction false} VisibleMembers(h: seq<Message>)
    ensures forall m :: m in Visible(h) <==> m in h && m.role != System
  {
    if h != [] {
      VisibleMembers(h[1..]);
      assert h == [h[0]] + h[1..];
    }
  }

  /** A log with no system message is shown whole. */
  lemma {:induction false} VisibleOfNonSystem(h: seq<Message>)
    requires forall i :: 0 <= i < |h| ==> h[i].role != System
    ensures Visible(h) == h
  {
    if h != [] {
      VisibleOfNonSystem(h[1..]);
    }
  }

  /**
   * The logs the main chat can hold: the user's text for the current content
   * and a second system string, then user and assistant messages, all of them
   * strings. (Which string the second one is, the fixed instruction, is stated
   * by the methods that seed the log, and kept because sends only append.)
   */
  ghost predicate ChatLog(content: string, h: seq<Message>)
  {
    |h| >= 2 && h[0] == Message(System, Text(TEXT_PREFIX + content)) &&
    h[1].role == System && h[1].content.Text? &&
    forall i :: 2 <= i < |h| ==> h[i].role != System && h[i].content.Text?
  }

  /** Appending a user or assistant string keeps a log a chat log. */
  lemma ChatLogAppend(content: string, h: seq<Message>, m: Message)
    requires ChatLog(content, h) && m.role != System && m.content.Text?
    ensures ChatLog(content, h + [m])
  {
  }

  /** What the chat shows of such a log is everything after the seed. */
  lemma VisibleOfChatLog(content: string, h: seq<Message>)
    requires ChatLog(content, h)
    ensures Visible(h) == h[2..]
  {
    assert h == h[..2] + h[2..];
    VisibleAppend(h[..2], h[2..]);
    VisibleOfNonSystem(h[2..]);
  }

  class Chat {
    var editorContent: string
    var history: seq<Message>
    var message: string

    ghost predicate Valid()
      reads this
    {
      ChatLog(editorContent, history)
    }

    /** Mounting the panel: empty input, and the reset effect has run for the first content. */
    constructor (content: string)
      ensures Valid()
      ensures editorContent == content && history == InitialHistory(content) && message == ""
    {
      editorContent := content;
      history := InitialHistory(content);
      message := "";
    }

    /** A new `editorContent` prop: the effect runs only when it differs, and drops the old log. */
    method ContentChanged(content: string)
      requires Valid()
      modifies this
      ensures Valid()
      ensures editorContent == content && message == old(message)
      ensures history == if content != old(editorContent) then InitialHistory(content) else old(history)
    {
      if content != editorContent {
        history := InitialHistory(content);
      }
      editorContent := content;
    }

    /** The input's `onChange`. */
    method Edit(text: string)
      modifies this
      ensures editorContent == old(editorContent) && history == old(history) && message == text
    {
      message := text;
    }

    /**
     * `handleSendMessage`, with the awaited reply as a parameter. A reply is
     * stored as the JSON text of the response body.
     */
    method Send(reply: Reply) returns (posted: Option<seq<Message>>)
      requires Valid()
      modifies this
      ensures Valid() && editorContent == old(editorContent)
      ensures Strings.Trim(old(message)) == [] ==>
        posted.None? && history == old(history) && message == old(message)
      ensures Strings.Trim(old(message)) != [] ==>
        posted == Some(old(history) + [Message(User, Text(old(message)))]) &&
        message == "" &&
        history == posted.value + (if reply.Answer? then [Message(Assistant, Text(Json(reply.data)))] else [])
    {
      if Strings.Trim(message) == [] {
        return None;
      }
      ChatLogAppend(editorContent, history, Message(User, Text(message)));
      var newHistory := history + [Message(User, Text(message))];
      history := newHistory;
      message := "";
      posted := Some(newHistory);
      match reply
      case Answer(data) =>
        var aiResponse := Json(data);
        ChatLogAppend(editorContent, history, Message(Assistant, Text(aiResponse)));
        history := history + [Message(Assistant, Text(aiResponse))];
      case ErrorField(_) =>
      case Thrown =>
    }
  }

  /**
   * The endpoint as written raises on every request the main chat sends once
   * a reply has been stored, because the reply is a string; the corrected
   * endpoint forwards those requests.
   */
  lemma AnsweredChatRequestRaises(content: string, h: seq<Message>, i: int)
    requires ChatLog(content, h) && 2 <= i < |h| && h[i].role == Assistant
    ensures Server.Handle(Server.Request(Some(h))) == Server.InternalError(500, Server.STR_HAS_NO_GET)
    ensures Server.HandleCorrected(Server.Request(Some(h))).Forward?
  {
    Server.RaisesIff(h);
    Server.CorrectedForwardsStrings(h, i);
  }

  /** Before any reply is stored, the endpoint forwards the main chat's request unchanged. */
  lemma UnansweredChatRequestForwarded(content: string, h: seq<Message>)
    requires ChatLog(content, h) && forall i :: 0 <= i < |h| ==> h[i].role != Assistant
    ensures Server.Handle(Server.Request(Some(h))) == Server.Forward(h)
  {
    Server.RaisesIff(h);
    Server.EmptyRejected(h);
    Server.LengthAndOrderKept(h);
  }

  /**
   * A send once a reply is stored: the log the chat posts raises in the
   * endpoint as written, and the corrected endpoint forwards it.
   */
  method SendAfterReply(chat: Chat, reply: Reply, k: int) returns (posted: Option<seq<Message>>)
    requires chat.Valid() && 2 <= k < |chat.history| && chat.history[k].role == Assistant
    requires Strings.Trim(chat.message) != []
    modifies chat
    ensures chat.Valid()
    ensures posted == Some(old(chat.history) + [Message(User, Text(old(chat.message)))])
    ensures Server.Handle(Server.Request(posted)) == Server.InternalError(500, Server.STR_HAS_NO_GET)
    ensures Server.HandleCorrected(Server.Request(posted)).Forward?
  {
    var h, m := chat.history, chat.message;
    posted := chat.Send(reply);
    ChatLogAppend(chat.editorContent, h, Message(User, Text(m)));
    AnsweredChatRequestRaises(chat.editorContent, posted.value, k);
  }

  /** A concrete run of the panel: mount, one answered send, a second send; the second request raises. */
  method SecondSendRaises(content: string, data: Payload, reply: Reply) returns (posted: Option<seq<Message>>)
    ensures posted.Some? && |posted.value| == 5
    ensures Server.Handle(Server.Request(posted)) == Server.InternalError(500, Server.STR_HAS_NO_GET)
  {
    var chat := new Chat(content);
    var hi, again := "hi", "again";
    assert !Strings.IsWhitespace(hi[0]) && !Strings.IsWhitespace(again[0]);
    Strings.TrimEmptyIff(hi);
    Strings.TrimEmptyIff(again);
    chat.Edit(hi);
    var first := chat.Send(Answer(data));
    chat.Edit(again);
    posted := SendAfterReply(chat, reply, 3);
  }
}
