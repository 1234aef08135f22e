/**
 * The side thread opened on one suggestion (src/components/Thread.js): its
 * message log, seeded from the suggestion, the send handler and how each
 * message is drawn.
 */
module ThreadPanel {
  import opened Common
  import opened Messages
  import Strings
  import SuggestionCard
  import Server

  /** The seed: one assistant message whose comments are the suggestion alone. */
  function SeedHistory(s: Suggestion): seq<Message>
  {
    [Message(Assistant, Structured(Payload(None, [s])))]
  }

  /**
   * The logs a thread can hold: never a system message, assistant messages
   * always carry a payload and user messages always a string.
   */
  ghost predicate ThreadLog(h: seq<Message>)
  {
    |h| >= 1 &&
    forall i :: 0 <= i < |h| ==>
      h[i].role != System &&
      (h[i].role == Assistant ==> h[i].content.Structured?) &&
      (h[i].role == User ==> h[i].content.Text?)
  }

  class Thread {
    var history: seq<Message>
    var message: string

    ghost predicate Valid()
      reads this
    {
      ThreadLog(history)
    }

    /** Mounting the panel: empty input, and the seeding effect has run once. */
    constructor (s: Suggestion)
      ensures Valid()
      ensures history == SeedHistory(s) && message == ""
    {
      history := SeedHistory(s);
      message := "";
    }

    /** The seeding effect, run whenever the `suggestion` prop changes: the old log is dropped. */
    method Reseed(s: Suggestion)
      modifies this
      ensures Valid()
      ensures history == SeedHistory(s) && message == old(message)
    {
      history := SeedHistory(s);
    }

    /** The input's `onChange`. */
    method Edit(text: string)
      modifies this
      ensures history == old(history) && message == text
    {
      message := text;
    }

    /**
     * `handleSendMessage`, with the awaited reply as a parameter. `posted` is
     * the history sent as the request body, or `None` when nothing is sent.
     */
    method Send(reply: Reply) returns (posted: Option<seq<Message>>)
      requires Valid()
      modifies this
      ensures Valid()
      ensures Strings.Trim(old(message)) == [] ==>
        posted.None? && history == old(history) && message == old(message)
      ensures Strings.Trim(old(message)) != [] ==>
        posted == Some(old(history) + [Message(User, Text(old(message)))]) &&
        message == "" &&
        history == posted.value + (if reply.Answer? then [Message(Assistant, Structured(reply.data))] else [])
    {
      if Strings.Trim(message) == [] {
        return None;
      }
      var newHistory := history + [Message(User, Text(message))];
      history := newHistory;
      message := "";
      posted := Some(newHistory);
      match reply
      case Answer(data) =>
        history := newHistory + [Message(Assistant, Structured(data))];
      case ErrorField(_) =>
      case Thrown =>
    }
  }

  /**
   * `hoveredSuggestion === comment && hoveredSuggestion.id === comment.id`.
   * Object identity is modelled as equality of values.
   */
  function IsHovered(hovered: Option<Suggestion>, c: Suggestion): (r: bool)
    ensures r <==> hovered == Some(c)
  {
    hovered.Some? && hovered.value == c && hovered.value.id == c.id
  }

  /** What `renderMessage` draws: suggestion cards, a chat bubble, or an object React refuses to render. */
  datatype Rendered =
    | Cards(cards: seq<Result<SuggestionCard.Card, SuggestionCard.RenderError>>)
    | Bubble(role: Role, text: string)
    | ObjectChild

  /** The props a thread passes to a card: no status, thread view. */
  function ThreadProps(c: Suggestion, hovered: Option<Suggestion>, editorContent: string): SuggestionCard.Props
  {
    SuggestionCard.Props(c, None, IsHovered(hovered, c), editorContent, true)
  }

  function RenderMessage(m: Message, hovered: Option<Suggestion>, editorContent: string): (r: Rendered)
    ensures r.Cards? <==> m.role == Assistant && m.content.Structured?
    ensures r.Cards? ==> |r.cards| == |m.content.payload.comments|
  {
    if m.role == Assistant && m.content.Structured? then
      var cs := m.content.payload.comments;
      Cards(seq(|cs|, k requires 0 <= k < |cs| => SuggestionCard.Render(ThreadProps(cs[k], hovered, editorContent))))
    else match m.content
      case Text(t) => Bubble(m.role, t)
      case Structured(_) => ObjectChild
  }

  /**
   * Every card of a thread is gated as pending: no badge, no open-thread
   * button, the leave handler attached, Dismiss offered unless it is a thread
   * starter, and Accept offered exactly when the anchor is in the text.
   */
  lemma ThreadCardsPending(m: Message, hovered: Option<Suggestion>, editorContent: string, k: int)
    requires RenderMessage(m, hovered, editorContent).Cards?
    requires 0 <= k < |RenderMessage(m, hovered, editorContent).cards|
    requires RenderMessage(m, hovered, editorContent).cards[k].Success?
    ensures var c := m.content.payload.comments[k];
      var card := RenderMessage(m, hovered, editorContent).cards[k].value;
      card.onLeave &&
      card.highlighted == (hovered == Some(c)) &&
      (card.header.Some? ==> card.header.value.badge.None? && !card.header.value.openThread) &&
      (card.actionBar.Some? ==>
        SuggestionCard.DismissButton in card.actionBar.value &&
        (SuggestionCard.AcceptButton in card.actionBar.value <==>
          c.kind != "QUESTION" && Strings.IsSubstring(c.anchor, editorContent)))
  {
    var c := m.content.payload.comments[k];
    var p := ThreadProps(c, hovered, editorContent);
    assert RenderMessage(m, hovered, editorContent).cards[k] == SuggestionCard.Render(p);
    SuggestionCard.AcceptGating(p);
    SuggestionCard.DismissGating(p);
  }

  /** Every request a thread sends passes the endpoint's normalizer without raising. */
  lemma ThreadRequestForwarded(h: seq<Message>)
    requires ThreadLog(h)
    ensures Server.Handle(Server.Request(Some(h))).Forward?
    ensures |Server.Handle(Server.Request(Some(h))).messages| == |h|
  {
    Server.RaisesIff(h);
    Server.EmptyRejected(h);
    Server.LengthAndOrderKept(h);
  }
}
