/**
 * The suggestion card (src/components/Suggestion.js): which title it shows,
 * how it lays out anchor and text, and which controls it offers for a given
 * type, status, anchor presence, hover state and view.
 */
module SuggestionCard {
  import opened Common
  import opened Messages
  import Strings

  datatype Icon = ReplaceIcon | AddIcon | DeleteIcon | QuestionIcon

  /** An entry of the type table: the header's icon and title. */
  datatype TypeInfo = TypeInfo(icon: Icon, title: string)

  /** A styled run of the card's body. */
  datatype Segment =
    | Struck(s: string)      // grey, struck through
    | Grey(s: string)
    | Bold(s: string)
    | Quote(s: string)       // grey block quote
    | Italic(s: string)      // bold italic
    | Space
    | LineBreak

  datatype Control = AcceptButton | MissingAnchorButton | DismissButton

  /** The header; `info` is `None` when the looked-up entry has neither `icon` nor `title`. */
  datatype Header = Header(info: Option<TypeInfo>, badge: Option<string>, openThread: bool)

  /**
   * The rendered card. `onHover` and `onLeave` say whether the mouse handlers
   * are attached; `actionBar` is the row of controls (absent for thread starters).
   */
  datatype Card = Card(
    onHover: bool,
    onLeave: bool,
    highlighted: bool,
    starterStyle: bool,
    header: Option<Header>,
    body: seq<Segment>,
    actionBar: Option<seq<Control>>)

  /** What the component receives. `status` is `null`/`undefined` when absent. */
  datatype Props = Props(
    suggestion: Suggestion,
    status: Option<string>,
    isHovered: bool,
    editorContent: string,
    isThreadView: bool)

  /** Rendering a type the table does not answer for destructures `undefined` and throws. */
  datatype RenderError = TypeError

  const ACCEPTED: string := "accepted"

  predicate IsKnownKind(kind: string)
  {
    kind in {"REPLACE", "ADD_BEFORE", "ADD_AFTER", "REMOVE", "QUESTION", THREAD_STARTER}
  }

  /**
   * The keys every object literal inherits from `Object.prototype`. Looking one
   * of them up in the type table finds a function (or, for `__proto__`, the
   * prototype itself) instead of `undefined`, so destructuring it does not
   * throw and yields no icon and no title.
   */
  const INHERITED_KEYS: set<string> := {
    "constructor", "hasOwnProperty", "isPrototypeOf", "propertyIsEnumerable",
    "toString", "toLocaleString", "valueOf", "__proto__",
    "__defineGetter__", "__defineSetter__", "__lookupGetter__", "__lookupSetter__"}

  /** The types the component renders without throwing. */
  predicate Renders(kind: string)
  {
    IsKnownKind(kind) || kind in INHERITED_KEYS
  }

  /** `suggestionTypeMap`: the header entry of every editing type. */
  function TypeTable(kind: string): (r: Option<TypeInfo>)
    ensures r.Some? <==> kind in {"REPLACE", "ADD_BEFORE", "ADD_AFTER", "REMOVE", "QUESTION"}
  {
    if kind == "REPLACE" then Some(TypeInfo(ReplaceIcon, "REPLACE"))
    else if kind == "ADD_BEFORE" then Some(TypeInfo(AddIcon, "ADD"))
    else if kind == "ADD_AFTER" then Some(TypeInfo(AddIcon, "ADD"))
    else if kind == "REMOVE" then Some(TypeInfo(DeleteIcon, "DELETE"))
    else if kind == "QUESTION" then Some(TypeInfo(QuestionIcon, "QUESTION"))
    else None
  }

  /** `isAnchorPresent`: a literal, case-sensitive substring test on the editor content. */
  function AnchorPresent(p: Props): (r: bool)
    ensures r <==> Strings.IsSubstring(p.suggestion.anchor, p.editorContent)
  {
    Strings.IncludesIff(p.editorContent, p.suggestion.anchor);
    Strings.Includes(p.editorContent, p.suggestion.anchor)
  }

  /** JavaScript truthiness of the status: absent and the empty string are both falsy. */
  predicate StatusTruthy(status: Option<string>)
  {
    status.Some? && status.value != ""
  }

  /** The text of the status badge. */
  function BadgeText(status: string): (r: string)
    ensures r == "Accepted" <==> status == ACCEPTED
    ensures r != "Accepted" ==> r == "Dismissed"
  {
    if status == ACCEPTED then "Accepted" else "Dismissed"
  }

  /** `renderSuggestionContent`. */
  function Body(kind: string, anchor: string, text: string): seq<Segment>
  {
    if kind == "REPLACE" then [Struck(anchor), Space, Bold(text)]
    else if kind == "ADD_BEFORE" then [Bold(text), Space, Grey(anchor)]
    else if kind == "ADD_AFTER" then [Grey(anchor), Space, Bold(text)]
    else if kind == "REMOVE" then [Struck(anchor)]
    else if kind == "QUESTION" then [Quote(anchor), LineBreak, Italic(text)]
    else if kind == THREAD_STARTER then [Quote(anchor)]
    else []
  }

  /** The strings of a body in reading order, styling dropped. */
  function Words(segs: seq<Segment>): seq<string>
  {
    if segs == [] then []
    else
      var rest := Words(segs[1..]);
      match segs[0]
      case Space => rest
      case LineBreak => rest
      case Struck(s) => [s] + rest
      case Grey(s) => [s] + rest
      case Bold(s) => [s] + rest
      case Quote(s) => [s] + rest
      case Italic(s) => [s] + rest
  }

  /** The controls of the action bar. */
  function Controls(p: Props): seq<Control>
  {
    if StatusTruthy(p.status) then []
    else if p.suggestion.kind == "QUESTION" then [DismissButton]
    else if AnchorPresent(p) then [AcceptButton, DismissButton]
    else [MissingAnchorButton, DismissButton]
  }

  /** The component. */
  function Render(p: Props): (r: Result<Card, RenderError>)
    ensures r.Failure? <==> !Renders(p.suggestion.kind)
  {
    var s := p.suggestion;
    if !Renders(s.kind) then Failure(TypeError)
    else
      var starter := s.kind == THREAD_STARTER;
      var header :=
        if starter then None
        else Some(Header(
               TypeTable(s.kind),
               if StatusTruthy(p.status) then Some(BadgeText(p.status.value)) else None,
               !p.isThreadView && p.isHovered));
      Success(Card(
        onHover := AnchorPresent(p) && p.status.None?,
        onLeave := p.status.None?,
        highlighted := p.isHovered,
        starterStyle := starter,
        header := header,
        body := Body(s.kind, s.anchor, s.text),
        actionBar := if starter then None else Some(Controls(p))))
  }

  /** Hovering previews only a suggestion whose anchor is present and that has no status. */
  lemma HoverGating(p: Props)
    requires Render(p).Success?
    ensures Render(p).value.onHover <==> Strings.IsSubstring(p.suggestion.anchor, p.editorContent) && p.status.None?
    ensures Render(p).value.onLeave <==> p.status.None?
  {
  }

  /** Accept is offered exactly to a pending, non-question, non-starter suggestion whose anchor is present. */
  lemma AcceptGating(p: Props)
    requires Render(p).Success?
    ensures (Render(p).value.actionBar.Some? && AcceptButton in Render(p).value.actionBar.value) <==>
      !StatusTruthy(p.status) && p.suggestion.kind !in {"QUESTION", THREAD_STARTER} &&
      Strings.IsSubstring(p.suggestion.anchor, p.editorContent)
    ensures (Render(p).value.actionBar.Some? && MissingAnchorButton in Render(p).value.actionBar.value) <==>
      !StatusTruthy(p.status) && p.suggestion.kind !in {"QUESTION", THREAD_STARTER} &&
      !Strings.IsSubstring(p.suggestion.anchor, p.editorContent)
  {
  }

  /** Dismiss is offered to every pending suggestion except a thread starter, whatever its anchor. */
  lemma DismissGating(p: Props)
    requires Render(p).Success?
    ensures (Render(p).value.actionBar.Some? && DismissButton in Render(p).value.actionBar.value) <==>
      !StatusTruthy(p.status) && p.suggestion.kind != THREAD_STARTER
  {
  }

  /** Once a (non-empty) status is recorded, the action bar is empty and the badge shows it. */
  lemma SettledHasNoActions(p: Props)
    requires Render(p).Success? && StatusTruthy(p.status) && p.suggestion.kind != THREAD_STARTER
    ensures Render(p).value.actionBar == Some([])
    ensures Render(p).value.header.Some? && Render(p).value.header.value.badge == Some(BadgeText(p.status.value))
  {
  }

  /** A thread starter renders its anchor only: no header, no controls, no open-thread button. */
  lemma StarterIsBare(p: Props)
    requires p.suggestion.kind == THREAD_STARTER
    ensures Render(p).Success?
    ensures Render(p).value.header.None? && Render(p).value.actionBar.None?
    ensures Render(p).value.starterStyle
    ensures Words(Render(p).value.body) == [p.suggestion.anchor]
  {
  }

  /** Display titles: both additions read ADD, a removal reads DELETE, the others keep their names. */
  lemma Titles()
    ensures TypeTable("ADD_BEFORE").value.title == "ADD" && TypeTable("ADD_AFTER").value.title == "ADD"
    ensures TypeTable("REMOVE").value.title == "DELETE"
    ensures TypeTable("REPLACE").value.title == "REPLACE" && TypeTable("QUESTION").value.title == "QUESTION"
    ensures TypeTable(THREAD_STARTER).None?
  {
  }

  /**
   * The body reads in edit order: text before anchor for ADD_BEFORE, anchor
   * before text for the other types that carry a text, the anchor alone for a
   * removal; the anchor is struck through exactly for REPLACE and REMOVE.
   */
  lemma BodyOrder(s: Suggestion)
    requires IsKnownKind(s.kind)
    ensures Words(Body(s.kind, s.anchor, s.text)) ==
      if s.kind == "ADD_BEFORE" then [s.text, s.anchor]
      else if s.kind in {"REMOVE", THREAD_STARTER} then [s.anchor]
      else [s.anchor, s.text]
    ensures Struck(s.anchor) in Body(s.kind, s.anchor, s.text) <==> s.kind in {"REPLACE", "REMOVE"}
  {
    var b := Body(s.kind, s.anchor, s.text);
    if |b| == 1 {
      assert Words(b) == [s.anchor] by {
        assert Words(b[1..]) == [];
      }
    } else {
      WordsOfTriple(b[0], b[1], b[2]);
      assert b == [b[0], b[1], b[2]];
    }
  }

  /** The words of a three-segment body whose middle is a separator. */
  lemma WordsOfTriple(x: Segment, y: Segment, z: Segment)
    requires y == Space || y == LineBreak
    requires !(x == Space || x == LineBreak) && !(z == Space || z == LineBreak)
    ensures Words([x, y, z]) == [x.s, z.s]
  {
    var b := [x, y, z];
    assert b[1..][1..] == [z] && [z][1..] == [];
    assert Words([z]) == [z.s];
    assert Words(b[1..]) == [z.s];
  }

  /**
   * A type named after an inherited key renders an untitled card with an empty
   * body, gated like any other editing type.
   */
  lemma InheritedKeyUntitled(p: Props)
    requires p.suggestion.kind in INHERITED_KEYS
    ensures Render(p).Success?
    ensures Render(p).value.header.Some? && Render(p).value.header.value.info.None?
    ensures Render(p).value.body == []
    ensures Render(p).value.actionBar.Some? && |Render(p).value.actionBar.value| > 0 <==> !StatusTruthy(p.status)
  {
  }

  /** The open-thread button appears only outside the thread view and while hovered. */
  lemma OpenThreadGating(p: Props)
    requires Render(p).Success? && Render(p).value.header.Some?
    ensures Render(p).value.header.value.openThread <==> !p.isThreadView && p.isHovered
  {
  }
}
