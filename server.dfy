/**
 * The message normalizer of the `/chat` endpoint (app.py, `chat()`): the
 * in-place thread-starter rewrite, the dictionary-to-string pass and the
 * empty-list check, up to the point where the list is handed to the
 * completion service.
 */
module Server {
  import opened Common
  import opened Messages

  /** The two Python exceptions the normalizer can raise; Flask answers them with status 500. */
  datatype PyError = TypeError(message: string) | AttributeError(message: string)

  /** The decoded JSON body: `data.get('messages')` is `None` when the key is missing or null. */
  datatype Request = Request(messages: Option<seq<Message>>)

  datatype Response =
    | Forward(messages: seq<Message>)
    | BadRequest(status: int, error: string)
    | InternalError(status: int, exception: PyError)

  const FOCUS_PREFIX: string := "Focus your response on this part of the text: "
  const MESSAGES_REQUIRED: string := "Messages are required"
  const NOT_ITERABLE: PyError := TypeError("'NoneType' object is not iterable")
  const STR_HAS_NO_GET: PyError := AttributeError("'str' object has no attribute 'get'")

  predicate IsStarter(c: Suggestion)
  {
    c.kind == THREAD_STARTER
  }

  /** Where the inner `for comment in comments` loop breaks: the first thread starter. */
  function FirstStarter(cs: seq<Suggestion>): (r: Option<nat>)
    ensures r.Some? ==> r.value < |cs| && IsStarter(cs[r.value])
    ensures r.Some? ==> forall j :: 0 <= j < r.value ==> !IsStarter(cs[j])
    ensures r.None? <==> forall j :: 0 <= j < |cs| ==> !IsStarter(cs[j])
  {
    if cs == [] then None
    else if IsStarter(cs[0]) then Some(0)
    else match FirstStarter(cs[1..])
      case None => None
      case Some(k) => Some(k + 1)
  }

  /** The focus instruction that replaces a thread-starting assistant message. */
  function FocusMessage(anchor: string): Message
  {
    Message(System, Text(FOCUS_PREFIX + anchor))
  }

  /**
   * One iteration of the rewrite loop: an assistant message whose comments hold
   * a thread starter becomes the focus instruction for the first one; calling
   * `.get` on the content of an assistant message whose content is a string raises.
   */
  function Rewrite(m: Message): Result<Message, PyError>
  {
    if m.role != Assistant then Success(m)
    else match m.content
      case Text(_) => Failure(STR_HAS_NO_GET)
      case Structured(p) =>
        match FirstStarter(p.comments)
        case None => Success(m)
        case Some(k) => Success(FocusMessage(p.comments[k].anchor))
  }

  /** The whole rewrite loop: the first message that raises ends it. */
  function RewriteAll(ms: seq<Message>): Result<seq<Message>, PyError>
  {
    if ms == [] then Success([])
    else match Rewrite(ms[0])
      case Failure(e) => Failure(e)
      case Success(m) =>
        match RewriteAll(ms[1..])
        case Failure(e) => Failure(e)
        case Success(rest) => Success([m] + rest)
  }

  /** One element of the comprehension: assistant dictionary content becomes its `str`. */
  function Stringify(m: Message): Message
  {
    if m.role == Assistant && m.content.Structured? then Message(Assistant, Text(PyRepr(m.content.payload)))
    else m
  }

  /**
   * The comprehension: no assistant message with dictionary content is left,
   * such a message becomes its `str` in place, and every other message is kept.
   */
  function StringifyAll(ms: seq<Message>): (r: seq<Message>)
    ensures |r| == |ms|
    ensures forall i :: 0 <= i < |r| ==> !(r[i].role == Assistant && r[i].content.Structured?)
    ensures forall i :: 0 <= i < |ms| && !(ms[i].role == Assistant && ms[i].content.Structured?) ==>
      r[i] == ms[i]
    ensures forall i :: 0 <= i < |ms| && ms[i].role == Assistant && ms[i].content.Structured? ==>
      r[i] == Message(Assistant, Text(PyRepr(ms[i].content.payload)))
  {
    seq(|ms|, i requires 0 <= i < |ms| => Stringify(ms[i]))
  }

  /** What `chat()` does with a request body before the completion call. */
  function Handle(req: Request): Response
  {
    match req.messages
    case None => InternalError(500, NOT_ITERABLE)
    case Some(ms) =>
      match RewriteAll(ms)
      case Failure(e) => InternalError(500, e)
      case Success(rs) =>
        var out := StringifyAll(rs);
        if out == [] then BadRequest(400, MESSAGES_REQUIRED) else Forward(out)
  }

  /** The rewrite loop is an index-wise map that stops at the first message that raises. */
  lemma {:induction false} RewriteAllIndexwise(ms: seq<Message>)
    ensures RewriteAll(ms).Success? <==> forall i :: 0 <= i < |ms| ==> Rewrite(ms[i]).Success?
    ensures RewriteAll(ms).Success? ==>
      |RewriteAll(ms).value| == |ms| &&
      forall i :: 0 <= i < |ms| ==> RewriteAll(ms).value[i] == Rewrite(ms[i]).value
    ensures RewriteAll(ms).Failure? ==>
      exists k :: 0 <= k < |ms| && Rewrite(ms[k]) == Failure(RewriteAll(ms).error) &&
        forall j :: 0 <= j < k ==> Rewrite(ms[j]).Success?
  {
    if ms != [] {
      RewriteAllIndexwise(ms[1..]);
      assert forall i :: 1 <= i < |ms| ==> ms[1..][i - 1] == ms[i];
      if Rewrite(ms[0]).Success? && RewriteAll(ms[1..]).Failure? {
        var k :| 0 <= k < |ms[1..]| && Rewrite(ms[1..][k]) == Failure(RewriteAll(ms[1..]).error) &&
          forall j :: 0 <= j < k ==> Rewrite(ms[1..][j]).Success?;
        assert Rewrite(ms[k + 1]) == Failure(RewriteAll(ms).error);
      }
      if RewriteAll(ms).Failure? && Rewrite(ms[0]).Failure? {
        assert Rewrite(ms[0]) == Failure(RewriteAll(ms).error);
      }
    }
  }

  /**
   * The first pass as the source runs it: over the list in place, overwriting
   * `messages[i]` and leaving the comment scan at the first thread starter.
   */
  method RewriteInPlace(messages: array<Message>) returns (err: Option<PyError>)
    modifies messages
    ensures err.None? ==> RewriteAll(old(messages[..])) == Success(messages[..])
    ensures err.Some? ==> RewriteAll(old(messages[..])) == Failure(err.value)
  {
    ghost var input := messages[..];
    RewriteAllIndexwise(input);
    var i := 0;
    while i < messages.Length
      invariant 0 <= i <= messages.Length
      invariant forall k :: 0 <= k < i ==> Rewrite(input[k]).Success? && messages[k] == Rewrite(input[k]).value
      invariant forall k :: i <= k < messages.Length ==> messages[k] == input[k]
    {
      var message := messages[i];
      if message.role == Assistant {
        match message.content
        case Text(_) =>
          assert Rewrite(input[i]) == Failure(STR_HAS_NO_GET);
          return Some(STR_HAS_NO_GET);
        case Structured(content) =>
          var comments := content.comments;
          var j := 0;
          while j < |comments|
            invariant 0 <= j <= |comments|
            invariant forall k :: 0 <= k < j ==> !IsStarter(comments[k])
            invariant messages[i] == input[i]
            invariant forall k :: 0 <= k < i ==> messages[k] == Rewrite(input[k]).value
            invariant forall k :: i < k < messages.Length ==> messages[k] == input[k]
          {
            if comments[j].kind == THREAD_STARTER {
              messages[i] := Message(System, Text(FOCUS_PREFIX + comments[j].anchor));
              break;
            }
            j := j + 1;
          }
      }
      i := i + 1;
    }
    assert messages[..] == RewriteAll(input).value;
    return None;
  }

  /** `chat()` up to the completion call. */
  method Chat(req: Request) returns (resp: Response)
    ensures resp == Handle(req)
  {
    if req.messages.None? {
      return InternalError(500, NOT_ITERABLE);
    }
    var ms := req.messages.value;
    var list := new Message[|ms|](i requires 0 <= i < |ms| => ms[i]);
    assert list[..] == ms;
    var err := RewriteInPlace(list);
    if err.Some? {
      return InternalError(500, err.value);
    }
    var out := StringifyAll(list[..]);
    if out == [] {
      return BadRequest(400, MESSAGES_REQUIRED);
    }
    return Forward(out);
  }

  /** Both passes are index-wise: length and order are kept, and message i depends on input i only. */
  lemma LengthAndOrderKept(ms: seq<Message>)
    requires Handle(Request(Some(ms))).Forward?
    ensures |Handle(Request(Some(ms))).messages| == |ms|
    ensures forall i :: 0 <= i < |ms| ==>
      Rewrite(ms[i]).Success? && Handle(Request(Some(ms))).messages[i] == Stringify(Rewrite(ms[i]).value)
  {
    RewriteAllIndexwise(ms);
  }

  /** User and system messages reach the completion service exactly as sent. */
  lemma NonAssistantUnchanged(ms: seq<Message>, i: int)
    requires Handle(Request(Some(ms))).Forward?
    requires 0 <= i < |ms| && ms[i].role != Assistant
    ensures |Handle(Request(Some(ms))).messages| == |ms|
    ensures Handle(Request(Some(ms))).messages[i] == ms[i]
  {
    RewriteAllIndexwise(ms);
  }

  /** An assistant message with a thread starter becomes the focus instruction for the first one. */
  lemma StarterBecomesFocus(ms: seq<Message>, i: int, k: int)
    requires Handle(Request(Some(ms))).Forward?
    requires 0 <= i < |ms| && ms[i].role == Assistant && ms[i].content.Structured?
    requires 0 <= k < |ms[i].content.payload.comments|
    requires IsStarter(ms[i].content.payload.comments[k])
    requires forall j :: 0 <= j < k ==> !IsStarter(ms[i].content.payload.comments[j])
    ensures |Handle(Request(Some(ms))).messages| == |ms|
    ensures Handle(Request(Some(ms))).messages[i] ==
      Message(System, Text(FOCUS_PREFIX + ms[i].content.payload.comments[k].anchor))
  {
    RewriteAllIndexwise(ms);
    var cs := ms[i].content.payload.comments;
    assert FirstStarter(cs) == Some(k);
  }

  /** Any other assistant dictionary content is sent as its Python `str`. */
  lemma AssistantDictStringified(ms: seq<Message>, i: int)
    requires Handle(Request(Some(ms))).Forward?
    requires 0 <= i < |ms| && ms[i].role == Assistant && ms[i].content.Structured?
    requires forall j :: 0 <= j < |ms[i].content.payload.comments| ==> !IsStarter(ms[i].content.payload.comments[j])
    ensures |Handle(Request(Some(ms))).messages| == |ms|
    ensures Handle(Request(Some(ms))).messages[i] == Message(Assistant, Text(PyRepr(ms[i].content.payload)))
  {
    RewriteAllIndexwise(ms);
  }

  /** No message handed to the completion service is an assistant message with dictionary content. */
  lemma NoAssistantDictForwarded(ms: seq<Message>)
    requires Handle(Request(Some(ms))).Forward?
    ensures forall m :: m in Handle(Request(Some(ms))).messages ==> !(m.role == Assistant && m.content.Structured?)
  {
    RewriteAllIndexwise(ms);
    var out := Handle(Request(Some(ms))).messages;
    forall m | m in out ensures !(m.role == Assistant && m.content.Structured?) {
      var i :| 0 <= i < |out| && out[i] == m;
    }
  }

  /** The empty-list check: after the length-preserving passes it rejects exactly the empty input. */
  lemma EmptyRejected(ms: seq<Message>)
    ensures Handle(Request(Some(ms))) == BadRequest(400, MESSAGES_REQUIRED) <==> ms == []
    ensures ms == [] ==> Handle(Request(Some(ms))) == BadRequest(400, MESSAGES_REQUIRED)
  {
    RewriteAllIndexwise(ms);
  }

  /**
   * The two ways the endpoint raises: a missing `messages` list, and an
   * assistant message whose content is a string (the first such message decides).
   */
  lemma RaisesIff(ms: seq<Message>)
    ensures Handle(Request(None)) == InternalError(500, NOT_ITERABLE)
    ensures Handle(Request(Some(ms))).InternalError? <==>
      exists i :: 0 <= i < |ms| && ms[i].role == Assistant && ms[i].content.Text?
    ensures Handle(Request(Some(ms))).InternalError? ==> Handle(Request(Some(ms))) == InternalError(500, STR_HAS_NO_GET)
  {
    RewriteAllIndexwise(ms);
    if exists i :: 0 <= i < |ms| && ms[i].role == Assistant && ms[i].content.Text? {
      var i :| 0 <= i < |ms| && ms[i].role == Assistant && ms[i].content.Text?;
      assert Rewrite(ms[i]).Failure?;
    }
  }

  /**
   * The first pass as evidently intended: the second pass already expects
   * assistant messages whose content is not a dictionary, and the client's main
   * chat stores its replies as strings, so such a message is left as it is.
   */
  function RewriteCorrected(m: Message): Message
  {
    if m.role == Assistant && m.content.Structured? then
      match FirstStarter(m.content.payload.comments)
      case None => m
      case Some(k) => FocusMessage(m.content.payload.comments[k].anchor)
    else m
  }

  function HandleCorrected(req: Request): Response
  {
    match req.messages
    case None => InternalError(500, NOT_ITERABLE)
    case Some(ms) =>
      var out := StringifyAll(seq(|ms|, i requires 0 <= i < |ms| => RewriteCorrected(ms[i])));
      if out == [] then BadRequest(400, MESSAGES_REQUIRED) else Forward(out)
  }

  /** The corrected endpoint answers every request the original answers, and in the same way. */
  lemma CorrectedAgreesWhereDefined(ms: seq<Message>)
    requires !Handle(Request(Some(ms))).InternalError?
    ensures HandleCorrected(Request(Some(ms))) == Handle(Request(Some(ms)))
  {
    RewriteAllIndexwise(ms);
    var rs := RewriteAll(ms).value;
    var cs := seq(|ms|, i requires 0 <= i < |ms| => RewriteCorrected(ms[i]));
    assert cs == rs;
  }

  /** The corrected endpoint never raises on a list, and forwards assistant strings unchanged. */
  lemma CorrectedForwardsStrings(ms: seq<Message>, i: int)
    requires 0 <= i < |ms| && ms[i].role == Assistant && ms[i].content.Text?
    ensures HandleCorrected(Request(Some(ms))).Forward?
    ensures |HandleCorrected(Request(Some(ms))).messages| == |ms|
    ensures HandleCorrected(Request(Some(ms))).messages[i] == ms[i]
  {
  }
}
