/**
 * The conversation data shared by the browser client and the chat endpoint:
 * suggestions (the server calls them comments), message payloads, messages,
 * and the three ways a request to the endpoint can come back.
 */
module Messages {
  import opened Common

  datatype Role = System | User | Assistant

  /**
   * One suggestion as the client holds it. `kind` is the wire string
   * ('REPLACE', 'ADD_BEFORE', 'ADD_AFTER', 'REMOVE', 'QUESTION' or the
   * client-made 'THREAD-STARTER'); it stays a string because every consumer
   * compares it against string literals and treats other strings its own way.
   */
  datatype Suggestion = Suggestion(id: Option<int>, kind: string, anchor: string, text: string)

  /** The structured body of an assistant message: `{chat_text?, comments}`. */
  datatype Payload = Payload(chatText: Option<string>, comments: seq<Suggestion>)

  /** Message content: a plain string, or the dictionary a structured reply decodes to. */
  datatype Content = Text(text: string) | Structured(payload: Payload)

  datatype Message = Message(role: Role, content: Content)

  /**
   * What awaiting `fetch('/chat')` and `response.json()` yields: a decoded
   * body without a truthy `error` field, a body with one, or a thrown
   * exception (transport failure or a body that is not JSON).
   */
  datatype Reply = Answer(data: Payload) | ErrorField(error: string) | Thrown

  const THREAD_STARTER: string := "THREAD-STARTER"

  /** Lower-case hexadecimal digit, as JSON.stringify writes in `\u00XX`. */
  function HexDigit(d: nat): char
    requires d < 16
  {
    if d < 10 then ('0' as int + d) as char else ('a' as int + d - 10) as char
  }

  /** The JSON.stringify escape of one character inside a string literal. */
  function JsonChar(c: char): string
  {
    if c == '"' then "\\\""
    else if c == '\\' then "\\\\"
    else if c as int == 0x08 then "\\b"
    else if c as int == 0x0C then "\\f"
    else if c == '\n' then "\\n"
    else if c == '\r' then "\\r"
    else if c == '\t' then "\\t"
    else if (c as int) < 0x20 then "\\u00" + [HexDigit(c as int / 16), HexDigit(c as int % 16)]
    else [c]
  }

  function JsonEscape(s: string): string
  {
    if s == [] then [] else JsonChar(s[0]) + JsonEscape(s[1..])
  }

  function JsonString(s: string): string
  {
    "\"" + JsonEscape(s) + "\""
  }

  function JsonSuggestion(c: Suggestion): string
  {
    "{\"anchor\":" + JsonString(c.anchor) + ",\"text\":" + JsonString(c.text) +
    ",\"type\":" + JsonString(c.kind) + "}"
  }

  function JsonList(cs: seq<Suggestion>): string
  {
    if cs == [] then []
    else JsonSuggestion(cs[0]) + (if |cs| == 1 then [] else "," + JsonList(cs[1..]))
  }

  /**
   * `JSON.stringify(data)` for a reply body. The endpoint's JSON writer sorts
   * keys, so they arrive as chat_text, comments and anchor, text, type.
   */
  function Json(p: Payload): string
  {
    var chat := match p.chatText
      case None => ""
      case Some(t) => "\"chat_text\":" + JsonString(t) + ",";
    "{" + chat + "\"comments\":[" + JsonList(p.comments) + "]}"
  }

  /** Python's quote choice for `repr` of a str: double quotes only when that avoids escaping. */
  function PyQuote(s: string): char
  {
    if '\'' in s && '"' !in s then '"' else '\''
  }

  function PyEscape(s: string, q: char): string
  {
    if s == [] then []
    else
      var c := s[0];
      var e := if c == '\\' then "\\\\" else if c == q then ['\\', q]
               else if c == '\n' then "\\n" else if c == '\r' then "\\r"
               else if c == '\t' then "\\t" else [c];
      e + PyEscape(s[1..], q)
  }

  function PyString(s: string): string
  {
    var q := PyQuote(s);
    [q] + PyEscape(s, q) + [q]
  }

  function PySuggestion(c: Suggestion): string
  {
    var id := match c.id
      case None => ""
      case Some(n) => ", 'id': " + IntToString(n);
    "{'anchor': " + PyString(c.anchor) + ", 'text': " + PyString(c.text) +
    ", 'type': " + PyString(c.kind) + id + "}"
  }

  function PyList(cs: seq<Suggestion>): string
  {
    if cs == [] then []
    else PySuggestion(cs[0]) + (if |cs| == 1 then [] else ", " + PyList(cs[1..]))
  }

  /** Python's `str(content)` of a structured content dictionary. */
  function PyRepr(p: Payload): string
  {
    var chat := match p.chatText
      case None => ""
      case Some(t) => "'chat_text': " + PyString(t) + ", ";
    "{" + chat + "'comments': [" + PyList(p.comments) + "]}"
  }

  function NatToString(n: nat): string
    decreases n
  {
    if n < 10 then [('0' as int + n) as char]
    else NatToString(n / 10) + [('0' as int + n % 10) as char]
  }

  function IntToString(n: int): string
  {
    if n < 0 then "-" + NatToString(-n) else NatToString(n)
  }
}
