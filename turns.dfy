/** Conversation turns `{role, text}` and the chat format `{role, parts: [{text}]}`
    that the hosted model client expects. */
module Turns {
  import opened Values

  const USER: Value := Str("user")
  const MODEL: Value := Str("model")

  /** The input a client sends to open a session without real content. */
  const SENTINEL := "start interview"

  datatype Turn = Turn(role: Value, text: Value)

  function UserTurn(text: Value): Turn { Turn(USER, text) }
  function ModelTurn(text: Value): Turn { Turn(MODEL, text) }

  predicate IsModelTurn(t: Turn) { t.role == MODEL }

  datatype Part = Part(text: Value)
  datatype Content = Content(role: Value, parts: seq<Part>)

  /** `({ role, text }) => ({ role, parts: [{ text }] })` */
  function ToContent(t: Turn): Content {
    Content(t.role, [Part(t.text)])
  }

  /** The element-wise conversion of a whole history (an `Array.prototype.map`). */
  function ToContents(h: seq<Turn>): (cs: seq<Content>)
    ensures |cs| == |h|
  {
    if h == [] then [] else [ToContent(h[0])] + ToContents(h[1..])
  }

  /** Reads a history back from chat format: the role and the first part's text. */
  function FromContents(cs: seq<Content>): (h: seq<Turn>)
    ensures |h| == |cs|
  {
    if cs == [] then []
    else
      var text := if cs[0].parts == [] then Undefined else cs[0].parts[0].text;
      [Turn(cs[0].role, text)] + FromContents(cs[1..])
  }

  /** Each turn becomes one content with its own role and exactly one part
      holding its text, at the same position. */
  lemma {:induction false} ToContentsAt(h: seq<Turn>, i: nat)
    requires i < |h|
    ensures ToContents(h)[i] == Content(h[i].role, [Part(h[i].text)])
  {
    if i > 0 {
      ToContentsAt(h[1..], i - 1);
    }
  }

  /** The conversion loses nothing: reading the chat format back gives the
      original history. */
  lemma {:induction false} ContentsRoundTrip(h: seq<Turn>)
    ensures FromContents(ToContents(h)) == h
  {
    if h != [] {
      ContentsRoundTrip(h[1..]);
      assert ToContents(h)[1..] == ToContents(h[1..]);
    }
  }

  /** The conversion distributes over concatenation, so it keeps order. */
  lemma {:induction false} ToContentsAppend(a: seq<Turn>, b: seq<Turn>)
    ensures ToContents(a + b) == ToContents(a) + ToContents(b)
  {
    if a != [] {
      assert (a + b)[0] == a[0] && (a + b)[1..] == a[1..] + b;
      ToContentsAppend(a[1..], b);
      assert ToContents(a + b) == [ToContent(a[0])] + ToContents(a[1..] + b);
    } else {
      assert a + b == b;
    }
  }
}
