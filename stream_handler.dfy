/** Draining a streamed model response into one string. */
module StreamHandler {
  import opened Values
  import opened Turns

  /** What `chunk.text` holds: a zero-argument accessor, represented by what
      calling it does (`Some(v)` when it returns `v`, `None` when it throws),
      a string, or anything else. */
  datatype ChunkText = Accessor(result: Option<Value>) | Text(s: string) | OtherText

  datatype CandidateContent = CandidateContent(parts: Option<seq<Part>>)
  datatype Candidate = Candidate(content: Option<CandidateContent>)

  datatype Chunk = Chunk(text: ChunkText, candidates: Option<seq<Candidate>>)

  /** `chunk.candidates[0].content.parts[0].text`, when every step of that
      path exists. */
  function Fallback(c: Chunk): (r: Option<Value>)
    ensures r.Some? <==>
      && c.candidates.Some? && |c.candidates.value| > 0
      && c.candidates.value[0].content.Some?
      && c.candidates.value[0].content.value.parts.Some?
      && |c.candidates.value[0].content.value.parts.value| > 0
  {
    match c.candidates
    case None => None
    case Some(cands) =>
      if |cands| == 0 then None
      else match cands[0].content
        case None => None
        case Some(content) =>
          match content.parts
          case None => None
          case Some(parts) => if |parts| == 0 then None else Some(parts[0].text)
  }

  /** What one chunk adds to the response; `None` when reading it throws. */
  function Contribution(c: Chunk): (r: Option<string>)
    ensures r.None? <==> c.text == Accessor(None)
  {
    match c.text
    case Accessor(None) => None
    case Accessor(Some(v)) => Some(Render(v))
    case Text(s) => Some(s)
    case OtherText =>
      match Fallback(c)
      case Some(v) => Some(Render(v))
      case None => Some("")
  }

  /** Concatenation of two partial results; a failure on either side wins. */
  function Concat(x: Option<string>, y: Option<string>): Option<string> {
    if x.Some? && y.Some? then Some(x.value + y.value) else None
  }

  /** The chunks' contributions concatenated in arrival order, or `None` when
      some chunk throws (the loop stops at the first one). */
  function Drain(chunks: seq<Chunk>): (r: Option<string>)
    ensures r.None? <==> exists i :: 0 <= i < |chunks| && chunks[i].text == Accessor(None)
  {
    if chunks == [] then Some("")
    else
      Concat(Drain(chunks[..|chunks| - 1]), Contribution(chunks[|chunks| - 1]))
  }

  /** `extractTextFromStream`: the loop that accumulates every chunk; `None`
      when reading a chunk throws, which rejects the whole extraction. */
  method ExtractTextFromStream(stream: seq<Chunk>) returns (r: Option<string>)
    ensures r == Drain(stream)
  {
    var fullResponse := "";
    var i := 0;
    while i < |stream|
      invariant 0 <= i <= |stream|
      invariant Drain(stream[..i]) == Some(fullResponse)
    {
      var chunk := stream[i];
      assert stream[..i + 1] == stream[..i] + [chunk];
      DrainSnoc(stream[..i], chunk);
      ConcatUnit(Some(fullResponse));
      match chunk.text {
        case Accessor(result) =>
          if result.None? {
            DrainFailsFrom(stream, i);
            return None;
          }
          fullResponse := fullResponse + Render(result.value);
        case Text(s) =>
          fullResponse := fullResponse + s;
        case OtherText =>
          if chunk.candidates.Some? && |chunk.candidates.value| > 0
             && chunk.candidates.value[0].content.Some?
             && chunk.candidates.value[0].content.value.parts.Some?
             && |chunk.candidates.value[0].content.value.parts.value| > 0
          {
            fullResponse := fullResponse + Render(chunk.candidates.value[0].content.value.parts.value[0].text);
          }
      }
      i := i + 1;
    }
    assert stream[..i] == stream;
    return Some(fullResponse);
  }

  /** A throwing chunk at index `i` makes the whole stream fail. */
  lemma DrainFailsFrom(stream: seq<Chunk>, i: nat)
    requires i < |stream| && stream[i].text == Accessor(None)
    ensures Drain(stream).None?
  {
  }

  /** Draining is a homomorphism: the response for a stream split in two is
      the two responses one after the other, so order is kept and nothing is
      lost or added between chunks. */
  lemma {:induction false} DrainAppend(a: seq<Chunk>, b: seq<Chunk>)
    ensures Drain(a + b) == Concat(Drain(a), Drain(b))
  {
    if b == [] {
      assert a + b == a;
      ConcatUnit(Drain(a));
    } else {
      var front, last := b[..|b| - 1], b[|b| - 1];
      assert b == front + [last];
      assert a + b == (a + front) + [last];
      DrainSnoc(a + front, last);
      DrainSnoc(front, last);
      DrainAppend(a, front);
      ConcatAssociative(Drain(a), Drain(front), Contribution(last));
    }
  }

  /** One more chunk appends its own contribution. */
  lemma DrainSnoc(cs: seq<Chunk>, c: Chunk)
    ensures Drain(cs + [c]) == Concat(Drain(cs), Contribution(c))
  {
    var s := cs + [c];
    assert s[..|s| - 1] == cs;
    assert Drain(s) == Concat(Drain(s[..|s| - 1]), Contribution(s[|s| - 1]));
  }

  /** Each chunk alone contributes exactly its own text. */
  lemma DrainSingle(c: Chunk)
    ensures Drain([c]) == Contribution(c)
  {
    DrainSnoc([], c);
    assert [] + [c] == [c];
    ConcatUnit(Contribution(c));
  }

  /** An accessor chunk returning `foo` followed by a string chunk `bar`
      drain to `foobar`. */
  lemma AccessorThenString()
    ensures Drain([Chunk(Accessor(Some(Str("foo"))), None), Chunk(Text("bar"), None)]) == Some("foobar")
  {
    var cs := [Chunk(Accessor(Some(Str("foo"))), None), Chunk(Text("bar"), None)];
    DrainSingle(cs[0]);
    DrainSnoc([cs[0]], cs[1]);
    assert [cs[0]] + [cs[1]] == cs;
    assert "foo" + "bar" == "foobar";
  }

  /** A chunk with neither a usable text nor the candidate path adds nothing. */
  lemma UnusableChunkAddsNothing(prefix: seq<Chunk>, c: Chunk)
    requires c.text.OtherText? && Fallback(c).None?
    ensures Drain(prefix + [c]) == Drain(prefix)
  {
    DrainSnoc(prefix, c);
    if Drain(prefix).Some? {
      assert Drain(prefix).value + "" == Drain(prefix).value;
    }
  }

  /** The empty text is a unit of `Concat` on both sides. */
  lemma ConcatUnit(x: Option<string>)
    ensures Concat(x, Some("")) == x && Concat(Some(""), x) == x
  {
    if x.Some? {
      assert x.value + "" == x.value;
      assert "" + x.value == x.value;
    }
  }

  lemma ConcatAssociative(x: Option<string>, y: Option<string>, z: Option<string>)
    ensures Concat(Concat(x, y), z) == Concat(x, Concat(y, z))
  {
    if x.Some? && y.Some? && z.Some? {
      assert (x.value + y.value) + z.value == x.value + (y.value + z.value);
    }
  }
}
