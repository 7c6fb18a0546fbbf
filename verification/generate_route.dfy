/** POST /api/generate-answers (src/app/api/generate-answers/route.ts): one
    language-model call over the whole career document, whose reply is cut
    down to its outermost JSON object and parsed, with a one-answer fallback
    when that fails. The model and `JSON.parse` are parameters: `generate`
    maps the document to the reply text (None when the call threw), `parse`
    maps a JSON text to the object read from it (None when it threw). */
module GenerateRoute {
  import opened Common
  import opened Text

  /** The `content` member of the request body, by how the route treats it:
      a string, or another value that is falsy (absent, null, false, 0) or
      truthy (which has no `trim` method). */
  datatype Content = Given(text: string) | Falsy | TruthyNonString

  /** What `JSON.parse` yields, reduced to its `answers` member: None when
      that member is missing or falsy. */
  datatype ParsedReply = ParsedReply(answers: Option<seq<StarAnswer>>)

  datatype GenerateResponse =
    | BadRequest                                          // 400
    | ServerError                                         // 500
    | Generated(answers: seq<StarAnswer>, count: nat)     // { answers, count }

  /** `text.match(/\{[\s\S]*\}/)`: from the first `{` to the last `}` after
      it. There is a match exactly when some `}` follows some `{`, and it is
      then the piece of the reply between the outermost braces. */
  function ExtractJson(text: string): (r: Option<string>)
    ensures r.Some? <==> exists i, j :: 0 <= i < j < |text| && text[i] == '{' && text[j] == '}'
    ensures r.Some? ==> exists i, j :: OuterBraces(text, i, j) && r.value == text[i..j + 1]
  {
    BracePairIffOrdered(text);
    var first, last := IndexOf(text, '{'), LastIndexOf(text, '}');
    if first.Some? && last.Some? && first.value < last.value then
      assert OuterBraces(text, first.value, last.value);
      Some(text[first.value..last.value + 1])
    else None
  }

  /** Position `i` holds a `{` with none before it, and position `j`, after
      it, holds a `}` with none after it. */
  predicate OuterBraces(text: string, i: int, j: int)
  {
    && 0 <= i < j < |text| && text[i] == '{' && text[j] == '}'
    && (forall k :: 0 <= k < i ==> text[k] != '{')
    && (forall k :: j < k < |text| ==> text[k] != '}')
  }

  /** Some `}` follows some `{` exactly when the last `}` follows the first
      `{`. */
  lemma BracePairIffOrdered(text: string)
    ensures (exists i, j :: 0 <= i < j < |text| && text[i] == '{' && text[j] == '}') <==>
      (IndexOf(text, '{').Some? && LastIndexOf(text, '}').Some? && IndexOf(text, '{').value < LastIndexOf(text, '}').value)
  {
    if exists i, j :: 0 <= i < j < |text| && text[i] == '{' && text[j] == '}' {
      var i, j :| 0 <= i < j < |text| && text[i] == '{' && text[j] == '}';
      assert IndexOf(text, '{').value <= i;
      assert LastIndexOf(text, '}').value >= j;
    }
  }

  /** The answer returned when no JSON could be read: the whole reply as
      the full answer of one general answer with empty STAR parts. */
  function FallbackAnswer(text: string): StarAnswer
  {
    StarAnswer(1, "General", "Career Summary", "", "", "", "", Some(text))
  }

  /** The inner `try`: the parsed object's answers (none when it has no
      `answers`), or the fallback when there is no JSON object in the reply
      or it does not parse. */
  function ReadAnswers(text: string, parse: string -> Option<ParsedReply>): (answers: seq<StarAnswer>)
    ensures ExtractJson(text).None? ==> answers == [FallbackAnswer(text)]
    ensures ExtractJson(text).Some? ==>
      var parsed := parse(ExtractJson(text).value);
      answers == match parsed
        case None => [FallbackAnswer(text)]
        case Some(ParsedReply(None)) => []
        case Some(ParsedReply(Some(list))) => list
  {
    match ExtractJson(text)
    case None => [FallbackAnswer(text)]
    case Some(json) =>
      match parse(json)
      case None => [FallbackAnswer(text)]
      case Some(reply) => if reply.answers.Some? then reply.answers.value else []
  }

  /** The route. A body that is not JSON, a `content` that is truthy but not
      a string, or a failed model call is a 500. Missing, empty or
      whitespace-only content is a 400 and the model is never asked.
      Otherwise the answers read from the reply are returned with their
      number. */
  function GenerateAnswers(
    body: Option<Content>, generate: string -> Option<string>, parse: string -> Option<ParsedReply>): (r: GenerateResponse)
    ensures body.None? || body == Some(TruthyNonString) ==> r == ServerError
    ensures body == Some(Falsy) ==> r == BadRequest
    ensures body.Some? && body.value.Given? ==>
      (r == BadRequest <==> IsBlank(body.value.text))
    ensures r.Generated? <==>
      body.Some? && body.value.Given? && !IsBlank(body.value.text) && generate(body.value.text).Some?
    ensures r.Generated? ==>
      r.count == |r.answers| && r.answers == ReadAnswers(generate(body.value.text).value, parse)
  {
    match body
    case None => ServerError
    case Some(Falsy) => BadRequest
    case Some(TruthyNonString) => ServerError
    case Some(Given(content)) =>
      TrimEmptyIffBlank(content);
      if content == "" || |Trim(content)| == 0 then BadRequest
      else match generate(content)
        case None => ServerError
        case Some(text) =>
          var answers := ReadAnswers(text, parse);
          Generated(answers, |answers|)
  }

  /** Blank content is refused before the model is consulted: the answer
      does not depend on the model at all. */
  lemma BlankContentNeverCallsModel(
    content: string, g1: string -> Option<string>, g2: string -> Option<string>, parse: string -> Option<ParsedReply>)
    requires IsBlank(content)
    ensures GenerateAnswers(Some(Given(content)), g1, parse) == GenerateAnswers(Some(Given(content)), g2, parse) == BadRequest
  {
  }

  /** Nothing of the reply is lost when it holds no JSON object: the one
      answer returned carries all of it. */
  lemma ReplyWithoutObjectIsKept(text: string, parse: string -> Option<ParsedReply>)
    requires '{' !in text
    ensures ReadAnswers(text, parse) == [FallbackAnswer(text)]
    ensures ReadAnswers(text, parse)[0].fullAnswer == Some(text)
  {
  }

  /** A reply that is exactly one JSON object is handed to the parser whole,
      and text around it is cut off only up to the braces. */
  lemma ObjectReplyParsedWhole(prefix: string, json: string, suffix: string)
    requires 2 <= |json| && json[0] == '{' && json[|json| - 1] == '}'
    requires '{' !in prefix && '}' !in suffix
    ensures ExtractJson(prefix + json + suffix) == Some(json)
  {
    var text := prefix + json + suffix;
    var p, q := |prefix|, |prefix| + |json| - 1;
    assert text[p] == '{' && text[q] == '}';
    var r := ExtractJson(text);
    assert r.Some?;
    var i, j :| OuterBraces(text, i, j) && r.value == text[i..j + 1];
    assert i == p && j == q;
    assert text[p..q + 1] == json;
  }
}
