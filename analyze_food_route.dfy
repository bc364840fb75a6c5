/** The `POST /api/analyze-food` handler: it sends a meal photo to the vision model, strips
    the Markdown code fences the model tends to wrap its JSON in, and parses what is left.
    The model call and `JSON.parse` are parameters. */
module AnalyzeFoodRoute {
  import opened Wrappers
  import opened Js

  // ----- Fence stripping -----

  /** Whether `s` contains a backtick. */
  predicate HasBacktick(s: string) {
    exists k :: 0 <= k < |s| && s[k] == '`'
  }

  /** The left-to-right global replacement of the pattern ``` ```json\n?|\n?``` ``` by the
      empty string. At each position the first alternative is tried before the second, and each
      optional newline is taken when present; where neither alternative matches, the character
      is kept and the scan moves on by one. */
  function RemoveFences(s: string): (r: string)
    ensures |r| <= |s|
    ensures !HasBacktick(s) ==> r == s
    decreases |s|
  {
    if s == [] then []
    else if StartsWith(s, "```json\n") then
      assert s[..8][0] == s[0];
      RemoveFences(s[8..])
    else if StartsWith(s, "```json") then
      assert s[..7][0] == s[0];
      RemoveFences(s[7..])
    else if StartsWith(s, "\n```") then
      assert s[..4][1] == s[1];
      RemoveFences(s[4..])
    else if StartsWith(s, "```") then
      assert s[..3][0] == s[0];
      RemoveFences(s[3..])
    else
      var rest := RemoveFences(s[1..]);
      assert !HasBacktick(s) ==> !HasBacktick(s[1..]) by {
        if HasBacktick(s[1..]) {
          var k :| 0 <= k < |s[1..]| && s[1..][k] == '`';
          assert s[k + 1] == '`';
        }
      }
      [s[0]] + rest
  }

  /** The text handed to `JSON.parse`: the fences removed, then the white space trimmed. */
  function StripFences(content: string): (r: string)
    ensures !HasBacktick(content) ==> r == Trim(content)
  {
    Trim(RemoveFences(content))
  }

  const OpeningFence := "```json\n"
  const ClosingFence := "\n```"

  /** A string that differs from `x` at a position both have does not start with `x`. */
  lemma NotStartsWith(s: string, x: string, i: nat)
    requires i < |x| && i < |s| && s[i] != x[i]
    ensures !StartsWith(s, x)
  {
    if |x| <= |s| {
      assert s[..|x|][i] == s[i];
    }
  }

  /** A backtick-free payload followed by a closing fence loses the fence and nothing else,
      even when the payload itself ends with a newline. */
  lemma {:induction false} ClosingFenceRemoved(p: string)
    requires !HasBacktick(p)
    ensures RemoveFences(p + ClosingFence) == p
    decreases |p|
  {
    var s := p + ClosingFence;
    if p == [] {
      assert s == ClosingFence;
      assert s[4..] == [];
    } else {
      assert s[0] == p[0];
      if |p| >= 2 {
        assert s[1] == p[1];
      } else {
        assert s[1] == '\n';
      }
      NotStartsWith(s, "```json\n", 0);
      NotStartsWith(s, "```json", 0);
      NotStartsWith(s, "\n```", 1);
      NotStartsWith(s, "```", 0);
      assert forall k :: 0 <= k < |p[1..]| ==> p[1..][k] == p[k + 1];
      assert s[1..] == p[1..] + ClosingFence;
      ClosingFenceRemoved(p[1..]);
      assert [p[0]] + p[1..] == p;
    }
  }

  /** A payload wrapped in a json-tagged fence, ```` ```json\n P \n``` ````, strips to the trimmed
      payload: the same text `JSON.parse` would see for the bare payload. */
  lemma FencedPayload(p: string)
    requires !HasBacktick(p)
    ensures StripFences(OpeningFence + p + ClosingFence) == Trim(p) == StripFences(p)
  {
    var s := OpeningFence + p + ClosingFence;
    assert s[..8] == OpeningFence;
    assert s[8..] == p + ClosingFence;
    ClosingFenceRemoved(p);
  }

  // ----- The handler -----

  /** The request body: `req.json()` either yields the `imageUrl` field (absent or a string) or
      throws with a message. The `userId` field is read but never used. */
  datatype Body = Parsed(imageUrl: Option<string>) | Unparsable(message: string)

  /** The outcome of the chat-completions call: the first choice's content, which may be
      absent, or an exception with its message. */
  datatype VisionReply = Replied(content: Option<string>) | Threw(message: string)

  /** The JSON response: `{success: true, data}`, or an error with its status and, for a reply
      that did not parse, the raw reply. */
  datatype AnalyzeResponse<J> =
    | Success(data: J)
    | Failure(status: int, error: string, rawContent: Option<string>)

  const MissingImage := "URL da imagem é obrigatória"
  const MissingKey := "Chave da API OpenAI não configurada"
  const NoContent := "Não foi possível analisar a imagem"
  const BadReply := "Erro ao processar resposta da IA"
  const GenericError := "Erro ao processar imagem"

  /** A string value is truthy when present and non-empty. */
  predicate Present(v: Option<string>) {
    v.Some? && v.value != ""
  }

  /** What the outer `catch` answers for a thrown error: its message, or the generic sentence
      when the message is empty. */
  function ThrownError<J>(message: string): (r: AnalyzeResponse<J>)
    ensures r.Failure? && r.status == 500 && r.rawContent.None? && r.error != ""
    ensures message != "" ==> r.error == message
    ensures message == "" ==> r.error == GenericError
  {
    Failure(500, if message != "" then message else GenericError, None)
  }

  /** The handler, given the body, the configured API key, the model call on the image URL and
      `JSON.parse`. */
  function AnalyzeFoodPost<J>(body: Body, apiKey: Option<string>, complete: string -> VisionReply,
                              parse: string -> Option<J>): (r: AnalyzeResponse<J>)
    // Only 200, 400 and 500 are ever answered; 400 means exactly a missing image.
    ensures r.Failure? ==> r.status == 400 || r.status == 500
    ensures r.Failure? && r.status == 400 <==> body.Parsed? && !Present(body.imageUrl)
    // The image check comes first, the key check second.
    ensures body.Parsed? && Present(body.imageUrl) && !Present(apiKey) ==> r == Failure(500, MissingKey, None)
    // A body that does not parse and a model call that throws both reach the outer catch.
    ensures body.Unparsable? ==> r == ThrownError(body.message)
    ensures (body.Parsed? && Present(body.imageUrl) && Present(apiKey) && complete(body.imageUrl.value).Threw?) ==>
              r == ThrownError(complete(body.imageUrl.value).message)
    // An empty or absent reply, and a reply that does not parse, each have their own answer.
    ensures (body.Parsed? && Present(body.imageUrl) && Present(apiKey) &&
             complete(body.imageUrl.value).Replied? && !Present(complete(body.imageUrl.value).content)) ==>
              r == Failure(500, NoContent, None)
    ensures (body.Parsed? && Present(body.imageUrl) && Present(apiKey) &&
             complete(body.imageUrl.value).Replied? && Present(complete(body.imageUrl.value).content) &&
             parse(StripFences(complete(body.imageUrl.value).content.value)).None?) ==>
              r == Failure(500, BadReply, complete(body.imageUrl.value).content)
    // Success exactly when every step succeeded, and the data is the parsed, fence-stripped reply.
    ensures r.Success? <==>
      body.Parsed? && Present(body.imageUrl) && Present(apiKey) &&
      complete(body.imageUrl.value).Replied? && Present(complete(body.imageUrl.value).content) &&
      parse(StripFences(complete(body.imageUrl.value).content.value)).Some?
    ensures r.Success? ==> r.data == parse(StripFences(complete(body.imageUrl.value).content.value)).value
    // The raw reply is echoed back only when it did not parse, and then unstripped.
    ensures r.Failure? && r.rawContent.Some? ==>
      r.error == BadReply && body.Parsed? && Present(body.imageUrl) &&
      complete(body.imageUrl.value) == Replied(r.rawContent) && Present(r.rawContent) &&
      parse(StripFences(r.rawContent.value)).None?
  {
    match body
    case Unparsable(message) => ThrownError(message)
    case Parsed(imageUrl) =>
      if !Present(imageUrl) then Failure(400, MissingImage, None)
      else if !Present(apiKey) then Failure(500, MissingKey, None)
      else
        match complete(imageUrl.value)
        case Threw(message) => ThrownError(message)
        case Replied(content) =>
          if !Present(content) then Failure(500, NoContent, None)
          else
            match parse(StripFences(content.value))
            case None => Failure(500, BadReply, content)
            case Some(data) => Success(data)
  }

  /** An empty or absent reply is answered before any parse: the answer does not depend on
      `JSON.parse`. */
  lemma EmptyReplyIgnoresParser<J>(body: Body, apiKey: Option<string>, complete: string -> VisionReply,
                                   parse1: string -> Option<J>, parse2: string -> Option<J>)
    requires body.Parsed? && Present(body.imageUrl) && Present(apiKey)
    requires complete(body.imageUrl.value).Replied? && !Present(complete(body.imageUrl.value).content)
    ensures AnalyzeFoodPost(body, apiKey, complete, parse1) == AnalyzeFoodPost(body, apiKey, complete, parse2)
    ensures AnalyzeFoodPost(body, apiKey, complete, parse1) == Failure(500, NoContent, None)
  {
  }

  /** A reply wrapped in a json-tagged fence gets the same answer as the bare reply, except that
      a parse failure echoes the fenced text. */
  lemma FencedReplyParsesLikeBare<J>(body: Body, apiKey: Option<string>, p: string,
                                     bare: string -> VisionReply, fenced: string -> VisionReply,
                                     parse: string -> Option<J>)
    requires body.Parsed? && Present(body.imageUrl) && Present(apiKey)
    requires !HasBacktick(p) && p != ""
    requires bare(body.imageUrl.value) == Replied(Some(p))
    requires fenced(body.imageUrl.value) == Replied(Some(OpeningFence + p + ClosingFence))
    ensures AnalyzeFoodPost(body, apiKey, bare, parse).Success? <==> AnalyzeFoodPost(body, apiKey, fenced, parse).Success?
    ensures AnalyzeFoodPost(body, apiKey, bare, parse).Success? ==>
      AnalyzeFoodPost(body, apiKey, bare, parse) == AnalyzeFoodPost(body, apiKey, fenced, parse)
  {
    FencedPayload(p);
  }
}
