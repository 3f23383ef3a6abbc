/**
 * The client of the generative-language service (lib/gemini.ts). The
 * service itself is a parameter; what is modelled is the API-key guard,
 * the cleaning of code fences from a reply, the chat history that is sent,
 * and the mapping of every failure to one fixed message per call.
 */
module Gemini {
  import opened Wrappers
  import opened Text

  datatype GeminiError = MissingApiKey | RecommendationsFailed | ChatFailed

  function Message(e: GeminiError): string {
    match e
    case MissingApiKey => "Gemini API Key is missing"
    case RecommendationsFailed => "Failed to generate recommendations. Please try again."
    case ChatFailed => "Failed to get response. Please try again."
  }

  datatype Career = Career(title: string, description: string, salary: string)

  /** The JSON object the recommendation prompt asks for. */
  datatype RecommendationBundle = RecommendationBundle(
    analysis: string, topCareers: seq<Career>, courses: seq<string>,
    jobRoles: seq<string>, skillsToImprove: seq<string>)

  const JsonFence: string := "```json"

  /**
   * Removes every "```json", then every "```", then trims: the result holds
   * no fence and no surrounding white space.
   */
  function CleanResponse(text: string): (r: string)
    ensures !HasSub(r, Fence)
    ensures Trimmed(r)
  {
    var unfenced := RemoveAll(RemoveAll(text, JsonFence), Fence);
    RemoveFenceLeavesNone(RemoveAll(text, JsonFence));
    TrimKeepsNoSub(unfenced, Fence);
    Trim(unfenced)
  }

  /** Text with no backtick and no surrounding white space is left as it is. */
  lemma CleanLeavesPlainText(s: string)
    requires '`' !in s && Trimmed(s)
    ensures CleanResponse(s) == s
  {
    RemoveAllPrefix(s, [], JsonFence);
    RemoveAllPrefix(s, [], Fence);
    assert s + [] == s;
    TrimOfTrimmed(s);
  }

  /** "```" followed by white space contains no "```json". */
  lemma NoJsonFenceAfterFence(w: string)
    requires AllSpace(w)
    ensures !HasSub(Fence + w, JsonFence)
  {
    var y := Fence + w;
    forall i | 0 <= i <= |y| ensures !OccursAt(y, JsonFence, i) {
      if i + 7 <= |y| {
        assert y[i + 3] == w[i] && IsSpace(w[i]);
        assert y[i..i + 7][3] == y[i + 3] && JsonFence[3] == 'j';
      }
    }
  }

  /**
   * A fenced reply, "```json" + J + "```" with white space around it,
   * cleans to J itself when J is trimmed and holds no backtick.
   */
  lemma CleanFencedJson(w1: string, j: string, w2: string)
    requires AllSpace(w1) && AllSpace(w2) && Trimmed(j) && '`' !in j
    ensures CleanResponse(w1 + JsonFence + j + Fence + w2) == j
  {
    var tail := Fence + w2;
    var x := j + tail;
    // first pass: only the opening "```json" goes
    assert w1 + JsonFence + j + Fence + w2 == w1 + (JsonFence + x);
    RemoveAllPrefix(w1, JsonFence + x, JsonFence);
    assert (JsonFence + x)[..7] == JsonFence && (JsonFence + x)[7..] == x;
    RemoveAllPrefix(j, tail, JsonFence);
    NoJsonFenceAfterFence(w2);
    RemoveAllAbsent(tail, JsonFence);
    var first := w1 + j + tail;
    assert RemoveAll(w1 + JsonFence + j + Fence + w2, JsonFence) == first;
    // second pass: the closing "```" goes
    assert first == (w1 + j) + tail;
    RemoveAllPrefix(w1 + j, tail, Fence);
    assert tail[..3] == Fence && tail[3..] == w2;
    RemoveAllPrefix(w2, [], Fence);
    assert w2 + [] == w2;
    assert RemoveAll(first, Fence) == w1 + j + w2;
    TrimSurrounded(w1, j, w2);
  }

  /**
   * `getCareerRecommendations`: with no key it fails before any request;
   * otherwise the reply (None when the request fails) is cleaned and parsed,
   * and any failure becomes the one generic recommendations error.
   */
  function GetCareerRecommendations(apiKey: string, reply: Option<string>,
                                    parse: string -> Option<RecommendationBundle>): (r: Result<RecommendationBundle, GeminiError>)
    ensures apiKey == "" ==> r == Err(MissingApiKey)
    ensures apiKey != "" && r.Err? ==> r.error == RecommendationsFailed
    ensures r.Ok? <==> apiKey != "" && reply.Some? && parse(CleanResponse(reply.value)).Some?
    ensures r.Ok? ==> r.value == parse(CleanResponse(reply.value)).value
  {
    if apiKey == "" then Err(MissingApiKey)
    else match reply
      case None => Err(RecommendationsFailed)
      case Some(text) =>
        match parse(CleanResponse(text))
        case None => Err(RecommendationsFailed)
        case Some(bundle) => Ok(bundle)
  }

  /** A reply wrapped in a "```json" fence is handled exactly like the bare JSON. */
  lemma FencedReplyParsesAlike(apiKey: string, w1: string, j: string, w2: string,
                               parse: string -> Option<RecommendationBundle>)
    requires AllSpace(w1) && AllSpace(w2) && Trimmed(j) && '`' !in j
    ensures GetCareerRecommendations(apiKey, Some(w1 + JsonFence + j + Fence + w2), parse)
         == GetCareerRecommendations(apiKey, Some(j), parse)
  {
    CleanFencedJson(w1, j, w2);
    CleanLeavesPlainText(j);
  }

  datatype Part = Part(text: string)

  /** One turn of a chat history as the service takes it. */
  datatype Content = Content(role: string, parts: seq<Part>)

  function Acknowledgement(language: string): string {
    "Understood. I will act as a career counselor and respond in " + language + "."
  }

  /**
   * The history a chat starts with: the system prompt as a user turn, the
   * acknowledgement as a model turn, then the caller's history in order.
   */
  function ChatHistory(systemPrompt: string, language: string, history: seq<Content>): (h: seq<Content>)
    ensures |h| == |history| + 2
    ensures h[0] == Content("user", [Part(systemPrompt)])
    ensures h[1] == Content("model", [Part(Acknowledgement(language))])
    ensures h[2..] == history
  {
    [Content("user", [Part(systemPrompt)]), Content("model", [Part(Acknowledgement(language))])] + history
  }

  /**
   * `getChatResponse`: with no key it fails before the service is asked;
   * otherwise the service answers the message given the assembled history,
   * and a failure becomes the one generic chat error.
   */
  function GetChatResponse(apiKey: string, message: string, history: seq<Content>, language: string,
                           systemPrompt: string, service: (seq<Content>, string) -> Option<string>): (r: Result<string, GeminiError>)
    ensures apiKey == "" ==> r == Err(MissingApiKey)
    ensures apiKey != "" ==>
      var answer := service(ChatHistory(systemPrompt, language, history), message);
      if answer.Some? then r == Ok(answer.value) else r == Err(ChatFailed)
  {
    if apiKey == "" then Err(MissingApiKey)
    else match service(ChatHistory(systemPrompt, language, history), message)
      case None => Err(ChatFailed)
      case Some(text) => Ok(text)
  }
}
