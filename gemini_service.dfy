/** The failure sources of `analyzeDocument` (services/geminiService.ts). The request
    itself, the prompts, the schema, base64 encoding and `JSON.parse` are outside the
    model: what the service sent back, and how it parsed, is a parameter. */
module GeminiService {

  import opened Types

  const MissingKeyMessage := "API Key not found in environment variables"
  const NoResponseMessage := "No response from Gemini"

  /** What parsing the reply text as JSON gave. */
  datatype Parsed = Parsed(result: AnalysisResult) | SyntaxError(message: string)

  /** What the `generateContent` call gave: a reply text with its parse, or a thrown error. */
  datatype Reply = Replied(text: string, parsed: Parsed) | Threw(message: string)

  /** `analyzeDocument`: a missing or empty key fails before any request is made; an
      empty reply fails with its own message; otherwise the parsed reply, or the
      error the call or the parse threw, is passed on. */
  function AnalyzeDocument(apiKey: Option<string>, reply: Reply): (o: Outcome<AnalysisResult>)
    ensures (apiKey.None? || apiKey.value == "") ==> o == Failed(MissingKeyMessage)
    ensures o.Ok? <==> apiKey.Some? && apiKey.value != "" && reply.Replied? && reply.text != "" && reply.parsed.Parsed?
    ensures o.Ok? ==> o.value == reply.parsed.result
    ensures apiKey.Some? && apiKey.value != "" && reply.Replied? && reply.text == "" ==> o == Failed(NoResponseMessage)
    ensures apiKey.Some? && apiKey.value != "" && reply.Threw? ==> o == Failed(reply.message)
    ensures apiKey.Some? && apiKey.value != "" && reply.Replied? && reply.text != "" && reply.parsed.SyntaxError?
            ==> o == Failed(reply.parsed.message)
  {
    if apiKey.None? || apiKey.value == "" then Failed(MissingKeyMessage)
    else match reply
      case Threw(m) => Failed(m)
      case Replied(text, parsed) =>
        if text == "" then Failed(NoResponseMessage)
        else match parsed
          case Parsed(r) => Ok(r)
          case SyntaxError(m) => Failed(m)
  }
}
