/** The values of internal/models/models.go that the other modules share. */
module Models {

  /** A float64 by its bit pattern, so that equality is identity of the stored number. */
  type Float64 = x: int | 0 <= x < 0x1_0000_0000_0000_0000

  /** Neither an infinity nor a NaN: the exponent bits are not all ones. */
  predicate Finite(x: Float64) {
    (x / 0x10_0000_0000_0000) % 0x800 != 0x7ff
  }

  datatype Message = Message(role: string, content: string)

  datatype GatewayRequest = GatewayRequest(
    provider: string, model: string, systemPrompt: string, messages: seq<Message>,
    maxTokens: int, temperature: Float64, stream: bool)
  {
    predicate Validate() {
      (provider == "groq" || provider == "gemini" || provider == "mock") && messages != [] && maxTokens > 0
    }
  }

  datatype Usage = Usage(promptTokens: int, completionTokens: int, totalTokens: int)

  datatype GatewayResponse = GatewayResponse(
    id: string, provider: string, model: string, content: string, usage: Usage,
    cached: bool, latencyMs: int, costUsd: real)

  /** How one Redis round trip may end for its caller. */
  datatype Reply = Replied | NotExecuted | ReplyLost

  predicate Executed(reply: Reply) { !reply.NotExecuted? }

  datatype Option<T> = None | Some(value: T)
}
