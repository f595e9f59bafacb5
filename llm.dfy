/**
 * The text-generation side of the service: the prompter capability, which either
 * produces text or fails, and `LLMException`, the server error a failure becomes.
 */
module Llm {
  import opened Exceptions

  /** What one `prompt` call does: return generated text, or raise with message `str(e)`. */
  datatype PromptOutcome = Completed(text: string) | Raised(error: string)

  /** `LLMPrompter.prompt(prompt_sys, prompt_user)`, taken as an opaque total function. */
  type Prompter = (string, string) -> PromptOutcome

  const LLMExceptionKind: Kind := "LLMException"
  const ServerErrorPrefix: string := "Unexpected server error: "

  /** `LLMException(message)`: status 500, rendered as `{"message": "Unexpected server error: " + message}`. */
  function LLMException(message: string): ApiException {
    ApiException(LLMExceptionKind, 500, JsonResponse(500, ServerErrorPrefix + message))
  }

  /**
   * The rendering of an `LLMException` agrees with its `status_code`, starts with the
   * fixed prefix and carries the message after it, so distinct messages render distinctly.
   */
  lemma LLMExceptionRendering(message: string, other: string)
    ensures LLMException(message).kind == LLMExceptionKind
    ensures IntoJson(LLMException(message)).statusCode == LLMException(message).statusCode == 500
    ensures ServerErrorPrefix <= IntoJson(LLMException(message)).message
    ensures IntoJson(LLMException(message)).message[|ServerErrorPrefix|..] == message
    ensures IntoJson(LLMException(message)) == IntoJson(LLMException(other)) ==> message == other
  {
  }
}
