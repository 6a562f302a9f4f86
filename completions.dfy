/** The interface of the external chat-completion endpoint that both the
    code evaluator and the chat assistant call: the request body they post and what
    comes back. The transport (URL, bearer token, timeout) is not modelled;
    the endpoint is a function from request to reply. */
module Completions {
  import opened Js

  /** The model both callers name in their requests. */
  const ModelName := "llama-3.1-8b-instant"

  datatype Message = Message(role: string, content: Value)

  /** The JSON body posted to the endpoint (the sampling temperature is not
      modelled). */
  datatype ChatRequest = ChatRequest(model: string, messages: seq<Message>)

  /** The reply to one request: either the call failed (network error,
      timeout, error status, or a body without `choices[0].message`), or it
      produced `choices[0].message.content`. */
  datatype Completion = Failed | Answered(content: Value)
}
