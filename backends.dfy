/** The two external language-model backends, seen from app.py as calls that
    either return reply text or raise an exception. Every call is injected:
    a backend is a total function from (model id, prompt) to a reply. */
module Backends {

  /** Outcome of one backend call: the reply text, or the exception's message. */
  datatype Reply = Ok(text: string) | Err(message: string)

  /** A backend: given the model id and the prompt, what the call produced. */
  type Backend = (string, string) -> Reply

  /** The fixed model the second backend ("Roo") is always asked with. */
  const GptModel: string := "gpt-4o"
}
