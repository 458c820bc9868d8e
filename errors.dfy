/**
 * The process-wide last-error slot (`g_last_error` with its mutex) and the
 * fixed messages the wrapper writes into it.
 */
module Errors {

  const ModelPathEmpty := "Model path is empty"
  const ContextCreateFailed := "Failed to create llama context"
  const ContextIsNull := "Context is null"
  const PromptIsNull := "Prompt is null"
  const TokenizeFailed := "Failed to tokenize prompt"
  const PromptDecodeFailed := "Failed to decode prompt"
  const TokenDecodeFailed := "Failed to decode generated token"

  /** The message naming the model file that could not be loaded. */
  function ModelLoadFailed(path: string): (msg: string)
    ensures |msg| > |path| && msg[|msg| - |path|..] == path
  {
    "Failed to load model from: " + path
  }

  /**
   * One string shared by every handle. The lock around it is left out: each
   * operation here runs to completion, so a write is never torn.
   */
  class ErrorChannel {
    var message: string

    constructor ()
      ensures message == ""
    {
      message := "";
    }

    /** `set_error`: the last writer wins. */
    method Set(msg: string)
      modifies this
      ensures message == msg
    {
      message := msg;
    }

    /** `clear_error`: done on entry to load and, past validation, generate. */
    method Clear()
      modifies this
      ensures message == ""
    {
      message := "";
    }

    /** `llama_wrapper_get_error`: reads the slot, changes nothing. */
    method Get() returns (msg: string)
      ensures msg == message
    {
      msg := message;
    }
  }
}
