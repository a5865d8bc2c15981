/** Values shared by both chat sessions and the Telegram handler: the chat message
    record, raw audio bytes, and the usual Option/Result wrappers used where the
    Python code raises or returns None. */
module Common {

  datatype Option<T> = None | Some(value: T)

  datatype Result<T, E> = Ok(value: T) | Err(error: E)

  /** One `ChatGptMessage`: a role tag and its text. */
  datatype Message = Message(role: string, content: string)

  const UserRole: string := "user"

  /** Role under which the completion and transcription gateways report a failure. */
  const SystemRole: string := "system"

  /** Text of the `IndexError` Python raises for `choices[0]` on an empty list. */
  const IndexErrorText: string := "list index out of range"

  /** An in-memory audio file (`BytesIO`). */
  type Bytes = seq<bv8>

  function UserMessage(prompt: string): Message
  {
    Message(UserRole, prompt)
  }
}
