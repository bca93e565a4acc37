/** The shapes shared by the chat screen and the gateway (src/types.ts). */
module Types {

  datatype Option<+T> = None | Some(value: T)

  /** The three assistant personas a session can be in. */
  datatype AppMode = GENERAL | WEB_APP | MYRA

  datatype Sender = User | Ai

  /** The optional `type` tag of a message; an untagged message is plain text. */
  datatype MessageKind = Text | Image | Code

  /**
   * One chat message. `id` stands for the decimal string of a millisecond clock
   * reading and `timestamp` for the moment it was created; both are supplied by
   * the caller.
   */
  datatype Message = Message(
    id: int,
    text: string,
    sender: Sender,
    timestamp: int,
    kind: Option<MessageKind>,
    code: Option<string>,
    imageUrl: Option<string>)

  /** A runnable HTML document registered from a WEB_APP reply or by the Run button. */
  datatype CodeSnippet = CodeSnippet(id: int, name: string, html: string, timestamp: int)
}
