/**
 * The shared vocabulary of the front end: the application state enum and a
 * message of the conversation log (Backend/src/types.ts).
 */
module Types {

  /** The one active state of the assistant, as shown by the UI. */
  datatype AppState = Idle | Connecting | Listening | Thinking | Speaking

  /** Who wrote a message: the user or the assistant (named 'jarvis' in the source). */
  datatype Author = User | Jarvis

  /** One entry of the append-only conversation log. */
  datatype Message = Message(author: Author, text: string)

  datatype Option<+T> = None | Some(value: T)
}
