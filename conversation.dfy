/** Chat messages as the page keeps them and as the route receives and sends them. */
module Conversation {

  /** The `role` of a message. */
  datatype Role = User | Assistant | System

  /** One `{role, content}` message of a transcript. */
  datatype Message = Message(role: Role, content: string)
}
