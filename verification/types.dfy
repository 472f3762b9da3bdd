/** The data shapes shared by the chat widget and the gateway service (types.ts). */
module Types {

  datatype Option<+T> = None | Some(value: T)

  /** Who wrote a message: `'user' | 'assistant'`. */
  datatype Role = User | Assistant

  /** A web citation `{uri, title}`. A missing title is represented by "", which the
      widget treats the same way (both are falsy). */
  datatype Web = Web(uri: string, title: string)

  /** One grounding chunk. Its type promises a `web` field, but the widget checks for
      it before use, so it is optional here. */
  datatype Source = Source(web: Option<Web>)

  /** A transcript entry; `sources` is the optional field of the interface. */
  datatype Message = Message(role: Role, text: string, sources: Option<seq<Source>>)
}
