/**
 * The records exchanged with the language model and stored per chat:
 * chat messages, tool definitions offered to the model and the chat's
 * preferences.
 */
module ModelTypes {
  import opened Wrappers

  /** One message of a conversation: a role, its text and attached image URLs. */
  datatype Message = Message(role: string, content: string, images: Option<seq<string>>)

  /** A message as stored in a thread: the same fields plus the sender's id. */
  datatype ThreadMessage = ThreadMessage(role: string, content: string, images: Option<seq<string>>, fromId: Option<int>)

  datatype ParameterDefinition = ParameterDefinition(name: string, description: string, paramType: string)

  /** A tool as it is described to the model. */
  datatype ToolDefinition = ToolDefinition(name: string, description: string, parameters: seq<ParameterDefinition>)

  /**
   * Per-chat preferences. `nsfw` is read for its truthiness, so an absent
   * value behaves like `false`; `extremeState` is optional text.
   */
  datatype Preferences = Preferences(nsfw: bool, extremeState: Option<string>)

  /** The empty preferences object `{}`. */
  const NoPreferences := Preferences(false, None)
}
