/**
 * The records exchanged between the chat front-end and its backend over the socket
 * (parsed JSON objects), and the user record the UI keeps. A string field that is
 * absent, `null` or empty in the JSON is the empty string here: every place that
 * reads such a field treats all three alike (`x || default`, `if (!x)`).
 */
module Frames {
  import opened Wrappers

  /** The logged-in user (name, email, and the optional token, brand and role). */
  datatype User = User(name: string, email: string, token: string, brand: string, role: string)

  /** One image reference of a chat answer: `{path, score}`. */
  datatype ImageRef = ImageRef(path: string, score: int)

  /** One conversation summary of a `get_conversation_history` answer. */
  datatype HistoryEntry = HistoryEntry(intractionId: string, interactionTitle: string)

  /** One stored message of a `get_historical_messages` answer. */
  datatype StoredMessage = StoredMessage(
    msgText: string,
    userMessage: bool,                  // `user_message` is truthy
    messageId: string,
    msgTimestamp: string,
    imageUrls: Option<seq<ImageRef>>,   // None: `image_urls` is not an array
    conversationId: string)

  /**
   * An inbound frame. `action` discriminates; the other fields are those that some
   * reader of the frame inspects. `Option` fields are None when the JSON value is not an array.
   */
  datatype Inbound = Inbound(
    action: string,
    status: string,
    errorMessage: string,
    warningMessage: string,
    error: bool,                        // `data.error` is truthy
    response: string,
    endOfMessage: bool,                 // `data.endOfMessage === true`
    messageId: string,
    conversationId: string,
    imageUrls: Option<seq<ImageRef>>,
    historicalMessages: Option<seq<HistoryEntry>>,
    currentMessages: Option<seq<StoredMessage>>)

  /** The outbound frames the front-end builds. A chat prompt carries no `action` field. */
  datatype Outbound =
    | Handshake(token: string, brand: string, role: string, userEmail: string)
    | ChatPrompt(prompt: string, brand: string, role: string, userEmail: string, conversationId: string)
    | ConversationHistoryRequest(token: string, brand: string, role: string, userEmail: string,
                                 conversation: Option<string>)
    | HistoricalMessagesRequest(conversationId: string, userEmail: string)
    | Feedback(messageId: string, positive: bool, reason: string, comment: Option<string>)
}
