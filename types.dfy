/** Records shared by the chatbot model: conversation turns, the external effects a
    run performs, and the external collaborators (language model, search index,
    messaging channel) as uninterpreted functions. */
module Types {

  datatype Option<+T> = None | Some(value: T)

  type UserId = string
  type Token = string

  /** Who wrote a conversation turn; stored as the strings "user" and "assistant". */
  datatype Sender = User | Assistant {
    function Name(): string {
      match this
      case User => "user"
      case Assistant => "assistant"
    }
  }

  /** One record of the conversation collection. The user id is the key under which
      the record is stored. `pathDecision` is absent on records written without one
      (the older handler never writes it). */
  datatype Turn = Turn(sender: Sender, message: string, timestamp: int, pathDecision: Option<string>)

  /** Parameters of one search-index query: result count, offset, and whether the
      service index (rather than the product index) is queried. */
  datatype SearchParams = SearchParams(top: nat, skip: nat, service: bool)

  /** Observable effects of the handlers, in the order they are issued. */
  datatype Effect =
    | LoadingIndicator(user: UserId)
    | FetchHistory(user: UserId)
    | Compact(text: string)
    | DeleteHistory(user: UserId)
    | SaveTurn(user: UserId, turn: Turn)
    | Classify(query: string, history: string)
    | Search(query: string, params: SearchParams)
    | Condense(query: string, latestUser: string)
    | Answer(query: string, context: string, chatHistory: Option<string>)
    | Reply(token: Token, text: string)

  /** The external collaborators of the current handler. Each returns `None` when
      the call raises. `classify` returns the raw completion text before validation. */
  datatype Services = Services(
    classify: (string, string) -> Option<string>,
    search: (string, SearchParams) -> Option<string>,
    condense: (string, string) -> Option<string>,
    compact: string -> Option<string>,
    answer: (string, string, Option<string>) -> Option<string>,
    reply: (Token, string) -> bool)

  /** The fixed reply sent when a user's chat is reset. */
  const ResetConfirmation := "แชทของคุณถูกรีเซ็ตเรียบร้อยแล้ว"
}
