/** The JSON shapes exchanged between the browser client (js/ui.js, js/chat.js) and the two
    servers (backend/server.js, server.js), with every string member that may be absent
    written as a `Field`. */
module Wire {
  import opened Js

  const ContractMode := "contract"
  const ResearchMode := "research"
  const OpinionMode := "opinion"

  predicate IsKnownMode(m: string) {
    m == ContractMode || m == ResearchMode || m == OpinionMode
  }

  /** The body of `POST /api/chat`: the form inputs of the selected mode. */
  datatype ChatBody = ChatBody(
    mode: Field,
    contractType: Field, contractDetails: Field,
    legalIssue: Field, researchQuery: Field, jurisdiction: Field,
    opinionTopic: Field, opinionQuery: Field, applicableLaws: Field)

  /** What the prompt template of each mode is filled with; the template text itself is not
      modelled. */
  datatype PromptSpec =
    | ContractPrompt(contractType: string, details: string)
    | ResearchPrompt(issue: string, query: string, jurisdiction: string)
    | OpinionPrompt(topic: string, query: string, laws: string)

  /** The outcome of one call to the language model: the text of the first content block, or a
      thrown error with its (possibly empty) message. */
  datatype Completion = Completed(text: string) | Failed(message: Field)

  /** The success body of `POST /api/chat`. */
  datatype Generated = Generated(documentId: string, output: string)

  /** One entry of a conversation history. */
  datatype Turn = Turn(role: string, content: string)

  /** The roles the language model accepts in a conversation. */
  predicate IsChatRole(t: Turn) {
    t.role == "user" || t.role == "assistant"
  }

  /** The document the chat assistant is told about: the mode it was generated in and its text. */
  datatype DocContext = DocContext(mode: Field, content: Field)

  /** The body of `POST /api/chat-assistant`; an absent `history` is `None`. */
  datatype AssistantBody = AssistantBody(
    message: Field, history: Option<seq<Turn>>, documentContext: Option<DocContext>, currentMode: Field)
}
