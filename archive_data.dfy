/**
 * The archive's browsing data (the `Project` / `Conversation` / `Message`
 * shapes the browsing components work on): a project owns its
 * conversations, a conversation its messages.
 */
module Archive {

  datatype Message = Message(id: string, role: string, content: string, timestamp: string)

  datatype Conversation = Conversation(id: string, title: string, tool: string, createdAt: string, messages: seq<Message>)

  datatype Project = Project(id: string, name: string, description: string, lastUpdated: string, conversations: seq<Conversation>)
}
