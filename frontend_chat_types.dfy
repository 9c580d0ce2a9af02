/** The chat message as the frontend receives it (`ChatMessage` in frontend/src/app/services/Chat.api.ts). */
module ChatTypes {
  datatype ChatMessage = ChatMessage(role: string, content: string)
}
