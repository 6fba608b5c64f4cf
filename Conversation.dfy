/** A chat session: metadata plus the ordered message history, built with the
    defaults of the Lombok builder and grown by `AddMessage`. */
module ConversationModel {
  import opened Domain

  const DefaultVersion: int := 1
  const DefaultModel: string := "gpt-oss-120b"

  class Conversation {
    var version: int
    var id: string
    var createdAt: int
    var updatedAt: int
    var provider: Provider
    var apiFamily: ApiFamily
    var defaultModel: string
    var metadata: map<string, string>
    var messages: seq<ChatMessage>

    /** Conversation.builder().id(id).createdAt(t).updatedAt(t).build(): every field the
        builder is not given takes its declared default. */
    constructor (id: string, createdAt: int)
      ensures this.id == id && this.createdAt == createdAt && updatedAt == createdAt
      ensures version == DefaultVersion
      ensures provider == LMSTUDIO && apiFamily == CHAT_COMPLETIONS
      ensures defaultModel == DefaultModel
      ensures metadata == map[] && messages == []
    {
      this.version := DefaultVersion;
      this.id := id;
      this.createdAt := createdAt;
      this.updatedAt := createdAt;
      this.provider := LMSTUDIO;
      this.apiFamily := CHAT_COMPLETIONS;
      this.defaultModel := DefaultModel;
      this.metadata := map[];
      this.messages := [];
    }

    /** Appends one message at the end and stamps the update time `now`. */
    method AddMessage(m: ChatMessage, now: int)
      modifies this
      ensures messages == old(messages) + [m]
      ensures |messages| == |old(messages)| + 1 && messages[..|old(messages)|] == old(messages)
      ensures updatedAt == now
      ensures version == old(version) && id == old(id) && createdAt == old(createdAt)
      ensures provider == old(provider) && apiFamily == old(apiFamily)
      ensures defaultModel == old(defaultModel) && metadata == old(metadata)
    {
      messages := messages + [m];
      updatedAt := now;
    }
  }
}
