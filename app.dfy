/** How the page, the search form and the chat panel fit together. */
module App {
  import opened Wrappers
  import opened Page
  import opened Chat

  /** The page stores the credential it asks for under one name and the chat
      panel reads another. Opening a chat never changes what the panel reads,
      so with no `OPENAI_API_KEY` stored every chat request carries the
      header `Bearer null`, whatever key was typed into the prompt. */
  lemma CredentialMismatch(store: map<string, string>, promptReply: Option<string>)
    ensures PerplexityKeyName != OpenAiKeyName
    ensures var g := ChatGate(store, promptReply);
      GetItem(g.store, OpenAiKeyName) == GetItem(store, OpenAiKeyName)
    ensures OpenAiKeyName !in store ==>
      AuthorizationHeader(GetItem(ChatGate(store, promptReply).store, OpenAiKeyName)) == "Bearer null"
  {
    assert PerplexityKeyName[0] != OpenAiKeyName[0];
    ChatGateSpec(store, promptReply);
  }
}
