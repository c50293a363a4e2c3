/** How the client's configuration meets the server's. */
module Integration {
  import ChatClient
  import ChatServer

  /**
   * Every model the client's selector offers, and the client's default, is a
   * key of the server's model table, and the two defaults agree; so a chat
   * request sent by the bundled client never takes the unknown-model branch.
   */
  lemma ClientModelsKnownToServer()
    ensures ChatClient.DefaultModel == ChatServer.DefaultModel
    ensures forall m :: m in ChatClient.ModelOptions ==> ChatServer.FindModel(ChatServer.ModelTable, m).Some?
    ensures ChatServer.ModelKeys(ChatServer.ModelTable) == ["gpt-4-0", "gpt-4", "gpt-3.5-turbo"]
  {
  }
}
