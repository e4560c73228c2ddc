/**
 * The state every handler reads (backend/server.go, `ServerState`). The
 * declaration there has no `ticketStore` or `sessionTracker`, which the
 * handlers in backend/session_handlers.go, backend/ticket_handlers.go and
 * backend/callback_handler.go use; here the state holds both.
 */
module Server {
  import Stores
  import TokenStorage
  import Config

  /** `ServerConfig`. */
  datatype ServerConfig = ServerConfig(host: string, port: int, nextSessionUrl: string)

  /** `ServerState`, with the in-memory token storage as its `TokenStorage`. */
  class ServerState {
    const irmaServerUrl: string
    const tokenStorage: TokenStorage.InMemoryTokenStorage
    const credentialConfig: Config.CredentialConfig
    const serverConfig: ServerConfig
    const ticketStore: Stores.TicketStore
    const sessionTracker: Stores.SessionTracker

    constructor (irmaServerUrl: string, tokenStorage: TokenStorage.InMemoryTokenStorage,
                 credentialConfig: Config.CredentialConfig, serverConfig: ServerConfig,
                 ticketStore: Stores.TicketStore, sessionTracker: Stores.SessionTracker)
      ensures this.irmaServerUrl == irmaServerUrl && this.tokenStorage == tokenStorage
      ensures this.credentialConfig == credentialConfig && this.serverConfig == serverConfig
      ensures this.ticketStore == ticketStore && this.sessionTracker == sessionTracker
    {
      this.irmaServerUrl := irmaServerUrl;
      this.tokenStorage := tokenStorage;
      this.credentialConfig := credentialConfig;
      this.serverConfig := serverConfig;
      this.ticketStore := ticketStore;
      this.sessionTracker := sessionTracker;
    }
  }
}
