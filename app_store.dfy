/**
 * Global application state that the playback layer reads but does not own:
 * `Store.serverConfig`, the server-version test and the local library items
 * kept by the database.
 */
module AppStore {
  import opened Wrappers

  /** The active server connection (`ServerConnectionConfig`). */
  datatype ServerConfig = ServerConfig(id: string, address: string, token: string)

  /**
   * A snapshot of `Store`: the active server configuration, if any, and the
   * answer of `Store.isServerVersionGreaterThanOrEqualTo("2.17.0")`.
   */
  datatype StoreState = StoreState(serverConfig: Option<ServerConfig>, serverAtLeast2170: bool) {

    /** `Store.serverConfig?.id`, the connection scope of sessions. */
    function ConfigId(): Option<string> {
      match serverConfig
      case Some(c) => Some(c.id)
      case None => None
    }

    /** `Store.serverConfig?.address`. */
    function Address(): Option<string> {
      match serverConfig
      case Some(c) => Some(c.address)
      case None => None
    }
  }

  /** A downloaded item (`LocalLibraryItem`): its local id, its server item id and its cover. */
  datatype LocalItem = LocalItem(id: string, libraryItemId: Option<string>, coverUrl: Option<string>)

  /** An image handle (`UIImage`); its pixels are not modelled. */
  datatype Image = Image(handle: nat)
}
