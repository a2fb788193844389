/** The session of toastcloud/session.go: a holder for the API client. */
module Session {
  import opened Base
  import opened Client

  const ApiDomain: string := "api.cloud.toastate.com"
  const ApiVersion: string := "v1"
  const SessionPrefix: string := "sess_"
  const InvalidAuth: string := "invalid authentication"

  /** `*toastcloud.Session` */
  class Session {
    var client: ApiClient

    /** NewSession: a client for the Toastate cloud API, without a token. */
    constructor()
      ensures fresh(client)
      ensures client.Config() == Settings(ApiDomain, ApiVersion, "")
    {
      client := new ApiClient(ApiDomain, ApiVersion);
    }

    /** SetAuth: a session token (one starting with "sess_") becomes the
      client's token; anything else ends the process through log.Fatal,
      returned here as its message, with the session unchanged. */
    method SetAuth(auth: string) returns (s: Session, fatal: Option<string>)
      modifies this, client
      ensures s == this && client == old(client)
      ensures fatal.None? <==> HasPrefix(auth, SessionPrefix)
      ensures fatal.Some? ==> fatal.value == InvalidAuth && client.Config() == old(client.Config())
      ensures fatal.None? ==> client.Config() == old(client.Config()).(authToken := auth)
    {
      if HasPrefix(auth, SessionPrefix) {
        client := client.SetAuthToken(auth);
        fatal := None;
      } else {
        fatal := Some(InvalidAuth);
      }
      s := this;
    }
  }
}
