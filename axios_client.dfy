/**
 * The HTTP client of the frontend (`frontend/src/api/axios.js`): a request
 * interceptor that adds a bearer header from the stored access token, and
 * no response interceptor.
 */
module AxiosClient {
  import opened Base
  import opened Client

  const Authorization: string := "Authorization"

  /** The header value the interceptor would add for this storage, if any. */
  function Bearer(storage: map<string, string>): (r: Option<string>)
    ensures r.Some? <==> AccessToken in storage && storage[AccessToken] != ""
    ensures r.Some? ==> r.value == "Bearer " + storage[AccessToken]
  {
    if AccessToken in storage && storage[AccessToken] != "" then Some("Bearer " + storage[AccessToken]) else None
  }

  /** The outgoing request, whose headers the interceptor edits in place. */
  class RequestConfig {
    var headers: map<string, string>

    constructor(headers: map<string, string>)
      ensures this.headers == headers
    {
      this.headers := headers;
    }
  }

  /**
   * The request interceptor: the token is read afresh; when it is non-empty
   * the Authorization header is set to "Bearer " + token and nothing else is
   * touched. A failed read is ignored. The same config always goes on.
   */
  method Intercept(app: App, config: RequestConfig, readFails: bool) returns (r: RequestConfig)
    modifies config
    ensures r == config
    ensures readFails || Bearer(app.storage).None? ==> config.headers == old(config.headers)
    ensures !readFails && Bearer(app.storage).Some? ==>
              config.headers == old(config.headers)[Authorization := Bearer(app.storage).value]
  {
    if !readFails {
      if AccessToken in app.storage {
        var token := app.storage[AccessToken];
        if token != "" {
          config.headers := config.headers[Authorization := "Bearer " + token];
        }
      }
    }
    return config;
  }

  /**
   * A request and its response: the interceptor runs, then the server
   * answers with some status. With no response interceptor, no status — an
   * unauthorised 401 included — touches the stored token or the session.
   */
  method Send(app: App, config: RequestConfig, readFails: bool, server: map<string, string> -> int)
    returns (status: int)
    modifies config
    ensures status == server(config.headers)
    ensures !readFails && Bearer(app.storage).Some? ==>
              status == server(old(config.headers)[Authorization := Bearer(app.storage).value])
    ensures readFails || Bearer(app.storage).None? ==> status == server(old(config.headers))
    ensures app.storage == old(app.storage) && app.session == old(app.session)
  {
    var sent := Intercept(app, config, readFails);
    status := server(sent.headers);
  }
}
