/** The HTTP client adapter: error classification, and the request/response interceptor rules. */
module Api {
  import opened Wrappers
  import opened BrowserStorage

  /** What the adapter reads from a rejected request: `response.status`,
      `response.data.code` and `response.data.message`, each possibly absent. */
  datatype HttpError = HttpError(status: Option<int>, code: Option<string>, message: Option<string>)

  const ConflictMessage := "Conflict: data was changed by someone else. Refresh and try again."
  const SessionExpiredMessage := "Session expired. Please log in again."
  const UnexpectedErrorMessage := "Unexpected error"

  /** 401 and 403 end the session. */
  predicate IsAuthFailure(status: Option<int>) {
    status == Some(401) || status == Some(403)
  }

  /** `toApiMessage`: a user-facing text for a failed request. */
  function ToApiMessage(e: HttpError): (m: string)
    ensures m != ""
    ensures e.status == Some(412) ==> m == ConflictMessage
    ensures IsAuthFailure(e.status) ==> m == SessionExpiredMessage
    ensures e.status != Some(412) && !IsAuthFailure(e.status) ==>
              && (Truthy(e.message) ==> m == e.message.value)
              && (!Truthy(e.message) && Truthy(e.code) ==> m == e.code.value)
              && (!Truthy(e.message) && !Truthy(e.code) ==> m == UnexpectedErrorMessage)
  {
    if e.status == Some(412) then ConflictMessage
    else if IsAuthFailure(e.status) then SessionExpiredMessage
    else OrElse(e.message, OrElse(e.code, UnexpectedErrorMessage))
  }

  /** The conflict and session messages depend on the status alone, never on the body. */
  lemma StatusMessagesIgnoreBody(e: HttpError, f: HttpError)
    requires e.status == f.status
    requires e.status == Some(412) || IsAuthFailure(e.status)
    ensures ToApiMessage(e) == ToApiMessage(f)
  {
  }

  /** An outgoing request, as far as the interceptor touches it. */
  class RequestConfig {
    var url: string
    var headers: Option<map<string, string>>

    constructor(url: string, headers: Option<map<string, string>>)
      ensures this.url == url && this.headers == headers
    {
      this.url := url;
      this.headers := headers;
    }
  }

  /** The header map after the bearer rule: `Authorization` set when a token is stored. */
  function WithBearer(headers: Option<map<string, string>>, token: Option<string>): (r: Option<map<string, string>>)
    ensures !Truthy(token) ==> r == headers
    ensures Truthy(token) ==> r.Some? && "Authorization" in r.value
    ensures Truthy(token) ==> r.value["Authorization"] == "Bearer " + token.value
    ensures Truthy(token) ==> forall k :: k in r.value && k != "Authorization" ==>
                                headers.Some? && k in headers.value && r.value[k] == headers.value[k]
    ensures Truthy(token) ==> forall k :: headers.Some? && k in headers.value ==> k in r.value
  {
    if Truthy(token) then
      var h := if headers.Some? then headers.value else map[];
      Some(h["Authorization" := "Bearer " + token.value])
    else headers
  }

  /** The request interceptor: reads `access_token` and attaches it to the config it returns. */
  method AttachToken(config: RequestConfig, storage: Storage) returns (out: RequestConfig)
    modifies config
    ensures out == config
    ensures config.url == old(config.url)
    ensures config.headers == WithBearer(old(config.headers), storage.accessToken)
  {
    var token := storage.accessToken;
    if Truthy(token) {
      config.headers := Some((if config.headers.Some? then config.headers.value else map[])
                             ["Authorization" := "Bearer " + token.value]);
    }
    out := config;
  }

  /** The response error interceptor: on 401/403 it drops the token and the stored user and
      signals `auth:logout`; in every case it rejects with the error it was given. */
  method OnResponseError(err: HttpError, storage: Storage) returns (rejection: HttpError, logoutSignalled: bool)
    modifies storage
    ensures rejection == err
    ensures logoutSignalled == IsAuthFailure(err.status)
    ensures IsAuthFailure(err.status) ==> storage.accessToken == None && storage.currentUser == None
    ensures !IsAuthFailure(err.status) ==>
              storage.accessToken == old(storage.accessToken) && storage.currentUser == old(storage.currentUser)
    ensures storage.users == old(storage.users) && storage.contacts == old(storage.contacts)
  {
    logoutSignalled := IsAuthFailure(err.status);
    if logoutSignalled {
      storage.accessToken := None;
      storage.currentUser := None;
    }
    rejection := err;
  }
}
