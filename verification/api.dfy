/** The shared axios instance of eswika-frontend/src/services/api.js: its
    request and response interceptors and the calls that keep the token in
    browser storage. Each call takes the server's answer as a parameter. */
module Api {
  import opened Common
  import opened Browser

  /** The instance's default headers. */
  const DefaultHeaders: map<string, string> := map["Content-Type" := "application/json"]

  /** The request interceptor: a truthy stored token becomes the
      `Authorization` header; otherwise the headers pass through. */
  function WithToken(storage: map<string, string>, headers: map<string, string>): (h: map<string, string>)
    ensures forall k :: k in headers && k != "Authorization" ==> k in h && h[k] == headers[k]
    ensures h.Keys == headers.Keys + (if Truthy(storage, TokenKey) then {"Authorization"} else {})
    ensures Truthy(storage, TokenKey) ==> h["Authorization"] == "Bearer " + storage[TokenKey]
    ensures !Truthy(storage, TokenKey) ==> h == headers
  {
    if Truthy(storage, TokenKey) then headers["Authorization" := "Bearer " + storage[TokenKey]] else headers
  }

  /** A request from the instance carries a bearer header exactly when a
      truthy token is stored, and then carries that token. */
  lemma BearerIffToken(storage: map<string, string>)
    ensures "Authorization" in WithToken(storage, DefaultHeaders) <==> Truthy(storage, TokenKey)
    ensures WithToken(storage, DefaultHeaders)["Content-Type"] == "application/json"
  {
  }

  /** One call through the instance. `resolved` tells whether the promise
      resolves; the response interceptor answers a 401 by dropping the
      token and moving to the login page, and rejects every error again. */
  method Send<T>(w: Window, verb: string, path: string, body: string, reply: Reply<T>) returns (resolved: bool, sent: HttpRequest)
    modifies w`storage, w`location
    ensures sent == HttpRequest(verb, ApiUrl + path, WithToken(old(w.storage), DefaultHeaders), body)
    ensures resolved <==> reply.Ok()
    ensures reply.Response? && reply.status == 401 ==>
              w.storage == old(w.storage) - {TokenKey} && w.location == "/login"
    ensures !(reply.Response? && reply.status == 401) ==>
              w.storage == old(w.storage) && w.location == old(w.location)
  {
    sent := HttpRequest(verb, ApiUrl + path, WithToken(w.storage, DefaultHeaders), body);
    resolved := reply.Ok();
    if reply.Response? && reply.status == 401 {
      w.RemoveItem(TokenKey);
      w.location := "/login";
    }
  }

  /** `login` and `adminLogin`: after a resolved call, a truthy token in the
      answer is stored; nothing else is written. `credentials` is the JSON
      text of the posted object. */
  method PostLogin(w: Window, path: string, credentials: string, reply: Reply<LoginReply>) returns (resolved: bool, sent: HttpRequest)
    modifies w`storage, w`location
    ensures sent == HttpRequest("POST", ApiUrl + path, WithToken(old(w.storage), DefaultHeaders), credentials)
    ensures resolved <==> reply.Ok()
    ensures resolved && FieldTruthy(reply.body.token) ==>
              w.storage == old(w.storage)[TokenKey := reply.body.token.value] && w.location == old(w.location)
    ensures resolved && !FieldTruthy(reply.body.token) ==>
              w.storage == old(w.storage) && w.location == old(w.location)
    ensures reply.Response? && reply.status == 401 ==>
              w.storage == old(w.storage) - {TokenKey} && w.location == "/login"
    ensures !resolved && !(reply.Response? && reply.status == 401) ==>
              w.storage == old(w.storage) && w.location == old(w.location)
  {
    resolved, sent := Send(w, "POST", path, credentials, reply);
    if resolved && FieldTruthy(reply.body.token) {
      w.SetItem(TokenKey, reply.body.token.value);
    }
  }

  /** `api.login`. */
  method Login(w: Window, credentials: string, reply: Reply<LoginReply>) returns (resolved: bool, sent: HttpRequest)
    modifies w`storage, w`location
    ensures sent == HttpRequest("POST", ApiUrl + "/login", WithToken(old(w.storage), DefaultHeaders), credentials)
    ensures resolved <==> reply.Ok()
    ensures resolved ==>
              w.storage == (if FieldTruthy(reply.body.token) then old(w.storage)[TokenKey := reply.body.token.value]
                            else old(w.storage)) &&
              w.location == old(w.location)
    ensures reply.Response? && reply.status == 401 ==>
              w.storage == old(w.storage) - {TokenKey} && w.location == "/login"
    ensures !resolved && !(reply.Response? && reply.status == 401) ==>
              w.storage == old(w.storage) && w.location == old(w.location)
  {
    resolved, sent := PostLogin(w, "/login", credentials, reply);
  }

  /** `api.adminLogin`. */
  method AdminLogin(w: Window, credentials: string, reply: Reply<LoginReply>) returns (resolved: bool, sent: HttpRequest)
    modifies w`storage, w`location
    ensures sent == HttpRequest("POST", ApiUrl + "/admin/login", WithToken(old(w.storage), DefaultHeaders), credentials)
    ensures resolved <==> reply.Ok()
    ensures resolved ==>
              w.storage == (if FieldTruthy(reply.body.token) then old(w.storage)[TokenKey := reply.body.token.value]
                            else old(w.storage)) &&
              w.location == old(w.location)
    ensures reply.Response? && reply.status == 401 ==>
              w.storage == old(w.storage) - {TokenKey} && w.location == "/login"
    ensures !resolved && !(reply.Response? && reply.status == 401) ==>
              w.storage == old(w.storage) && w.location == old(w.location)
  {
    resolved, sent := PostLogin(w, "/admin/login", credentials, reply);
  }

  /** `checkAuthState`: nothing is asked without a truthy token; a failed
      check drops the token and answers null. */
  method CheckAuthState<T>(w: Window, reply: Reply<T>) returns (r: Option<T>, sent: Option<HttpRequest>)
    modifies w`storage, w`location
    ensures !Truthy(old(w.storage), TokenKey) ==>
              r == None && sent == None && w.storage == old(w.storage) && w.location == old(w.location)
    ensures Truthy(old(w.storage), TokenKey) ==>
              sent == Some(HttpRequest("GET", ApiUrl + "/check-auth", WithToken(old(w.storage), DefaultHeaders), ""))
    ensures Truthy(old(w.storage), TokenKey) && reply.Ok() ==>
              r == Some(reply.body) && w.storage == old(w.storage) && w.location == old(w.location)
    ensures Truthy(old(w.storage), TokenKey) && !reply.Ok() ==>
              r == None && w.storage == old(w.storage) - {TokenKey} &&
              w.location == (if reply.Response? && reply.status == 401 then "/login" else old(w.location))
    ensures r.Some? ==> TokenKey in w.storage
  {
    if !Truthy(w.storage, TokenKey) {
      return None, None;
    }
    var resolved, request := Send(w, "GET", "/check-auth", "", reply);
    sent := Some(request);
    if resolved {
      r := Some(reply.body);
    } else {
      w.RemoveItem(TokenKey);
      r := None;
    }
  }
}
