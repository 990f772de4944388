/** The browser state the frontend's session layer shares: `localStorage`,
    the default `Authorization` header of the global axios instance, and
    `window.location.href`. */
module Browser {
  import opened Common

  /** The backend's base URL, written out by every page and by the axios
      instance. */
  const ApiUrl := "http://localhost:5000/api"

  /** The two storage keys the session uses. */
  const TokenKey := "token"
  const UserDataKey := "userData"

  /** A stored value is truthy when it exists and is not the empty string:
      `localStorage.getItem` answers `null` for a missing key. */
  predicate Truthy(storage: map<string, string>, key: string)
  {
    key in storage && storage[key] != ""
  }

  /** The text of a template literal `${v}` or of `localStorage.setItem(k, v)`
      for a JSON field that may be missing or null. */
  function FieldText(f: Field<string>): string
  {
    match f
    case Absent => "undefined"
    case Null => "null"
    case Present(s) => s
  }

  /** `Bearer ${localStorage.getItem('token')}`, as the pages build it by
      hand: a missing token reads "null". */
  function AuthHeader(storage: map<string, string>): string
  {
    "Bearer " + (if TokenKey in storage then storage[TokenKey] else "null")
  }

  /** A field is truthy when present and not the empty string. */
  predicate FieldTruthy(f: Field<string>)
  {
    f.Present? && f.value != ""
  }

  /** A request as it leaves the page: method, URL, headers and body text
      (empty when there is none). */
  datatype HttpRequest = HttpRequest(verb: string, url: string, headers: map<string, string>, body: string)

  /** The JSON body `/api/login` and `/api/admin/login` answer with. */
  datatype LoginReply = LoginReply(token: Field<string>, userType: Field<string>, userId: nat)

  class Window {
    var storage: map<string, string>
    var defaultAuthorization: Option<string>
    var location: string

    constructor (storage: map<string, string>, location: string)
      ensures this.storage == storage && defaultAuthorization == None && this.location == location
    {
      this.storage := storage;
      this.defaultAuthorization := None;
      this.location := location;
    }

    /** `localStorage.setItem`. */
    method SetItem(key: string, value: string)
      modifies this`storage
      ensures storage == old(storage)[key := value]
    {
      storage := storage[key := value];
    }

    /** `localStorage.removeItem`; removing a missing key does nothing. */
    method RemoveItem(key: string)
      modifies this`storage
      ensures storage == old(storage) - {key}
    {
      storage := storage - {key};
    }
  }
}
