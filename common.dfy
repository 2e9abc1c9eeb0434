/** The customary optional value. */
module Wrappers {
  datatype Option<+T> = None | Some(value: T)
}

/**
 The browser's `localStorage`: one string-to-string map shared by every
 component of the client (the auth context, the pages and the route guard).
 */
module Storage {
  const ACCESS_TOKEN: string := "access_token"
  const REFRESH_TOKEN: string := "refresh_token"

  class LocalStorage {
    var items: map<string, string>

    constructor (initial: map<string, string>)
      ensures items == initial
    {
      items := initial;
    }

    /** `localStorage.setItem(key, value)` */
    method SetItem(key: string, value: string)
      modifies this
      ensures items == old(items)[key := value]
    {
      items := items[key := value];
    }

    /** `localStorage.removeItem(key)`; removing an absent key is a no-op. */
    method RemoveItem(key: string)
      modifies this
      ensures items == old(items) - {key}
    {
      items := items - {key};
    }

    /** `localStorage.clear()` */
    method Clear()
      modifies this
      ensures items == map[]
    {
      items := map[];
    }
  }

  /**
   `localStorage.getItem('access_token')` is truthy: `getItem` yields null
   for a missing key, and the empty string is falsy too.
   */
  predicate HasAccessToken(items: map<string, string>) {
    ACCESS_TOKEN in items && items[ACCESS_TOKEN] != ""
  }

  lemma TokenKeysDistinct()
    ensures ACCESS_TOKEN != REFRESH_TOKEN
  {
    assert ACCESS_TOKEN[0] != REFRESH_TOKEN[0];
  }

  /** The storage after both token keys are written. */
  function WithTokens(items: map<string, string>, access: string, refresh: string): (r: map<string, string>)
    ensures ACCESS_TOKEN in r && r[ACCESS_TOKEN] == access
    ensures REFRESH_TOKEN in r && r[REFRESH_TOKEN] == refresh
    ensures forall k :: k != ACCESS_TOKEN && k != REFRESH_TOKEN ==>
      (k in r <==> k in items) && (k in r ==> r[k] == items[k])
  {
    TokenKeysDistinct();
    items[ACCESS_TOKEN := access][REFRESH_TOKEN := refresh]
  }

  /** The storage after both token keys are removed; every other key is kept. */
  function WithoutTokens(items: map<string, string>): (r: map<string, string>)
    ensures ACCESS_TOKEN !in r && REFRESH_TOKEN !in r
    ensures forall k :: k != ACCESS_TOKEN && k != REFRESH_TOKEN ==>
      (k in r <==> k in items) && (k in r ==> r[k] == items[k])
  {
    items - {ACCESS_TOKEN, REFRESH_TOKEN}
  }

  /** Removing the tokens twice is the same as removing them once. */
  lemma WithoutTokensIdempotent(items: map<string, string>)
    ensures WithoutTokens(WithoutTokens(items)) == WithoutTokens(items)
  {
  }

  /** Writing the tokens and then removing them leaves exactly what removing them alone leaves. */
  lemma WithoutTokensUndoesWithTokens(items: map<string, string>, access: string, refresh: string)
    ensures WithoutTokens(WithTokens(items, access, refresh)) == WithoutTokens(items)
  {
    var a := WithoutTokens(WithTokens(items, access, refresh));
    var b := WithoutTokens(items);
    assert forall k :: k in a <==> k in b;
  }

  /** After writing the tokens, the access token counts as present exactly when it is not empty. */
  lemma WithTokensGivesAccess(items: map<string, string>, access: string, refresh: string)
    ensures HasAccessToken(WithTokens(items, access, refresh)) <==> access != ""
  {
  }
}

/**
 The shapes exchanged with the REST server, as the client sees them, and
 the client's JavaScript reading of an error (`err.response?.data?.field || fallback`).
 */
module Api {
  import opened Wrappers

  /** A value of a JSON error body: a string, or a list of strings (Django's field errors). */
  datatype FieldValue = Str(text: string) | Strs(texts: seq<string>)

  /** A response body: a JSON object (its fields in order) or plain text. */
  datatype ResponseData = Fields(fields: seq<(string, FieldValue)>) | Text(text: string)

  datatype ErrorResponse = ErrorResponse(status: int, data: Option<ResponseData>)

  /** A rejected call; `response` is None when no response arrived at all. */
  datatype HttpError = HttpError(response: Option<ErrorResponse>)

  /** The outcome of an awaited call, supplied to the handlers as a parameter. */
  datatype Result<T> = Ok(value: T) | Err(error: HttpError)

  datatype Profile = Profile(username: string, email: string, balance: int, aadhaar_number: string)
  datatype TxnRow = TxnRow(id: int, sender_name: string, receiver_name: string, amount: int, timestamp: int, status: string)
  datatype UserOption = UserOption(username: string)
  datatype Tokens = Tokens(access: string, refresh: string)

  datatype LoginForm = LoginForm(username: string, password: string)
  datatype RegisterForm = RegisterForm(username: string, email: string, password: string, aadhaar_number: string)
  datatype TransferForm = TransferForm(receiver_username: string, amount: string)

  datatype Payload = LoginBody(login: LoginForm) | RegisterBody(register: RegisterForm) | TransferBody(transfer: TransferForm)

  /** One request issued through the HTTP client. */
  datatype Request = Get(path: string) | Post(path: string, body: Payload)

  /** The first field named `key` of an object, if any. */
  function Lookup(fields: seq<(string, FieldValue)>, key: string): (v: Option<FieldValue>)
    ensures v.Some? ==> exists i :: 0 <= i < |fields| && fields[i] == (key, v.value)
    ensures v.None? ==> forall i :: 0 <= i < |fields| ==> fields[i].0 != key
  {
    if fields == [] then None
    else if fields[0].0 == key then Some(fields[0].1)
    else Lookup(fields[1..], key)
  }

  /** A parsed JSON object never names the same field twice. */
  predicate DistinctKeys(fields: seq<(string, FieldValue)>) {
    forall i, j :: 0 <= i < j < |fields| ==> fields[i].0 != fields[j].0
  }

  /** In a JSON object, the field named `key` is the one `Lookup` finds. */
  lemma {:induction false} LookupFindsTheField(fields: seq<(string, FieldValue)>, key: string, i: int)
    requires DistinctKeys(fields) && 0 <= i < |fields| && fields[i].0 == key
    ensures Lookup(fields, key) == Some(fields[i].1)
    decreases i
  {
    if i > 0 {
      assert fields[0].0 != key;
      var rest := fields[1..];
      forall a, b | 0 <= a < b < |rest| ensures rest[a].0 != rest[b].0 {
        assert rest[a] == fields[a + 1] && rest[b] == fields[b + 1];
      }
      assert rest[i - 1] == fields[i];
      LookupFindsTheField(rest, key, i - 1);
    }
  }

  /** `err.response?.data?.[key]`: undefined without a response, without a body, or on a text body. */
  function ErrorField(e: HttpError, key: string): Option<FieldValue> {
    match e.response
    case None => None
    case Some(resp) =>
      match resp.data
      case Some(Fields(fs)) => Lookup(fs, key)
      case _ => None
  }

  /** A rejection whose body is the JSON object `fields`. */
  function FieldsError(status: int, fields: seq<(string, FieldValue)>): HttpError {
    HttpError(Some(ErrorResponse(status, Some(Fields(fields)))))
  }

  /**
   For a JSON object body, `err.response.data[key]` is the value of the
   field named `key`, and undefined when no field has that name.
   */
  lemma ErrorFieldOfObject(status: int, fields: seq<(string, FieldValue)>, key: string)
    requires DistinctKeys(fields)
    ensures forall i :: 0 <= i < |fields| && fields[i].0 == key ==>
      ErrorField(FieldsError(status, fields), key) == Some(fields[i].1)
    ensures (forall i :: 0 <= i < |fields| ==> fields[i].0 != key) ==>
      ErrorField(FieldsError(status, fields), key) == None
  {
    forall i | 0 <= i < |fields| && fields[i].0 == key
      ensures ErrorField(FieldsError(status, fields), key) == Some(fields[i].1)
    {
      LookupFindsTheField(fields, key, i);
    }
  }

  /** JavaScript truthiness: the empty string is falsy, every array is truthy. */
  predicate Truthy(v: FieldValue) {
    v.Strs? || v.text != ""
  }

  /** What React renders for the value: a string as is, an array as its items side by side. */
  function Shown(v: FieldValue): string {
    match v
    case Str(s) => s
    case Strs(ss) => Concat(ss)
  }

  function Concat(ss: seq<string>): string {
    if ss == [] then "" else ss[0] + Concat(ss[1..])
  }

  /** `v || fallback` as displayed text. */
  function OrElse(v: Option<FieldValue>, fallback: string): (r: string)
    ensures v.Some? && Truthy(v.value) ==> r == Shown(v.value)
    ensures (v.None? || !Truthy(v.value)) ==> r == fallback
  {
    if v.Some? && Truthy(v.value) then Shown(v.value) else fallback
  }

  /** `error.response && error.response.status === 401` */
  predicate IsUnauthorized(e: HttpError) {
    e.response.Some? && e.response.value.status == 401
  }
}
