/** The sign-in page: its form, its error text, and the submit handler. */
module LoginPage {
  import opened Wrappers
  import opened Api
  import opened Storage

  const INVALID_CREDENTIALS: string := "Invalid credentials"

  /** The error text for a rejected sign-in: the server's `detail`, else the fallback. */
  function LoginError(e: HttpError): string {
    OrElse(ErrorField(e, "detail"), INVALID_CREDENTIALS)
  }

  /**
   A non-empty `detail` string is shown verbatim. The fallback is shown when
   no response arrived, when the response has no body or a text body, and
   when `detail` is absent or empty.
   */
  lemma LoginErrorShowsDetail(e: HttpError)
    ensures forall d :: d != "" && ErrorField(e, "detail") == Some(Str(d)) ==> LoginError(e) == d
    ensures (ErrorField(e, "detail").None? || ErrorField(e, "detail") == Some(Str(""))) ==>
      LoginError(e) == INVALID_CREDENTIALS
    ensures e.response.None? ==> LoginError(e) == INVALID_CREDENTIALS
    ensures (e.response.Some? && (e.response.value.data.None? || e.response.value.data.value.Text?)) ==>
      LoginError(e) == INVALID_CREDENTIALS
  {
  }

  /**
   For a JSON object body: a truthy `detail` field is what is shown, and a
   body without a `detail` field shows "Invalid credentials".
   */
  lemma LoginErrorOfObject(status: int, fields: seq<(string, FieldValue)>)
    requires DistinctKeys(fields)
    ensures forall i :: 0 <= i < |fields| && fields[i].0 == "detail" && Truthy(fields[i].1) ==>
      LoginError(FieldsError(status, fields)) == Shown(fields[i].1)
    ensures (forall i :: 0 <= i < |fields| ==> fields[i].0 != "detail") ==>
      LoginError(FieldsError(status, fields)) == INVALID_CREDENTIALS
  {
    ErrorFieldOfObject(status, fields, "detail");
  }

  /**
   The browser's constraint validation of the form: both inputs are
   `required`, so the form's submit event, and with it `handleSubmit`,
   fires only when neither is empty.
   */
  predicate PassesConstraints(form: LoginForm) {
    form.username != "" && form.password != ""
  }

  class Login {
    const storage: LocalStorage
    var formData: LoginForm
    var error: string
    var loading: bool
    var navigatedTo: Option<string>
    ghost var requests: seq<Request>

    constructor (store: LocalStorage)
      ensures storage == store
      ensures formData == LoginForm("", "") && error == "" && !loading
      ensures navigatedTo == None && requests == []
    {
      storage := store;
      formData := LoginForm("", "");
      error := "";
      loading := false;
      navigatedTo := None;
      requests := [];
    }

    /** The controlled inputs' onChange: the form holds what was typed. */
    method Type(username: string, password: string)
      modifies this
      ensures formData == LoginForm(username, password)
      ensures error == old(error) && loading == old(loading) && navigatedTo == old(navigatedTo)
      ensures requests == old(requests)
    {
      formData := LoginForm(username, password);
    }

    /**
     Pressing the submit button: the browser first checks the `required`
     inputs and, when one is empty, fires no submit event, so nothing
     changes; otherwise `handleSubmit` runs.
     */
    method Submit(result: Result<Tokens>)
      modifies this, storage
      ensures !PassesConstraints(old(formData)) ==>
        && requests == old(requests) && storage.items == old(storage.items)
        && formData == old(formData) && error == old(error)
        && loading == old(loading) && navigatedTo == old(navigatedTo)
      ensures PassesConstraints(old(formData)) ==>
        && requests == old(requests) + [Post("/login/", LoginBody(old(formData)))]
        && formData == old(formData) && !loading
        && (result.Ok? ==>
              && storage.items == WithTokens(old(storage.items), result.value.access, result.value.refresh)
              && navigatedTo == Some("/dashboard")
              && error == "")
        && (result.Err? ==>
              && storage.items == old(storage.items)
              && navigatedTo == old(navigatedTo)
              && error == LoginError(result.error))
    {
      if !PassesConstraints(formData) {
        return;
      }
      HandleSubmit(result);
    }

    /**
     `handleSubmit`: post the form to `/login/` (`result` is the answer).
     Success stores both tokens and goes to the dashboard; failure shows the
     server's `detail` or "Invalid credentials" and leaves storage alone.
     */
    method HandleSubmit(result: Result<Tokens>)
      modifies this, storage
      ensures requests == old(requests) + [Post("/login/", LoginBody(old(formData)))]
      ensures formData == old(formData) && !loading
      ensures result.Ok? ==>
        && storage.items == WithTokens(old(storage.items), result.value.access, result.value.refresh)
        && navigatedTo == Some("/dashboard")
        && error == ""
      ensures result.Err? ==>
        && storage.items == old(storage.items)
        && navigatedTo == old(navigatedTo)
        && error == LoginError(result.error)
    {
      loading := true;
      error := "";
      requests := requests + [Post("/login/", LoginBody(formData))];
      match result {
        case Ok(tokens) =>
          storage.SetItem(ACCESS_TOKEN, tokens.access);
          storage.SetItem(REFRESH_TOKEN, tokens.refresh);
          navigatedTo := Some("/dashboard");
        case Err(e) =>
          error := LoginError(e);
      }
      loading := false;
    }
  }

  /**
   Typing a username and password and pressing the button: with either left
   empty nothing is sent and storage is untouched; otherwise the one request
   carries exactly `{username, password}` to `/login/`.
   */
  method SubmitTyped(items: map<string, string>, username: string, password: string, result: Result<Tokens>)
    returns (ghost sent: seq<Request>, after: map<string, string>, shown: string, stillLoading: bool)
    ensures (username == "" || password == "") ==> sent == [] && after == items && shown == ""
    ensures username != "" && password != "" ==>
      && sent == [Post("/login/", LoginBody(LoginForm(username, password)))]
      && (result.Ok? ==> after == WithTokens(items, result.value.access, result.value.refresh) && shown == "")
      && (result.Err? ==> after == items && shown == LoginError(result.error))
    ensures !stillLoading
  {
    var store := new LocalStorage(items);
    var page := new Login(store);
    page.Type(username, password);
    page.Submit(result);
    sent, after, shown, stillLoading := page.requests, store.items, page.error, page.loading;
  }
}
