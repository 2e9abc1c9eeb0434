/** The sign-up page: its form, the Aadhaar length check, and the error text it derives from the server's answer. */
module RegisterPage {
  import opened Wrappers
  import opened Api

  /** The Aadhaar input's `maxLength`. */
  const AADHAAR_MAX_LENGTH: nat := 12
  /** The length below which submission is refused. */
  const AADHAAR_MIN_LENGTH: nat := 12
  const AADHAAR_TOO_SHORT: string := "Aadhaar Number must be at least 12 digits."
  const REGISTRATION_FAILED: string := "Registration failed"

  /** `Object.values(data)`: an object's field values in order; a string's characters, one per value. */
  function Values(d: ResponseData): (vs: seq<FieldValue>)
    ensures d.Fields? ==> |vs| == |d.fields| && forall i :: 0 <= i < |vs| ==> vs[i] == d.fields[i].1
    ensures d.Text? ==> |vs| == |d.text| && forall i :: 0 <= i < |vs| ==> vs[i] == Str([d.text[i]])
  {
    match d
    case Fields(fs) => seq(|fs|, i requires 0 <= i < |fs| => fs[i].1)
    case Text(t) => seq(|t|, i requires 0 <= i < |t| => Str([t[i]]))
  }

  /** `.flat()`: one level of arrays is spliced in; a string stays one element. */
  function Flat(vs: seq<FieldValue>): seq<string> {
    if vs == [] then []
    else
      (match vs[0] case Str(s) => [s] case Strs(ss) => ss) + Flat(vs[1..])
  }

  /** `.join(sep)` */
  function Join(parts: seq<string>, sep: string): string {
    if parts == [] then ""
    else if |parts| == 1 then parts[0]
    else parts[0] + sep + Join(parts[1..], sep)
  }

  /** JavaScript truthiness of `err.response?.data`: a missing body and the empty text are falsy. */
  predicate HasBody(e: HttpError) {
    e.response.Some? && e.response.value.data.Some? && e.response.value.data.value != Text("")
  }

  /** The text shown when the server rejects the registration. */
  function RegistrationError(e: HttpError): string {
    if HasBody(e) then Join(Flat(Values(e.response.value.data.value)), " ")
    else REGISTRATION_FAILED
  }

  /** Flattening distributes over concatenation. */
  lemma {:induction false} FlatAppend(a: seq<FieldValue>, b: seq<FieldValue>)
    ensures Flat(a + b) == Flat(a) + Flat(b)
    decreases |a|
  {
    if a == [] {
      assert a + b == b;
    } else {
      assert (a + b)[0] == a[0];
      assert (a + b)[1..] == a[1..] + b;
      FlatAppend(a[1..], b);
    }
  }

  /** Joining two non-empty runs puts exactly one separator between them. */
  lemma {:induction false} JoinAppend(a: seq<string>, b: seq<string>, sep: string)
    requires a != [] && b != []
    ensures Join(a + b, sep) == Join(a, sep) + sep + Join(b, sep)
    decreases |a|
  {
    if |a| > 1 {
      assert (a + b)[1..] == a[1..] + b;
      JoinAppend(a[1..], b, sep);
    }
  }

  /**
   The error for a body with several fields is the errors of its first
   fields and of its remaining fields, one space between, so each field's
   messages appear in order, separated by single spaces.
   */
  lemma RegistrationErrorSplits(status: int, front: seq<(string, FieldValue)>, back: seq<(string, FieldValue)>)
    requires DistinctKeys(front + back)
    requires Flat(Values(Fields(front))) != [] && Flat(Values(Fields(back))) != []
    ensures RegistrationError(FieldsError(status, front + back))
         == RegistrationError(FieldsError(status, front)) + " " + RegistrationError(FieldsError(status, back))
  {
    var vf, vb := Values(Fields(front)), Values(Fields(back));
    ValuesAppend(front, back);
    FlatAppend(vf, vb);
    JoinAppend(Flat(vf), Flat(vb), " ");
  }

  /** The values of two runs of fields are the values of the first run followed by those of the second. */
  lemma ValuesAppend(front: seq<(string, FieldValue)>, back: seq<(string, FieldValue)>)
    ensures Values(Fields(front + back)) == Values(Fields(front)) + Values(Fields(back))
  {
    var all, vf, vb := Values(Fields(front + back)), Values(Fields(front)), Values(Fields(back));
    forall i | 0 <= i < |all| ensures all[i] == (vf + vb)[i] {
      if i < |front| {
        assert (front + back)[i] == front[i];
      } else {
        assert (front + back)[i] == back[i - |front|];
      }
    }
  }

  /** A single field listing messages (Django's usual shape) shows those messages joined by spaces. */
  lemma RegistrationErrorOneField(status: int, key: string, messages: seq<string>)
    ensures RegistrationError(FieldsError(status, [(key, Strs(messages))])) == Join(messages, " ")
  {
    var vs := Values(Fields([(key, Strs(messages))]));
    assert vs == [Strs(messages)];
    assert vs[1..] == [];
    assert Flat(vs) == messages + Flat([]);
    assert Flat(vs) == messages;
  }

  /** Only lengths matter: no digit check, so any text of at least 12 characters passes. */
  predicate AadhaarAccepted(aadhaar: string) {
    |aadhaar| >= AADHAAR_MIN_LENGTH
  }

  /**
   The browser's constraint validation of the form: all four inputs are
   `required`, and the `type="email"` input must hold a well-formed address.
   That syntax check belongs to the browser and arrives as `emailWellFormed`.
   The form's submit event, and with it `handleSubmit`, fires only when
   every constraint holds.
   */
  predicate PassesConstraints(form: RegisterForm, emailWellFormed: bool) {
    && form.username != "" && form.email != "" && form.password != ""
    && form.aadhaar_number != "" && emailWellFormed
  }

  class Register {
    var formData: RegisterForm
    var error: string
    var loading: bool
    var navigatedTo: Option<string>
    ghost var requests: seq<Request>

    /** The input's `maxLength` keeps the Aadhaar field within 12 characters. */
    ghost predicate Valid()
      reads this
    {
      |formData.aadhaar_number| <= AADHAAR_MAX_LENGTH
    }

    constructor ()
      ensures Valid()
      ensures formData == RegisterForm("", "", "", "") && error == "" && !loading
      ensures navigatedTo == None && requests == []
    {
      formData := RegisterForm("", "", "", "");
      error := "";
      loading := false;
      navigatedTo := None;
      requests := [];
    }

    /** The inputs' onChange; the browser cuts the Aadhaar text at `maxLength`. */
    method Type(username: string, email: string, password: string, aadhaar: string)
      modifies this
      ensures Valid()
      ensures formData == RegisterForm(username, email, password,
        if |aadhaar| <= AADHAAR_MAX_LENGTH then aadhaar else aadhaar[..AADHAAR_MAX_LENGTH])
      ensures error == old(error) && loading == old(loading) && navigatedTo == old(navigatedTo)
      ensures requests == old(requests)
    {
      var kept := if |aadhaar| <= AADHAAR_MAX_LENGTH then aadhaar else aadhaar[..AADHAAR_MAX_LENGTH];
      formData := RegisterForm(username, email, password, kept);
    }

    /**
     Pressing the submit button: when the browser's constraint validation
     fails no submit event fires and nothing changes; otherwise
     `handleSubmit` runs.
     */
    method Submit(emailWellFormed: bool, result: Result<()>)
      requires Valid()
      modifies this
      ensures Valid()
      ensures formData == old(formData)
      ensures !PassesConstraints(formData, emailWellFormed) ==>
        && requests == old(requests) && error == old(error)
        && loading == old(loading) && navigatedTo == old(navigatedTo)
      ensures PassesConstraints(formData, emailWellFormed) && !AadhaarAccepted(formData.aadhaar_number) ==>
        && error == AADHAAR_TOO_SHORT && !loading
        && requests == old(requests)
        && navigatedTo == old(navigatedTo)
      ensures PassesConstraints(formData, emailWellFormed) && AadhaarAccepted(formData.aadhaar_number) ==>
        && !loading
        && requests == old(requests) + [Post("/register/", RegisterBody(formData))]
        && (result.Ok? ==> navigatedTo == Some("/login") && error == "")
        && (result.Err? ==> navigatedTo == old(navigatedTo) && error == RegistrationError(result.error))
    {
      if !PassesConstraints(formData, emailWellFormed) {
        return;
      }
      HandleSubmit(result);
    }

    /**
     `handleSubmit`: refuse a short Aadhaar number without any request;
     otherwise post the form unchanged to `/register/` (`result` is the
     answer), go to the sign-in page on success, show the flattened
     server errors on failure. Loading ends on every path.
     */
    method HandleSubmit(result: Result<()>)
      requires Valid()
      modifies this
      ensures Valid()
      ensures formData == old(formData) && !loading
      ensures !AadhaarAccepted(formData.aadhaar_number) ==>
        && error == AADHAAR_TOO_SHORT
        && requests == old(requests)
        && navigatedTo == old(navigatedTo)
      ensures AadhaarAccepted(formData.aadhaar_number) ==>
        && |formData.aadhaar_number| == 12
        && requests == old(requests) + [Post("/register/", RegisterBody(formData))]
        && (result.Ok? ==> navigatedTo == Some("/login") && error == "")
        && (result.Err? ==> navigatedTo == old(navigatedTo) && error == RegistrationError(result.error))
    {
      loading := true;
      error := "";
      if |formData.aadhaar_number| < AADHAAR_MIN_LENGTH {
        error := AADHAAR_TOO_SHORT;
        loading := false;
        return;
      }
      requests := requests + [Post("/register/", RegisterBody(formData))];
      match result {
        case Ok(_) =>
          navigatedTo := Some("/login");
        case Err(e) =>
          error := RegistrationError(e);
      }
      loading := false;
    }
  }

  /**
   Filling in the form and pressing the button. With a field left empty or
   an address the browser rejects, nothing is sent and no error is shown.
   Otherwise a request goes out exactly when the Aadhaar text, as the
   input kept it, has 12 characters.
   */
  method SubmitTyped(username: string, email: string, password: string, aadhaar: string,
                     emailWellFormed: bool, result: Result<()>)
    returns (ghost sent: seq<Request>, shownError: string, went: Option<string>)
    ensures !PassesConstraints(RegisterForm(username, email, password, aadhaar), emailWellFormed) ==> sent == []
    ensures !PassesConstraints(RegisterForm(username, email, password, aadhaar), emailWellFormed) ==>
      shownError == "" && went == None
    ensures PassesConstraints(RegisterForm(username, email, password, aadhaar), emailWellFormed) ==>
      && (|aadhaar| < 12 ==> sent == [])
      && (|aadhaar| >= 12 ==>
            sent == [Post("/register/", RegisterBody(RegisterForm(username, email, password, aadhaar[..12])))])
    ensures PassesConstraints(RegisterForm(username, email, password, aadhaar), emailWellFormed) ==>
      && (|aadhaar| < 12 ==> shownError == AADHAAR_TOO_SHORT && went == None)
      && (|aadhaar| >= 12 && result.Ok? ==> went == Some("/login") && shownError == "")
      && (|aadhaar| >= 12 && result.Err? ==> went == None && shownError == RegistrationError(result.error))
  {
    var page := new Register();
    page.Type(username, email, password, aadhaar);
    assert |aadhaar| == 12 ==> aadhaar[..12] == aadhaar;
    page.Submit(emailWellFormed, result);
    sent, shownError, went := page.requests, page.error, page.navigatedTo;
  }
}
