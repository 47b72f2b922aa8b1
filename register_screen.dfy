/**
 * The registration screen: the form, its live validation on each edit,
 * the validity test that gates the request, and the payload it posts.
 */
module RegisterScreen {
  import opened Base
  import opened Js
  import opened Client

  datatype Field = Username | Email | FirstName | LastName | Password | ConfirmPassword

  datatype Form = Form(username: string, email: string, firstName: string, lastName: string,
                       password: string, confirmPassword: string)
  {
    function Value(f: Field): string {
      match f
      case Username => username
      case Email => email
      case FirstName => firstName
      case LastName => lastName
      case Password => password
      case ConfirmPassword => confirmPassword
    }

    /** `{ ...form, [field]: value }`. */
    function With(f: Field, v: string): (r: Form)
      ensures r.Value(f) == v
      ensures forall g :: g != f ==> r.Value(g) == Value(g)
    {
      match f
      case Username => this.(username := v)
      case Email => this.(email := v)
      case FirstName => this.(firstName := v)
      case LastName => this.(lastName := v)
      case Password => this.(password := v)
      case ConfirmPassword => this.(confirmPassword := v)
    }
  }

  const EmptyForm: Form := Form("", "", "", "", "", "")
  const Mismatch: string := "Passwords do not match"
  const InvalidTitle: string := "Invalid Input"
  const InvalidMessage: string := "Please fill all fields correctly."
  const SuccessTitle: string := "Success! \U{1F389}"
  const SuccessMessage: string := "Account created successfully."
  const FailedTitle: string := "Registration Failed"

  /** `isValid`: the four required fields are filled and the two passwords agree. */
  predicate IsValid(f: Form) {
    f.username != "" && f.email != "" && f.password != "" && f.confirmPassword != "" &&
    f.password == f.confirmPassword
  }

  /** First and last name play no part in validity. */
  lemma NamesDoNotMatter(f: Form, first: string, last: string)
    ensures IsValid(f.(firstName := first, lastName := last)) == IsValid(f)
  {
  }

  /** Emptying the username, email or either password field makes any form invalid. */
  lemma ClearingRequiredFieldInvalidates(form: Form, f: Field)
    requires f != FirstName && f != LastName
    ensures !IsValid(form.With(f, ""))
  {
  }

  /** With username, email and password filled, typing the password again as confirmation makes the form valid. */
  lemma MatchingConfirmationValidates(form: Form)
    requires form.username != "" && form.email != "" && form.password != ""
    ensures IsValid(form.With(ConfirmPassword, form.password))
  {
  }

  /** The `register/` payload: the form's fields under the server's names. */
  function Payload(f: Form): (body: Record)
    ensures body.Keys == {"username", "email", "password", "confirm_password", "first_name", "last_name"}
    ensures body["username"] == JStr(f.username) && body["email"] == JStr(f.email)
    ensures body["password"] == JStr(f.password) && body["confirm_password"] == JStr(f.confirmPassword)
    ensures body["first_name"] == JStr(f.firstName) && body["last_name"] == JStr(f.lastName)
  {
    map["username" := JStr(f.username), "email" := JStr(f.email), "password" := JStr(f.password),
        "confirm_password" := JStr(f.confirmPassword), "first_name" := JStr(f.firstName),
        "last_name" := JStr(f.lastName)]
  }

  /**
   * How the server answered: created, or rejected with the error's message
   * and, when a response arrived, its data serialised as JSON.
   */
  datatype Outcome = Created | Rejected(response: Option<string>, message: string)

  /** `JSON.stringify(e.response?.data) || e.message`: the response data when there was a response. */
  function FailureText(o: Outcome): (t: string)
    requires o.Rejected?
    ensures o.response.Some? ==> t == o.response.value
    ensures o.response.None? ==> t == o.message
  {
    o.response.GetOr(o.message)
  }

  /** The error map after an edit, as `handleChange` computes it from the values it captured. */
  function ErrorsAfter(form: Form, errors: map<Field, string>, f: Field, v: string): (r: map<Field, string>)
    ensures f == ConfirmPassword && form.password != v ==> r == errors[ConfirmPassword := Mismatch]
    ensures !(f == ConfirmPassword && form.password != v) ==> r == errors[f := ""]
  {
    if f == ConfirmPassword && form.password != v then errors[ConfirmPassword := Mismatch]
    else errors[f := ""]
  }

  /** The mismatch error is raised only by a confirmation that differs from the password, which makes the form invalid. */
  lemma MismatchOnlyFromConfirmation(form: Form, errors: map<Field, string>, f: Field, v: string)
    requires ErrorOf(errors, ConfirmPassword) != Mismatch
    ensures ErrorOf(ErrorsAfter(form, errors, f, v), ConfirmPassword) == Mismatch <==> f == ConfirmPassword && form.password != v
    ensures ErrorOf(ErrorsAfter(form, errors, f, v), ConfirmPassword) == Mismatch ==> !IsValid(form.With(f, v))
  {
  }

  /** The error shown under a field, `errors[field]`. */
  function ErrorOf(errors: map<Field, string>, f: Field): string {
    if f in errors then errors[f] else ""
  }

  class Screen {
    var form: Form
    var errors: map<Field, string>
    var loading: bool

    constructor()
      ensures form == EmptyForm && errors == map[] && !loading
    {
      form := EmptyForm;
      errors := map[];
      loading := false;
    }

    /**
     * `handleChange(field, value)`: the field takes the value and its error
     * is cleared; editing the confirmation to something other than the
     * current password sets the mismatch error instead. Editing the password
     * never sets it.
     */
    method HandleChange(f: Field, v: string)
      modifies this`form, this`errors
      ensures form == old(form).With(f, v)
      ensures errors == ErrorsAfter(old(form), old(errors), f, v)
      ensures f != ConfirmPassword ==> errors[f] == ""
    {
      var captured := form;
      var capturedErrors := errors;
      form := captured.With(f, v);
      errors := capturedErrors[f := ""];
      if f == ConfirmPassword || f == Password {
        if captured.password != v && f == ConfirmPassword {
          errors := capturedErrors[ConfirmPassword := Mismatch];
        }
      }
    }

    /**
     * `register`: an invalid form is refused with an alert and no request;
     * a valid one posts the payload, then reports success and goes back, or
     * reports the failure. Loading is off again afterwards.
     */
    method Register(app: App, outcome: Outcome)
      modifies this`loading, app`effects, app`stack
      ensures !IsValid(form) ==>
                loading == old(loading) && app.stack == old(app.stack) &&
                app.effects == old(app.effects) + [Alerted(InvalidTitle, InvalidMessage)]
      ensures IsValid(form) ==> loading == false
      ensures IsValid(form) && outcome.Created? ==>
                app.stack == Pop(old(app.stack)) &&
                app.effects == old(app.effects) + [LoadingSet(true), Posted("register/", Payload(form)),
                                                   Alerted(SuccessTitle, SuccessMessage), WentBack, LoadingSet(false)]
      ensures IsValid(form) && outcome.Rejected? ==>
                app.stack == old(app.stack) &&
                app.effects == old(app.effects) + [LoadingSet(true), Posted("register/", Payload(form)),
                                                   Alerted(FailedTitle, FailureText(outcome)), LoadingSet(false)]
    {
      if !IsValid(form) {
        app.effects := app.effects + [Alerted(InvalidTitle, InvalidMessage)];
        return;
      }
      loading := true;
      app.effects := app.effects + [LoadingSet(true)];
      var payload := Payload(form);
      app.effects := app.effects + [Posted("register/", payload)];
      if outcome.Created? {
        app.effects := app.effects + [Alerted(SuccessTitle, SuccessMessage)];
        app.stack := Pop(app.stack);
        app.effects := app.effects + [WentBack];
      } else {
        app.effects := app.effects + [Alerted(FailedTitle, FailureText(outcome))];
      }
      loading := false;
      app.effects := app.effects + [LoadingSet(false)];
    }
  }
}
