/** The registration form: its validation schema, the role choices and the
    outcome of a submission. */
module Registration {
  import opened Js

  datatype RegisterValues = RegisterValues(
    firstName: string, lastName: string, email: string, password: string,
    phone: string, address: string, role: string)

  /** Every text field starts empty; the role starts as a customer. */
  const InitialValues := RegisterValues("", "", "", "", "", "", "customer")

  /** The role menu: (value, label) pairs, in menu order. */
  const Roles: seq<(string, string)> := [("customer", "Customer"), ("seller", "Seller")]

  /** The schema. `isEmail` stands for the email format test, which a
      non-empty value must pass; every field is required and the password
      has at least six characters. The role is only required, not checked
      against the menu. */
  predicate RegisterSchema(v: RegisterValues, isEmail: string -> bool)
  {
    && v.firstName != "" && v.lastName != ""
    && v.email != "" && isEmail(v.email)
    && |v.password| >= 6
    && v.phone != "" && v.address != "" && v.role != ""
  }

  /** The values offered by the role menu. */
  function RoleValues(): (r: seq<string>)
    ensures r == ["customer", "seller"]
  {
    assert Roles[0].0 == "customer" && Roles[1].0 == "seller";
    Keys(Roles)
  }

  /** The default role is the first one the menu offers. */
  lemma DefaultRoleIsOffered()
    ensures InitialValues.role == RoleValues()[0]
    ensures InitialValues.role in RoleValues()
  {
  }

  /** The untouched form never passes, whatever the email test. */
  lemma InitialValuesRejected(isEmail: string -> bool)
    ensures !RegisterSchema(InitialValues, isEmail)
  {
  }

  /** Each field of an accepted form is required on its own: clearing any
      one of them makes the schema reject. */
  lemma EachFieldRequired(v: RegisterValues, isEmail: string -> bool)
    requires RegisterSchema(v, isEmail)
    ensures !RegisterSchema(v.(firstName := ""), isEmail) && !RegisterSchema(v.(lastName := ""), isEmail)
    ensures !RegisterSchema(v.(email := ""), isEmail) && !RegisterSchema(v.(password := ""), isEmail)
    ensures !RegisterSchema(v.(phone := ""), isEmail) && !RegisterSchema(v.(address := ""), isEmail)
    ensures !RegisterSchema(v.(role := ""), isEmail)
  {
  }

  /** A password shorter than six characters is rejected, whatever else is
      filled in; at six it no longer stands in the way. */
  lemma PasswordLength(v: RegisterValues, isEmail: string -> bool)
    ensures |v.password| < 6 ==> !RegisterSchema(v, isEmail)
    ensures RegisterSchema(v, isEmail) ==> |v.password| >= 6
  {
  }

  /** Any non-empty role passes the schema, also one the menu does not offer:
      the role check is left to the server. */
  lemma RoleNotRestricted(v: RegisterValues, isEmail: string -> bool, role: string)
    requires RegisterSchema(v, isEmail)
    requires role != ""
    ensures RegisterSchema(v.(role := role), isEmail)
  {
  }

  datatype Outcome = NotSubmitted | Navigate(path: string) | ShowError(message: string)

  /** A press of the submit button with `handleSubmit`. `isSubmitting` is
      Formik's flag, up while an earlier submission is pending: the button
      is then disabled and nothing is sent. Otherwise nothing is sent unless
      the schema accepts; success goes to the login page; failure shows the
      server's message, or a fixed text when there is none. */
  function Submit(v: RegisterValues, isEmail: string -> bool, isSubmitting: bool, response: Response<()>): (o: Outcome)
    ensures o == NotSubmitted <==> isSubmitting || !RegisterSchema(v, isEmail)
    ensures o.Navigate? <==> !isSubmitting && RegisterSchema(v, isEmail) && response.Ok?
    ensures o.Navigate? ==> o.path == "/login"
    ensures o.ShowError? ==> response.Failed? && o.message == NullOr(response.message, "Registration failed")
    ensures o.ShowError? ==> o.message != ""
  {
    if isSubmitting || !RegisterSchema(v, isEmail) then NotSubmitted
    else if response.Ok? then Navigate("/login")
    else ShowError(NullOr(response.message, "Registration failed"))
  }
}
