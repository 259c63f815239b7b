// components/auth/SignUp.tsx — the sign-up form's checks, in order: every
// field filled, the passwords equal, the password at least eight long.
module SignUp {

  datatype Outcome = AllFieldsError | PasswordMatchError | PasswordLengthError | Success

  const MinPasswordLength: nat := 8

  /** handleSubmit's guard chain; the first failing check decides. */
  function Submit(name: string, email: string, password: string, confirmPassword: string): Outcome
  {
    if name == [] || email == [] || password == [] || confirmPassword == [] then AllFieldsError
    else if password != confirmPassword then PasswordMatchError
    else if |password| < MinPasswordLength then PasswordLengthError
    else Success
  }

  /** The message left in the error state after a submit, by its translation
      key; it is cleared first, so nothing of the previous one survives. */
  function ErrorAfter(o: Outcome): string
  {
    match o
    case AllFieldsError => "auth_signup_error_all_fields"
    case PasswordMatchError => "auth_signup_error_password_match"
    case PasswordLengthError => "auth_signup_error_password_length"
    case Success => ""
  }

  /** Success is reached exactly when all four fields are filled, the two
      passwords agree and the password is long enough. */
  lemma SuccessIff(name: string, email: string, password: string, confirmPassword: string)
    ensures Submit(name, email, password, confirmPassword) == Success
            <==> name != [] && email != [] && password != [] && confirmPassword != []
                 && password == confirmPassword && |password| >= MinPasswordLength
  {
  }

  /** Each error is reported exactly when its check is the first to fail. */
  lemma ErrorsInOrder(name: string, email: string, password: string, confirmPassword: string)
    ensures var filled := name != [] && email != [] && password != [] && confirmPassword != [];
            (Submit(name, email, password, confirmPassword) == AllFieldsError <==> !filled)
            && (Submit(name, email, password, confirmPassword) == PasswordMatchError
                <==> filled && password != confirmPassword)
            && (Submit(name, email, password, confirmPassword) == PasswordLengthError
                <==> filled && password == confirmPassword && |password| < MinPasswordLength)
  {
  }

  /** The error shown is empty exactly on success. */
  lemma ErrorEmptyIffSuccess(o: Outcome)
    ensures ErrorAfter(o) == [] <==> o == Success
  {
  }
}
