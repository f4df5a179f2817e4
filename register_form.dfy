/**
 * The registration form's submit handler: four inputs are checked in a fixed
 * order, and only when both checks pass is the account service asked to
 * register the user; its answer decides the message shown.
 *
 * The account service is the parameter `register`, whose answer is not
 * modelled further. The handler's effects are recorded as the list of calls
 * made to `register` and the list of toasts raised.
 */
module RegisterForm {
  import opened Toasts

  /** The form's four text inputs. */
  datatype Inputs = Inputs(name: string, email: string, password: string, confirmPassword: string)

  /** What the account service is asked to register. */
  datatype Credentials = Credentials(name: string, email: string, password: string)

  /** What one submit does: the calls made to the account service and the toasts raised. */
  datatype Effects = Effects(registerCalls: seq<Credentials>, toasts: seq<Toast>)

  predicate AllFilled(f: Inputs) {
    f.name != "" && f.email != "" && f.password != "" && f.confirmPassword != ""
  }

  /** Both checks pass, so the account service is asked. */
  predicate Ready(f: Inputs) {
    AllFilled(f) && f.password == f.confirmPassword
  }

  /** One submit of the registration form. */
  function HandleSubmit(f: Inputs, register: Credentials -> bool): (r: Effects)
    // every submit raises exactly one toast and asks the account service at most once
    ensures |r.toasts| == 1
    ensures |r.registerCalls| <= 1
    // an empty input is reported first, whatever the passwords are
    ensures !AllFilled(f) ==> r.toasts == [FillAllFields] && r.registerCalls == []
    ensures AllFilled(f) && f.password != f.confirmPassword ==>
              r.toasts == [PasswordsDoNotMatch] && r.registerCalls == []
    // the service is asked exactly when both checks pass, with the name, email and password
    ensures r.registerCalls != [] <==> Ready(f)
    ensures Ready(f) ==> r.registerCalls == [Credentials(f.name, f.email, f.password)]
    // its answer is reported as success or as a duplicate email
    ensures Ready(f) ==>
              (r.toasts == [AccountCreated] <==> register(Credentials(f.name, f.email, f.password))) &&
              (r.toasts == [EmailAlreadyExists] <==> !register(Credentials(f.name, f.email, f.password)))
  {
    if !AllFilled(f) then
      Effects([], [FillAllFields])
    else if f.password != f.confirmPassword then
      Effects([], [PasswordsDoNotMatch])
    else
      var creds := Credentials(f.name, f.email, f.password);
      var success := register(creds);
      Effects([creds], [if success then AccountCreated else EmailAlreadyExists])
  }

  /** When the checks refuse the inputs, the account service's behaviour cannot matter. */
  lemma RefusedIgnoresService(f: Inputs, register: Credentials -> bool, register': Credentials -> bool)
    requires !Ready(f)
    ensures HandleSubmit(f, register) == HandleSubmit(f, register')
  {
  }

  /** The message shown tells whether the account service was asked. */
  lemma ToastRevealsServiceCall(f: Inputs, register: Credentials -> bool)
    ensures var r := HandleSubmit(f, register);
            r.registerCalls != [] <==> r.toasts[0] in {AccountCreated, EmailAlreadyExists}
  {
  }

  /**
   * The confirmation only gates the call: with every other input fixed and
   * filled, the service is asked, with the same credentials, exactly when the
   * confirmation equals the password, and otherwise the mismatch is reported.
   */
  lemma ConfirmationOnlyGates(f: Inputs, c: string, register: Credentials -> bool)
    requires AllFilled(f) && c != ""
    ensures var r := HandleSubmit(f.(confirmPassword := c), register);
            && r.registerCalls == (if c == f.password then [Credentials(f.name, f.email, f.password)] else [])
            && (c != f.password ==> r.toasts == [PasswordsDoNotMatch])
  {
  }
}
