/**
 * The sign-up page: a role is chosen first, then the form is checked in a
 * fixed order before the account is created.
 */
module SignUp {
  import opened Common
  import opened Database

  const NoRoleError := "Please select a role"
  const MismatchError := "Passwords do not match"
  const ShortPasswordError := "Password must be at least 6 characters"
  const SignUpFailedError := "Failed to sign up"
  const MinPasswordLength := 6

  datatype SignUpForm = SignUpForm(fullName: string, email: string, password: string, confirmPassword: string)

  /** The checks of `handleSubmit`, in order: the first failing one names the error. */
  function Validate(role: Option<Role>, f: SignUpForm): (r: Option<string>)
    ensures r.None? <==> role.Some? && f.password == f.confirmPassword && |f.password| >= MinPasswordLength
    ensures role.None? ==> r == Some(NoRoleError)
    ensures role.Some? && f.password != f.confirmPassword ==> r == Some(MismatchError)
    ensures role.Some? && f.password == f.confirmPassword && |f.password| < MinPasswordLength ==>
      r == Some(ShortPasswordError)
  {
    if role.None? then Some(NoRoleError)
    else if f.password != f.confirmPassword then Some(MismatchError)
    else if |f.password| < MinPasswordLength then Some(ShortPasswordError)
    else None
  }

  /** Whatever the passwords, a missing role is the error reported. */
  lemma RoleCheckedFirst(f: SignUpForm)
    ensures Validate(None, f) == Some(NoRoleError)
  {
  }

  /** A mismatch is reported even for passwords that are also too short. */
  lemma MismatchBeforeLength(role: Role, f: SignUpForm)
    requires f.password != f.confirmPassword && |f.password| < MinPasswordLength
    ensures Validate(Some(role), f) == Some(MismatchError)
  {
  }

  /** Where a new account goes: developers to their dashboard, everyone else to the employer's. */
  function Landing(role: Role): (path: string)
    ensures role == Developer ==> path == DeveloperDashboardPath
    ensures role != Developer ==> path == EmployerDashboardPath
  {
    if role == Developer then DeveloperDashboardPath else EmployerDashboardPath
  }

  /** The call made to the auth service. */
  datatype SignUpCall = SignUpCall(email: string, password: string, fullName: string, role: Role)

  /**
   * How the auth call ended: `Succeeded`, or it threw an `Error` with a
   * message, or threw something else.
   */
  datatype AuthResult = Succeeded | ThrewError(message: string) | ThrewOther

  class SignUpPage {
    var role: Option<Role>
    var form: SignUpForm
    var error: string

    constructor ()
      ensures role.None? && form == SignUpForm("", "", "", "") && error == ""
    {
      role := None;
      form := SignUpForm("", "", "", "");
      error := "";
    }

    method SelectRole(r: Role)
      modifies this`role
      ensures role == Some(r)
    {
      role := Some(r);
    }

    /**
     * `handleSubmit`: the error is cleared, the checks run in order, and only
     * a form that passes them all reaches the auth service.
     */
    method HandleSubmit(result: AuthResult) returns (call: Option<SignUpCall>, redirect: Option<string>)
      modifies this`error
      ensures call.Some? <==> Validate(role, form).None?
      ensures Validate(role, form).Some? ==> error == Validate(role, form).value && redirect.None?
      ensures call.Some? ==> call.value == SignUpCall(form.email, form.password, form.fullName, role.value)
      ensures call.Some? && result.Succeeded? ==> error == "" && redirect == Some(Landing(role.value))
      ensures call.Some? && result.ThrewError? ==> error == result.message && redirect.None?
      ensures call.Some? && result.ThrewOther? ==> error == SignUpFailedError && redirect.None?
    {
      error := "";
      call := None;
      redirect := None;
      if role.None? {
        error := NoRoleError;
        return;
      }
      if form.password != form.confirmPassword {
        error := MismatchError;
        return;
      }
      if |form.password| < MinPasswordLength {
        error := ShortPasswordError;
        return;
      }
      call := Some(SignUpCall(form.email, form.password, form.fullName, role.value));
      match result
      case Succeeded => redirect := Some(Landing(role.value));
      case ThrewError(m) => error := m;
      case ThrewOther => error := SignUpFailedError;
    }
  }
}
