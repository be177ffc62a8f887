/** The sign-up page (src/pages/Register.tsx). */
module Register {
  import opened Js
  import MainLayout
  import AuthService

  /** The form's five fields. */
  datatype RegisterForm = RegisterForm(
    username: string, password: string, confirmPassword: string, email: string, fullName: string)

  const EmptyForm: RegisterForm := RegisterForm("", "", "", "", "")

  /** The page renders inside a layout with the default properties: anyone may sign up. */
  const Layout: MainLayout.LayoutProps := MainLayout.DefaultProps

  /** The page is public: the guard renders it for anyone, signed in or not. */
  lemma PageAccess(isAuthenticated: bool, userRole: Option<string>)
    ensures MainLayout.Guard(Layout, isAuthenticated, userRole) == MainLayout.RenderPage
  {
  }

  /** The inputs wired to `handleChange`, by their `name` attribute. */
  datatype FormField = UsernameField | PasswordField | ConfirmPasswordField | EmailField | FullNameField

  /** `handleChange`: the named field takes the typed value. */
  function WithField(f: RegisterForm, field: FormField, value: string): (g: RegisterForm)
    ensures field == UsernameField ==> g == f.(username := value)
    ensures field == PasswordField ==> g == f.(password := value)
    ensures field == ConfirmPasswordField ==> g == f.(confirmPassword := value)
    ensures field == EmailField ==> g == f.(email := value)
    ensures field == FullNameField ==> g == f.(fullName := value)
  {
    match field
    case UsernameField => f.(username := value)
    case PasswordField => f.(password := value)
    case ConfirmPasswordField => f.(confirmPassword := value)
    case EmailField => f.(email := value)
    case FullNameField => f.(fullName := value)
  }

  /** The body of the registration call: the form without its confirmation field. */
  function Payload(f: RegisterForm): (r: AuthService.RegisterRequest)
    ensures r.username == f.username && r.password == f.password
    ensures r.email == f.email && r.fullName == f.fullName
  {
    AuthService.RegisterRequest(f.username, f.password, f.email, f.fullName)
  }

  /** The confirmation never reaches the server: forms that differ only in it send the same
      body, and typing in the confirmation field leaves the body as it was. */
  lemma PayloadIgnoresConfirmation(f: RegisterForm, g: RegisterForm, value: string)
    requires f.(confirmPassword := g.confirmPassword) == g
    ensures Payload(f) == Payload(g)
    ensures Payload(WithField(f, ConfirmPasswordField, value)) == Payload(f)
  {
  }

  /** Typing in any other field is what the body carries for that field. */
  lemma PayloadFollowsTyping(f: RegisterForm, field: FormField, value: string)
    requires field != ConfirmPasswordField
    ensures var body := Payload(WithField(f, field, value));
      (field == UsernameField ==> body == Payload(f).(username := value)) &&
      (field == PasswordField ==> body == Payload(f).(password := value)) &&
      (field == EmailField ==> body == Payload(f).(email := value)) &&
      (field == FullNameField ==> body == Payload(f).(fullName := value))
  {
  }

  class RegisterPage {
    var formData: RegisterForm
    var isLoading: bool

    constructor()
      ensures formData == EmptyForm && !isLoading
    {
      formData := EmptyForm;
      isLoading := false;
    }

    /** `handleChange`. */
    method HandleChange(field: FormField, value: string)
      modifies `formData
      ensures formData == WithField(old(formData), field, value)
    {
      formData := WithField(formData, field, value);
    }

    /** `handleSubmit` up to its await: when the password and its confirmation differ, stop
        with no call and the loading flag as it was; otherwise raise the flag and post the
        form, without the confirmation, to the registration endpoint. */
    method Submit() returns (call: Option<AuthService.Post<AuthService.RegisterRequest>>)
      modifies `isLoading
      ensures formData.password != formData.confirmPassword ==> call == None && isLoading == old(isLoading)
      ensures formData.password == formData.confirmPassword ==>
        call == Some(AuthService.Post(AuthService.RegisterPath, Payload(formData))) && isLoading
    {
      if formData.password != formData.confirmPassword {
        call := None;
        return;
      }
      isLoading := true;
      call := Some(AuthService.Post(AuthService.RegisterPath, Payload(formData)));
    }

    /** `handleSubmit` after its await: go to the login page on success only; lower the
        loading flag either way. */
    method Completed(succeeded: bool) returns (navigateTo: Option<string>)
      modifies `isLoading
      ensures navigateTo == if succeeded then Some("/login") else None
      ensures !isLoading
    {
      navigateTo := if succeeded then Some("/login") else None;
      isLoading := false;
    }
  }
}
