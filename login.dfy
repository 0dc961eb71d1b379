/** The login screen: sign-up validation, the handlers' `loading` and
    `error` state, and the messages shown for the identity provider's error
    codes. Signing in is the provider's; its outcome is a parameter. */
module Login {
  import opened Wrappers
  import opened Js
  import opened Text
  import opened FirebaseService

  /** `getErrorMessage(errorCode)` */
  function ErrorMessage(code: string): (r: string)
    ensures code !in KnownCodes && Contains(code, "auth/") ==> r == GenericMessage
    ensures code !in KnownCodes && !Contains(code, "auth/") ==> r == code
  {
    if code == "auth/user-not-found" then "No account found with this email address"
    else if code == "auth/wrong-password" then "Incorrect password"
    else if code == "auth/email-already-in-use" then "An account with this email already exists"
    else if code == "auth/weak-password" then "Password should be at least 6 characters"
    else if code == "auth/invalid-email" then "Invalid email address"
    else if code == "auth/too-many-requests" then "Too many failed attempts. Please try again later"
    else if Contains(code, "auth/") then GenericMessage
    else code
  }

  const KnownCodes: set<string> := {"auth/user-not-found", "auth/wrong-password", "auth/email-already-in-use",
                                    "auth/weak-password", "auth/invalid-email", "auth/too-many-requests"}

  const GenericMessage := "Authentication error. Please try again."

  /** Each of the six known provider codes has its own message. */
  lemma KnownCodeMessages()
    ensures ErrorMessage("auth/user-not-found") == "No account found with this email address"
    ensures ErrorMessage("auth/wrong-password") == "Incorrect password"
    ensures ErrorMessage("auth/email-already-in-use") == "An account with this email already exists"
    ensures ErrorMessage("auth/weak-password") == "Password should be at least 6 characters"
    ensures ErrorMessage("auth/invalid-email") == "Invalid email address"
    ensures ErrorMessage("auth/too-many-requests") == "Too many failed attempts. Please try again later"
  {
  }

  /** Every code containing `auth/` gets a provider message, never the raw code. */
  lemma AuthCodesAreTranslated(code: string)
    requires Contains(code, "auth/")
    ensures ErrorMessage(code) != code
  {
    if code !in KnownCodes {
      assert ErrorMessage(code) == GenericMessage;
      assert !Contains(GenericMessage, "auth/") by { GenericHasNoCode(); }
    }
  }

  /** The generic message holds no provider code: it has no `/`. */
  lemma GenericHasNoCode()
    ensures !Contains(GenericMessage, "auth/")
  {
    var g := GenericMessage;
    assert forall i :: 0 <= i < |g| ==> g[i] != '/';
    assert "auth/"[4] == '/';
    MissingCharNotContained(g, "auth/", '/');
  }

  /** A text without some character of `t` does not contain `t`. */
  lemma {:induction false} MissingCharNotContained(s: string, t: string, c: char)
    requires c in t && c !in s
    ensures !Contains(s, t)
  {
    if s != [] {
      MissingCharNotContained(s[1..], t, c);
    }
  }

  /** The sign-up fields. */
  datatype SignUpForm = SignUpForm(name: string, email: string, password: string, confirmPassword: string,
                                   companyName: string)

  /** The sign-up validation: matching passwords first, then the length. */
  function Validate(form: SignUpForm): (r: Option<string>)
    ensures form.password != form.confirmPassword ==> r == Some("Passwords do not match")
    ensures form.password == form.confirmPassword && |form.password| < 6 ==>
              r == Some("Password must be at least 6 characters long")
    ensures r.None? <==> form.password == form.confirmPassword && |form.password| >= 6
  {
    if form.password != form.confirmPassword then Some("Passwords do not match")
    else if |form.password| < 6 then Some("Password must be at least 6 characters long")
    else None
  }

  /** The user data the sign-up form passes to the service: the person's
      name and the company's name. */
  function SignUpData(form: SignUpForm): Doc
  {
    map["name" := Str(form.name), "companyName" := Str(form.companyName)]
  }

  class LoginState {
    var loading: bool
    var error: string

    constructor ()
      ensures !loading && error == ""
    {
      loading, error := false, "";
    }

    /** `handleLogin`: the error is cleared, and set from the provider's
        code on failure; loading ends either way. */
    method HandleLogin(outcome: Result<(), string>)
      modifies this
      ensures !loading
      ensures outcome.Ok? ==> error == ""
      ensures outcome.Err? ==> error == ErrorMessage(outcome.error)
    {
      loading := true;
      error := "";
      if outcome.Err? {
        error := ErrorMessage(outcome.error);
      }
      loading := false;
    }

    /** `handleSignUp`: a form that fails validation sets its message and
        never reaches the store; otherwise the company and the admin are
        created, and a failure of the provider or of either write sets its
        message. A refused user write leaves the new company in place.
        Loading ends on every path. */
    method HandleSignUp(form: SignUpForm, store: Store, identity: Identity,
                        companyWrite: Result<(), string>, userWrite: Result<(), string>, now: int)
      requires store.Valid()
      modifies this, store
      ensures store.Valid() && !loading
      ensures store.feedbacks == old(store.feedbacks)
      ensures Validate(form).Some? ==>
                error == Validate(form).value &&
                store.companies == old(store.companies) && store.users == old(store.users)
      ensures Validate(form).None? && identity(Some(Str(form.email)), Str(form.password)).Err? ==>
                error == ErrorMessage(identity(Some(Str(form.email)), Str(form.password)).error) &&
                store.companies == old(store.companies) && store.users == old(store.users)
      ensures Validate(form).None? && identity(Some(Str(form.email)), Str(form.password)).Ok? && companyWrite.Err? ==>
                error == ErrorMessage(companyWrite.error) &&
                store.companies == old(store.companies) && store.users == old(store.users)
      ensures Validate(form).None? && identity(Some(Str(form.email)), Str(form.password)).Ok? && companyWrite.Ok? ==>
                |store.companies| == |old(store.companies)| + 1 &&
                store.companies[..|old(store.companies)|] == old(store.companies) &&
                store.companies[|old(store.companies)|].id !in Ids(old(store.companies)) &&
                store.companies[|old(store.companies)|].data == CompanyRecord(SignUpData(form), now)
      ensures Validate(form).None? && identity(Some(Str(form.email)), Str(form.password)).Ok? && companyWrite.Ok? &&
              userWrite.Err? ==>
                error == ErrorMessage(userWrite.error) && store.users == old(store.users)
      ensures Validate(form).None? && identity(Some(Str(form.email)), Str(form.password)).Ok? && companyWrite.Ok? &&
              userWrite.Ok? ==>
                var uid := identity(Some(Str(form.email)), Str(form.password)).value;
                error == "" &&
                |store.users| == |old(store.users)| + 1 && store.users[..|old(store.users)|] == old(store.users) &&
                store.users[|old(store.users)|].id !in Ids(old(store.users)) &&
                store.users[|old(store.users)|].data ==
                  AdminRecord(uid, form.email, SignUpData(form), store.companies[|old(store.companies)|].id, now)
    {
      loading := true;
      error := "";
      if form.password != form.confirmPassword {
        error := "Passwords do not match";
        loading := false;
        return;
      }
      if |form.password| < 6 {
        error := "Password must be at least 6 characters long";
        loading := false;
        return;
      }
      var r := store.SignUp(form.email, form.password, SignUpData(form), identity, companyWrite, userWrite, now);
      if r.Err? {
        error := ErrorMessage(r.error);
      }
      loading := false;
    }
  }
}
