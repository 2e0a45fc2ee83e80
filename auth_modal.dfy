/** `components/AuthModal.tsx`: the simulated sign-in dialog. It builds the user
    record from what was typed; there is no password check. */
module AuthModal {
  import opened Types
  import opened Strings

  /** `email.split('@')[0]`: the local part of the address. */
  function LocalPart(email: string): (r: string)
    ensures r <= email && '@' !in r
    ensures |r| < |email| ==> email[|r|] == '@'
    ensures '@' !in email ==> r == email
  {
    BeforeFirst(email, '@')
  }

  /** The record `handleSubmit` hands to `onLogin`: the email as typed, and the name
      as typed or, when none was, the email's local part. */
  function BuildUser(id: string, email: string, name: string): (u: AuthUser)
    ensures u.id == id && u.email == email
    ensures name != [] ==> u.name == name
    ensures name == [] ==> u.name == LocalPart(email)
  {
    AuthUser(id, email, if name != [] then name else LocalPart(email))
  }

  /** A defaulted name is the start of the email and holds no '@'. */
  lemma DefaultNameIsPrefix(id: string, email: string)
    ensures BuildUser(id, email, "").name <= email
    ensures '@' !in BuildUser(id, email, "").name
  {
  }

  /** For an address `local@domain` with no '@' in `local`, the defaulted name is
      exactly `local`, whatever follows. */
  lemma {:induction false} DefaultNameOfAddress(id: string, local: string, domain: string)
    requires '@' !in local
    ensures BuildUser(id, local + "@" + domain, "").name == local
  {
    var email := local + "@" + domain;
    assert email[|local|] == '@';
    assert email[..|local|] == local;
  }

  class ModalState {
    var isLogin: bool
    var email: string
    var name: string

    constructor ()
      ensures isLogin && email == [] && name == []
    {
      isLogin := true;
      email := [];
      name := [];
    }

    method SetEmail(text: string)
      modifies this`email
      ensures email == text
    {
      email := text;
    }

    /** The name box, shown only when signing up. */
    method SetName(text: string)
      modifies this`name
      ensures name == text
    {
      name := text;
    }

    /** The "Sign up" / "Log in" link: flips the mode and keeps what was typed. */
    method ToggleMode()
      modifies this`isLogin
      ensures isLogin == !old(isLogin)
    {
      isLogin := !isLogin;
    }

    /** `handleSubmit`; the mode plays no part. */
    method Submit(id: string) returns (u: AuthUser)
      ensures u == BuildUser(id, email, name)
    {
      u := BuildUser(id, email, name);
    }
  }

  /** A name typed while signing up is still used after switching back to log in:
      the toggle clears nothing. */
  method ScenarioNameSurvivesToggle(id: string, email: string, typed: string) returns (u: AuthUser)
    requires typed != []
    ensures u.name == typed && u.email == email
  {
    var modal := new ModalState();
    modal.ToggleMode();
    modal.SetName(typed);
    modal.SetEmail(email);
    modal.ToggleMode();
    assert modal.isLogin;
    u := modal.Submit(id);
  }
}
