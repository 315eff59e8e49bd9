/** The change-password page: the redirect for visitors without a session and
    the submit handler's checks, call and clean-up. */
module ChangePassword {
  import opened Wrappers
  import Uri
  import ProtectedRoute

  /** The page's path: a slash, then its name. */
  const PageName := "change-password"
  const PagePath := ['/'] + PageName
  const TooShortMessage := "New password must be at least 6 characters"
  const MismatchMessage := "New password and confirmation do not match"
  const DefaultFailureMessage := "Failed to change password"
  const MinPasswordLength := 6

  /** `s.length`: JavaScript counts UTF-16 code units, so a character outside
      the Basic Multilingual Plane counts twice. */
  function Utf16Length(s: string): (n: nat)
    ensures |s| <= n <= 2 * |s|
    ensures (forall i :: 0 <= i < |s| ==> s[i] as int < 0x10000) ==> n == |s|
  {
    if s == [] then 0
    else (if s[0] as int < 0x10000 then 1 else 2) + Utf16Length(s[1..])
  }

  /** Three astral characters already make six code units. */
  lemma AstralCharactersCountTwice()
    ensures Utf16Length("\U{1F600}\U{1F600}\U{1F600}") == 6
  {
    var s := "\U{1F600}\U{1F600}\U{1F600}";
    assert s[1..][1..][1..] == [];
  }

  /** The checks before the call, in order: length first, then confirmation. */
  function SubmitProblem(newPassword: string, confirmPassword: string): (problem: Option<string>)
    ensures problem == Some(TooShortMessage) <==> Utf16Length(newPassword) < MinPasswordLength
    ensures problem == Some(MismatchMessage) <==>
              Utf16Length(newPassword) >= MinPasswordLength && newPassword != confirmPassword
    ensures problem.None? <==> Utf16Length(newPassword) >= MinPasswordLength && newPassword == confirmPassword
  {
    if Utf16Length(newPassword) < MinPasswordLength then Some(TooShortMessage)
    else if newPassword != confirmPassword then Some(MismatchMessage)
    else None
  }

  /** A short password is reported as short whatever the confirmation. */
  lemma LengthIsCheckedFirst(newPassword: string, confirmPassword: string)
    requires Utf16Length(newPassword) < MinPasswordLength
    ensures SubmitProblem(newPassword, confirmPassword) == Some(TooShortMessage)
  {
  }

  /** The two messages and the accepted case on small inputs. */
  lemma SubmitProblemExamples()
    ensures SubmitProblem("abc", "xyz") == Some(TooShortMessage)
    ensures SubmitProblem("abcdef", "abcdeg") == Some(MismatchMessage)
    ensures SubmitProblem("abcdef", "abcdef").None?
  {
    assert Utf16Length("abc") == 3;
    assert Utf16Length("abcdef") == 6;
  }

  /** How the awaited `changePassword` call ended: it resolved, it threw an
      `Error` with a message, or it threw something else. */
  datatype CallOutcome = Resolved | ThrewError(message: string) | ThrewOther

  /** The effect's redirect: to the login page, asking to come back here,
      once loading is over and nobody is signed in. */
  function RedirectTarget(loading: bool, authenticated: bool): (target: Option<string>)
    ensures target.Some? <==> !loading && !authenticated
    ensures target.Some? ==> target.value == ProtectedRoute.LoginRedirect(PagePath)
  {
    if !loading && !authenticated then Some("/login?next=" + Uri.EncodeUriComponent(PagePath)) else None
  }

  lemma SlashIsEscaped()
    ensures Uri.EncodeChar('/') == "%2F"
  {
    assert Uri.Utf8('/') == [47];
    assert Uri.EscapeAll([47]) == Uri.Escape(47) + Uri.EscapeAll([]);
  }

  /** The login redirect of a top-level page whose name needs no escaping:
      only the leading slash is escaped. For this page that is
      `/login?next=%2Fchange-password`. */
  lemma TopLevelPageRedirect(name: string)
    requires forall i :: 0 <= i < |name| ==> Uri.Unreserved(name[i])
    ensures ProtectedRoute.LoginRedirect(['/'] + name) == "/login?next=%2F" + name
  {
    var path := ['/'] + name;
    assert path[0] == '/' && path[1..] == name;
    Uri.EncodeUnreservedIsIdentity(name);
    SlashIsEscaped();
    assert Uri.EncodeUriComponent(path) == "%2F" + name;
  }

  /** This page's name is made of unreserved characters. */
  lemma PageNameIsUnreserved()
    ensures forall i :: 0 <= i < |PageName| ==> Uri.Unreserved(PageName[i])
  {
  }

  /** The redirect this page issues, spelled out. */
  lemma RedirectSpelledOut()
    ensures RedirectTarget(false, false) == Some("/login?next=%2Fchange-password")
  {
    PageNameIsUnreserved();
    TopLevelPageRedirect(PageName);
    assert "/login?next=%2F" + PageName == "/login?next=%2Fchange-password";
  }

  /** The page shows its form only once loaded and signed in. */
  predicate ShowsForm(loading: bool, authenticated: bool)
  {
    !loading && authenticated
  }

  /** While the form is hidden either loading goes on or the redirect is issued. */
  lemma HiddenFormMeansWaitingOrLeaving(loading: bool, authenticated: bool)
    requires !ShowsForm(loading, authenticated)
    ensures loading || RedirectTarget(loading, authenticated).Some?
  {
  }

  /** The page's form state. */
  class Page {
    var currentPassword: string
    var newPassword: string
    var confirmPassword: string
    var error: Option<string>
    var submitLoading: bool

    constructor ()
      ensures currentPassword == "" && newPassword == "" && confirmPassword == ""
      ensures error.None? && !submitLoading
    {
      currentPassword := "";
      newPassword := "";
      confirmPassword := "";
      error := None;
      submitLoading := false;
    }

    /** `handleSubmit`: a failed check sets its message and calls nothing;
        otherwise `changePassword(current, new)` is awaited, a success goes to
        the dashboard, a failure shows the error's message (or a default),
        and the busy flag is cleared either way. */
    method HandleSubmit(outcome: CallOutcome) returns (call: Option<(string, string)>, navigation: Option<string>)
      modifies this
      ensures currentPassword == old(currentPassword) && newPassword == old(newPassword)
      ensures confirmPassword == old(confirmPassword)
      ensures SubmitProblem(newPassword, confirmPassword).Some? ==>
                call.None? && navigation.None? && error == SubmitProblem(newPassword, confirmPassword)
                && submitLoading == old(submitLoading)
      ensures SubmitProblem(newPassword, confirmPassword).None? ==>
                call == Some((currentPassword, newPassword)) && !submitLoading
      ensures SubmitProblem(newPassword, confirmPassword).None? && outcome.Resolved? ==>
                navigation == Some("/dashboard") && error.None?
      ensures SubmitProblem(newPassword, confirmPassword).None? && outcome.ThrewError? ==>
                navigation.None? && error == Some(outcome.message)
      ensures SubmitProblem(newPassword, confirmPassword).None? && outcome.ThrewOther? ==>
                navigation.None? && error == Some(DefaultFailureMessage)
    {
      call := None;
      navigation := None;
      error := None;
      if Utf16Length(newPassword) < MinPasswordLength {
        error := Some(TooShortMessage);
        return;
      }
      if newPassword != confirmPassword {
        error := Some(MismatchMessage);
        return;
      }
      submitLoading := true;
      call := Some((currentPassword, newPassword));
      match outcome {
        case Resolved =>
          navigation := Some("/dashboard");
        case ThrewError(message) =>
          error := Some(message);
        case ThrewOther =>
          error := Some(DefaultFailureMessage);
      }
      submitLoading := false;
    }
  }
}
