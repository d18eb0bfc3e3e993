/** The sign-up page: the e-mail and password rules, the availability check
    of the (lower-cased) username, the per-field "Missing" errors of an
    incomplete submission, and the new user record sent for a complete one. */
module Account {
  import opened Outcomes
  import opened Text

  /** A character the class `[^\s@]` matches. */
  predicate Plain(c: char) {
    !IsSpace(c) && c != '@'
  }

  predicate AllPlain(s: string) {
    forall k :: 0 <= k < |s| ==> Plain(s[k])
  }

  /** `isValidEmail`, the pattern `^[^\s@]+@[^\s@]+\.[^\s@]+$`: three
      non-empty runs of plain characters joined by "@" and by ".". */
  predicate IsValidEmail(s: string) {
    exists i, j :: 0 < i < j < |s| && SplitsAt(s, i, j)
  }

  /** The "@" at `i` and the "." at `j` separate three plain runs. */
  predicate SplitsAt(s: string, i: int, j: int) {
    && 0 < i && i + 1 < j && j + 1 < |s| && s[i] == '@' && s[j] == '.'
    && AllPlain(s[..i]) && AllPlain(s[i + 1..j]) && AllPlain(s[j + 1..])
  }

  predicate NoSpace(s: string) {
    forall k :: 0 <= k < |s| ==> !IsSpace(s[k])
  }

  /** A "." with text on both sides. */
  predicate DotInside(d: string) {
    exists j :: 0 < j < |d| - 1 && d[j] == '.'
  }

  /** An "@" with text before it and a "." inside the text after it. */
  predicate AtThenDot(s: string) {
    exists i :: 0 < i < |s| && s[i] == '@' && DotInside(s[i + 1..])
  }

  /** The pattern read as a rule: no white space, exactly one "@" with text
      before it, and a "." with text on both sides after it. */
  lemma EmailShape(s: string)
    ensures IsValidEmail(s) <==> NoSpace(s) && multiset(s)['@'] == 1 && AtThenDot(s)
  {
    if IsValidEmail(s) {
      EmailShapeSound(s);
    }
    if NoSpace(s) && multiset(s)['@'] == 1 && AtThenDot(s) {
      EmailShapeComplete(s);
    }
  }

  lemma EmailShapeSound(s: string)
    requires IsValidEmail(s)
    ensures NoSpace(s) && multiset(s)['@'] == 1 && AtThenDot(s)
  {
    var i, j :| 0 < i < j < |s| && SplitsAt(s, i, j);
    SplitHasNoSpace(s, i, j);
    SplitHasOneAt(s, i, j);
    assert s[i + 1..][j - i - 1] == '.';
  }

  lemma SplitHasNoSpace(s: string, i: int, j: int)
    requires SplitsAt(s, i, j)
    ensures NoSpace(s)
  {
    forall k | 0 <= k < |s| ensures !IsSpace(s[k]) {
      if k < i {
        assert s[k] == s[..i][k];
      } else if i < k < j {
        assert s[k] == s[i + 1..j][k - i - 1];
      } else if j < k {
        assert s[k] == s[j + 1..][k - j - 1];
      }
    }
  }

  lemma SplitHasOneAt(s: string, i: int, j: int)
    requires SplitsAt(s, i, j)
    ensures multiset(s)['@'] == 1
  {
    var a, b, c := s[..i], s[i + 1..j], s[j + 1..];
    assert s == a + [s[i]] + b + [s[j]] + c;
    PlainHasNoAt(a);
    PlainHasNoAt(b);
    PlainHasNoAt(c);
    assert multiset(s) == multiset(a) + multiset{'@'} + multiset(b) + multiset{'.'} + multiset(c);
  }

  lemma EmailShapeComplete(s: string)
    requires NoSpace(s) && multiset(s)['@'] == 1 && AtThenDot(s)
    ensures IsValidEmail(s)
  {
    var i :| 0 < i < |s| && s[i] == '@' && DotInside(s[i + 1..]);
    var d := s[i + 1..];
    var j0 :| 0 < j0 < |d| - 1 && d[j0] == '.';
    var j := i + 1 + j0;
    OnlyOneAt(s, i);
    assert s[j] == '.';
    assert AllPlain(s[..i]);
    assert AllPlain(s[i + 1..j]);
    assert AllPlain(s[j + 1..]);
    assert SplitsAt(s, i, j);
  }

  lemma PlainHasNoAt(s: string)
    requires AllPlain(s)
    ensures multiset(s)['@'] == 0
  {
    assert '@' !in s;
  }

  /** With a single "@", it is the one at `i`. */
  lemma OnlyOneAt(s: string, i: int)
    requires 0 <= i < |s| && s[i] == '@' && multiset(s)['@'] == 1
    ensures forall k :: 0 <= k < |s| && k != i ==> s[k] != '@'
  {
    assert s == s[..i] + [s[i]] + s[i + 1..];
    assert multiset(s) == multiset(s[..i]) + multiset{'@'} + multiset(s[i + 1..]);
    forall k | 0 <= k < |s| && k != i ensures s[k] != '@' {
      if k < i {
        assert s[k] in multiset(s[..i]);
      } else {
        assert s[k] == s[i + 1..][k - i - 1];
        assert s[k] in multiset(s[i + 1..]);
      }
    }
  }

  /** A blank e-mail is never well formed, so it is never looked up. */
  lemma BlankEmailIsInvalid(s: string)
    requires Blank(s)
    ensures !IsValidEmail(s)
  {
    BlankIffAllSpace(s);
    if IsValidEmail(s) {
      EmailShapeSound(s);
    }
  }

  /** `isValidPassword`: at least ten characters, spaces included. */
  predicate IsValidPassword(p: string) {
    |p| >= 10
  }

  const PasswordTooShort := "Invalid Password (10 character minimum)"
  const MissingText := "Missing"
  const InvalidEmail := "Invalid email"
  const EmailTaken := "Email already exists"
  const UsernameTaken := "Username already exists"
  const Available := "Available"

  /** The error `checkPassword` sets. */
  function PasswordError(p: string): (e: string)
    ensures e == "" <==> IsValidPassword(p)
    ensures e != "" ==> e == PasswordTooShort
  {
    if IsValidPassword(p) then "" else PasswordTooShort
  }

  /** The error `checkEmail` sets; `lookup` is the search for a user with
      that e-mail, a failure when none is found. */
  function EmailError(email: string, lookup: Outcome<string>): (e: string)
    ensures e == InvalidEmail <==> !IsValidEmail(email) && !Blank(email)
    ensures e == EmailTaken <==> IsValidEmail(email) && lookup.Success?
    ensures e == "" <==> (IsValidEmail(email) && lookup.Failure?) || Blank(email)
  {
    if IsValidEmail(email) then
      ValidEmailIsNotBlank(email);
      if lookup.Success? then EmailTaken else ""
    else if Blank(email) then ""
    else InvalidEmail
  }

  lemma ValidEmailIsNotBlank(email: string)
    ensures IsValidEmail(email) ==> !Blank(email)
  {
    if Blank(email) {
      BlankEmailIsInvalid(email);
    }
  }

  /** The text `sex` is sent as. */
  function SexText(male: bool): (t: string)
    ensures t == "male" <==> male
    ensures t == "female" <==> !male
  {
    if male then "male" else "female"
  }

  /** The form's inputs; `birthday` holds the ISO text of the picked date. */
  datatype AccountForm = AccountForm(
    username: string, email: string, password: string,
    firstName: string, lastName: string, birthday: Option<string>, male: bool)

  const EmptyForm := AccountForm("", "", "", "", "", None, true)

  /** The messages the page shows under its inputs. */
  datatype Messages = Messages(
    username: string, usernameSuccess: string, email: string, password: string,
    firstName: string, lastName: string, birthday: string, general: string)

  const NoMessages := Messages("", "", "", "", "", "", "", "")

  /** The record `users.create` receives. */
  datatype NewUser = NewUser(
    username: string, email: string, password: string, passwordConfirm: string,
    firstName: string, lastName: string, birthday: string, sex: string)

  /** `handleCreateAccount` refuses the form. */
  predicate Incomplete(f: AccountForm) {
    Blank(f.username) || Blank(f.email) || Blank(f.password)
    || Blank(f.firstName) || Blank(f.lastName) || f.birthday.None?
  }

  /** The messages after a refused submission. */
  function MissingMessages(f: AccountForm, m: Messages): (r: Messages)
    ensures r.username == MissingText <==> Blank(f.username)
    ensures r.email == MissingText <==> Blank(f.email)
    ensures r.password == MissingText <==> Blank(f.password)
    ensures r.firstName == MissingText <==> Blank(f.firstName)
    ensures r.lastName == MissingText <==> Blank(f.lastName)
    ensures r.birthday == MissingText <==> f.birthday.None?
    ensures r.username != MissingText ==> r.username == ""
    ensures r.email != MissingText ==> r.email == ""
    ensures r.password != MissingText ==> r.password == PasswordError(f.password)
    ensures r.firstName != MissingText ==> r.firstName == ""
    ensures r.lastName != MissingText ==> r.lastName == ""
    ensures r.birthday != MissingText ==> r.birthday == ""
    ensures r.usernameSuccess == m.usernameSuccess && r.general == m.general
  {
    Messages(
      if Blank(f.username) then MissingText else "",
      m.usernameSuccess,
      if Blank(f.email) then MissingText else "",
      if Blank(f.password) then MissingText else PasswordError(f.password),
      if Blank(f.firstName) then MissingText else "",
      if Blank(f.lastName) then MissingText else "",
      if f.birthday.None? then MissingText else "",
      m.general)
  }

  /** A refused submission always says why: some field reads "Missing". */
  lemma RefusalIsReported(f: AccountForm, m: Messages)
    requires Incomplete(f)
    ensures var r := MissingMessages(f, m);
      MissingText in [r.username, r.email, r.password, r.firstName, r.lastName, r.birthday]
  {
  }

  /** The record a complete form is sent as. */
  function NewUserOf(f: AccountForm): (u: NewUser)
    requires f.birthday.Some?
    ensures u.username == ToLower(f.username) && u.passwordConfirm == u.password == f.password
    ensures u.email == f.email && u.firstName == f.firstName && u.lastName == f.lastName
    ensures u.birthday == f.birthday.value && u.sex == SexText(f.male)
  {
    NewUser(ToLower(f.username), f.email, f.password, f.password,
            f.firstName, f.lastName, f.birthday.value, SexText(f.male))
  }

  /** Usernames are stored lower-cased: the sent name has no upper-case
      letter, and names that differ only in case are sent alike. */
  lemma SentUsernameIsLowerCase(f: AccountForm, g: AccountForm)
    requires f.birthday.Some? && g.birthday.Some?
    ensures forall k :: 0 <= k < |f.username| ==> !('A' <= NewUserOf(f).username[k] <= 'Z')
    ensures ToLower(NewUserOf(f).username) == NewUserOf(f).username
    ensures ToLower(f.username) == ToLower(g.username) ==> NewUserOf(f).username == NewUserOf(g).username
  {
    ToLowerHasNoUpper(f.username);
    ToLowerIdempotent(f.username);
  }

  /** `"Error: " + err || "An error occurred."` as written: the
      concatenation binds first and is never empty, so the fallback text is
      never chosen. */
  function GeneralErrorAsWritten(reason: string): (e: string)
    ensures "Error: " <= e && e[|"Error: "|..] == reason
  {
    var joined := "Error: " + reason;
    if joined != "" then joined else "An error occurred."
  }

  /** An error without text shows a bare "Error: ". */
  lemma FallbackUnreachable(reason: string)
    ensures GeneralErrorAsWritten(reason) != "An error occurred."
    ensures GeneralErrorAsWritten("") == "Error: "
  {
    assert ("Error: " + reason)[0] == 'E';
  }

  /** The general error as intended: the failure's text after "Error: ",
      and the fallback text when the failure has none. */
  function GeneralError(reason: string): (e: string)
    ensures e != ""
    ensures reason == "" ==> e == "An error occurred."
    ensures reason != "" ==> "Error: " <= e && e[|"Error: "|..] == reason
  {
    if reason == "" then "An error occurred." else "Error: " + reason
  }

  /** The messages the page can show. */
  ghost predicate KnownMessages(m: Messages) {
    && m.username in {"", MissingText, UsernameTaken}
    && m.usernameSuccess in {"", Available}
    && m.email in {"", MissingText, InvalidEmail, EmailTaken}
    && m.password in {"", MissingText, PasswordTooShort}
    && m.firstName in {"", MissingText}
    && m.lastName in {"", MissingText}
    && m.birthday in {"", MissingText}
  }

  lemma MissingMessagesKnown(f: AccountForm, m: Messages)
    requires KnownMessages(m)
    ensures KnownMessages(MissingMessages(f, m))
  {
  }

  lemma KnownIgnoresGeneral(m: Messages, general: string)
    requires KnownMessages(m)
    ensures KnownMessages(m.(general := general))
  {
  }

  class CreateAccountPage {
    var form: AccountForm
    var messages: Messages
    var success: bool

    ghost predicate Valid()
      reads this
    {
      KnownMessages(messages)
    }

    constructor ()
      ensures form == EmptyForm && messages == NoMessages && !success && Valid()
    {
      form := EmptyForm;
      messages := NoMessages;
      success := false;
    }

    /** Typing into the inputs, picking a date or a radio button. */
    method Fill(f: AccountForm)
      modifies this
      ensures form == f && messages == old(messages) && success == old(success)
    {
      form := f;
    }

    /** `checkEmail`, run when the e-mail input loses focus: a well-formed
        address is looked up (`lookup`), anything else is judged on its own. */
    method CheckEmail(lookup: Outcome<string>) returns (queried: bool)
      requires Valid()
      modifies this
      ensures Valid() && (queried <==> IsValidEmail(form.email))
      ensures messages == old(messages).(email := EmailError(form.email, lookup))
      ensures form == old(form) && success == old(success)
    {
      queried := IsValidEmail(form.email);
      if queried {
        match lookup {
          case Success(_) => messages := messages.(email := EmailTaken);
          case Failure(_) => messages := messages.(email := "");
        }
      } else if Blank(form.email) {
        messages := messages.(email := "");
      } else {
        messages := messages.(email := InvalidEmail);
      }
    }

    /** The password check once typing settles: nothing to say about an
        empty password, `checkPassword` otherwise. */
    method PasswordSettled()
      requires Valid()
      modifies this
      ensures Valid() && form == old(form) && success == old(success)
      ensures messages == old(messages).(password := if form.password == "" then "" else PasswordError(form.password))
      ensures messages.password == "" <==> form.password == "" || IsValidPassword(form.password)
    {
      if |form.password| == 0 {
        messages := messages.(password := "");
      } else {
        messages := messages.(password := PasswordError(form.password));
      }
    }

    /** The availability check once typing settles: a non-empty username is
        searched for lower-cased (`found` is the number of matches, or a
        failure, which changes nothing). */
    method UsernameSettled(found: Outcome<nat>) returns (queried: Option<string>)
      requires Valid()
      modifies this
      ensures Valid() && form == old(form) && success == old(success)
      ensures queried == (if form.username != "" then Some(ToLower(form.username)) else None)
      ensures form.username == "" ==> messages == old(messages).(username := "", usernameSuccess := "")
      ensures form.username != "" && found.Success? && found.value > 0 ==>
                messages == old(messages).(username := UsernameTaken, usernameSuccess := "")
      ensures form.username != "" && found.Success? && found.value == 0 ==>
                messages == old(messages).(username := "", usernameSuccess := Available)
      ensures form.username != "" && found.Failure? ==> messages == old(messages)
    {
      if form.username != "" {
        queried := Some(ToLower(form.username));
        match found {
          case Success(n) =>
            if n > 0 {
              messages := messages.(username := UsernameTaken, usernameSuccess := "");
            } else {
              messages := messages.(username := "", usernameSuccess := Available);
            }
          case Failure(_) =>
        }
      } else {
        queried := None;
        messages := messages.(username := "", usernameSuccess := "");
      }
    }

    /** `handleCreateAccount`: an incomplete form is refused with its
        "Missing" errors and nothing is sent; a complete one is sent as
        `NewUserOf(form)` and `created` decides between success and the
        general error. */
    method CreateAccount(created: Outcome<string>) returns (sent: Option<NewUser>)
      requires Valid()
      modifies this
      ensures Valid() && form == old(form)
      ensures sent.None? <==> Incomplete(form)
      ensures Incomplete(form) ==> messages == MissingMessages(form, old(messages)) && success == old(success)
      ensures !Incomplete(form) ==> sent == Some(NewUserOf(form)) && success == created.Success?
      ensures !Incomplete(form) ==> messages == old(messages).(general := if created.Success? then "" else GeneralError(created.reason))
    {
      if Incomplete(form) {
        ReportMissing();
        sent := None;
      } else {
        sent := Submit(created);
      }
    }

    /** The refusal of an incomplete form. */
    method ReportMissing()
      requires Valid()
      modifies this
      ensures Valid() && form == old(form) && success == old(success)
      ensures messages == MissingMessages(form, old(messages))
    {
      MissingMessagesKnown(form, messages);
      messages := MissingMessages(form, messages);
    }

    /** The sending of a complete form. */
    method Submit(created: Outcome<string>) returns (sent: Option<NewUser>)
      requires Valid() && form.birthday.Some?
      modifies this
      ensures Valid() && form == old(form)
      ensures sent == Some(NewUserOf(form)) && success == created.Success?
      ensures messages == old(messages).(general := if created.Success? then "" else GeneralError(created.reason))
    {
      KnownIgnoresGeneral(messages, "");
      messages := messages.(general := "");
      success := false;
      sent := Some(NewUserOf(form));
      match created {
        case Success(_) => success := true;
        case Failure(reason) =>
          KnownIgnoresGeneral(messages, GeneralError(reason));
          messages := messages.(general := GeneralError(reason));
      }
    }
  }
}
