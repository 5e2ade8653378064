/**
 * The client-side checks of the sign-up forms: the React one
 * (pc_builder/src/App.jsx, `handleSignup`) takes the fields as typed, the
 * legacy page (script.js) trims the name and the username first. Both stop
 * at the first failing check, in the order below.
 */
module Signup {
  import opened Text

  datatype Verdict = Accepted | MissingField | PasswordTooShort | InvalidUsername

  const MissingFieldMessage := "모든 필드를 입력해주세요."
  const PasswordTooShortMessage := "비밀번호는 6자 이상이어야 합니다."
  const InvalidUsernameMessage := "아이디는 영문, 숫자 조합 4-20자로 입력해주세요."

  /** The shortest password accepted, in UTF-16 code units. */
  const MinPasswordLength := 6

  /** `/^[a-zA-Z0-9]{4,20}$/.test(username)`. */
  predicate UsernameShape(username: string) {
    4 <= |username| <= 20 && forall i :: 0 <= i < |username| ==> IsAsciiAlnum(username[i])
  }

  /** The three checks in order: every field given, a long enough password, a well-formed username. */
  function ValidateSignup(name: string, username: string, password: string): (v: Verdict)
    ensures v == MissingField <==> name == "" || username == "" || password == ""
    ensures v == PasswordTooShort <==>
      name != "" && username != "" && password != "" && Utf16Length(password) < MinPasswordLength
    ensures v == Accepted <==>
      name != "" && password != "" && Utf16Length(password) >= MinPasswordLength && UsernameShape(username)
    ensures v == InvalidUsername <==>
      name != "" && username != "" && Utf16Length(password) >= MinPasswordLength && !UsernameShape(username)
  {
    if name == "" || username == "" || password == "" then MissingField
    else if Utf16Length(password) < MinPasswordLength then PasswordTooShort
    else if !UsernameShape(username) then InvalidUsername
    else Accepted
  }

  /** The message shown for a rejected form. */
  function VerdictMessage(v: Verdict): string
    requires v != Accepted
  {
    match v
    case MissingField => MissingFieldMessage
    case PasswordTooShort => PasswordTooShortMessage
    case InvalidUsername => InvalidUsernameMessage
  }

  /** The legacy form: name and username trimmed, the password as typed. */
  function LegacyValidateSignup(name: string, username: string, password: string): (v: Verdict)
    ensures v == ValidateSignup(Trim(name), Trim(username), password)
    ensures AllSpace(name) ==> v == MissingField
  {
    TrimSpec(name);
    ValidateSignup(Trim(name), Trim(username), password)
  }

  /** Trimming never hurts a well-formed username: its letters and digits are not white space. */
  lemma {:induction false} TrimmedUsernameUnchanged(username: string)
    requires UsernameShape(username)
    ensures Trim(username) == username
  {
    TrimSpec(username);
    var r := Trim(username);
    var k := SpaceRunFrom(username, 0);
    assert !IsJsSpace(username[0]) && !IsJsSpace(username[|username| - 1]);
    assert k == 0 && k + |r| == |username|;
    assert username[0..|username|] == username;
  }

  /** Both forms accept the same well-formed username with a trimmed name. */
  lemma FormsAgreeOnTrimmedInput(name: string, username: string, password: string)
    requires Trim(name) == name && UsernameShape(username)
    ensures LegacyValidateSignup(name, username, password) == ValidateSignup(name, username, password)
  {
    TrimmedUsernameUnchanged(username);
  }

  /**
   * A non-empty name of blanks passes the React form, with any otherwise
   * acceptable username and password, but the legacy form reports it missing.
   */
  lemma BlankNameSplitsTheForms(name: string, username: string, password: string)
    requires name != "" && AllSpace(name)
    requires UsernameShape(username) && password != "" && Utf16Length(password) >= MinPasswordLength
    ensures ValidateSignup(name, username, password) == Accepted
    ensures LegacyValidateSignup(name, username, password) == MissingField
  {
  }
}
