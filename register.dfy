/** The registration page's form: the password must equal its confirmation
    and be at least six UTF-16 code units long before the account details,
    without the confirmation, are sent. */
module Register {
  import opened Wrappers

  /** JavaScript's `length`: characters above U+FFFF take two code units. */
  function Utf16Length(s: string): (n: nat)
    ensures n >= |s|
    ensures n <= 2 * |s|
  {
    if s == [] then 0 else (if s[0] as int > 0xFFFF then 2 else 1) + Utf16Length(s[1..])
  }

  /** On text within the Basic Multilingual Plane the two lengths agree. */
  lemma {:induction false} BmpLength(s: string)
    requires forall i :: 0 <= i < |s| ==> s[i] as int <= 0xFFFF
    ensures Utf16Length(s) == |s|
  {
    if s != [] {
      BmpLength(s[1..]);
    }
  }

  /** Three emoji make a six-unit password, which the length check accepts. */
  lemma {:induction false} ThreeEmojiAreSixUnits()
    ensures Utf16Length("\U{1F600}\U{1F600}\U{1F600}") == 6
    ensures Validate("\U{1F600}\U{1F600}\U{1F600}", "\U{1F600}\U{1F600}\U{1F600}").None?
  {
    var s := "\U{1F600}\U{1F600}\U{1F600}";
    assert s[1..][1..][1..] == [];
  }

  const MismatchError := "Passwords do not match"
  const LengthError := "Password must be at least 6 characters"

  /** The checks in order: a mismatch first, then the length. */
  function Validate(password: string, confirmPassword: string): (e: Option<string>)
    ensures e == Some(MismatchError) <==> password != confirmPassword
    ensures e == Some(LengthError) <==> password == confirmPassword && Utf16Length(password) < 6
    ensures e.None? <==> password == confirmPassword && Utf16Length(password) >= 6
  {
    if password != confirmPassword then Some(MismatchError)
    else if Utf16Length(password) < 6 then Some(LengthError)
    else None
  }

  /** A mismatch is reported even when the password is also too short. */
  lemma {:induction false} MismatchReportedFirst(password: string, confirmPassword: string)
    requires password != confirmPassword && Utf16Length(password) < 6
    ensures Validate(password, confirmPassword) == Some(MismatchError)
  {
  }

  /** The registration payload: the form minus the confirmation. */
  datatype UserData = UserData(name: string, email: string, password: string)

  datatype FieldName = Name | Email | Password | ConfirmPassword

  class RegisterForm {
    var name: string
    var email: string
    var password: string
    var confirmPassword: string
    var passwordError: string

    constructor ()
      ensures name == "" && email == "" && password == "" && confirmPassword == ""
      ensures passwordError == ""
    {
      name, email, password, confirmPassword := "", "", "", "";
      passwordError := "";
    }

    function Get(f: FieldName): string
      reads this
    {
      match f
      case Name => name
      case Email => email
      case Password => password
      case ConfirmPassword => confirmPassword
    }

    /** `handleChange`: the named field is updated and the error cleared. */
    method Change(f: FieldName, v: string)
      modifies this
      ensures Get(f) == v
      ensures forall g :: g != f ==> Get(g) == old(Get(g))
      ensures passwordError == ""
    {
      passwordError := "";
      match f
      case Name => name := v;
      case Email => email := v;
      case Password => password := v;
      case ConfirmPassword => confirmPassword := v;
    }

    /** `handleSubmit`: a failed check sets its message and sends nothing;
        otherwise the details are sent and the fields are left as they are. */
    method Submit() returns (payload: Option<UserData>)
      modifies this
      ensures payload.Some? <==> Validate(password, confirmPassword).None?
      ensures payload.Some? ==> payload.value == UserData(name, email, password)
      ensures payload.Some? ==> passwordError == old(passwordError)
      ensures payload.None? ==> passwordError == Validate(password, confirmPassword).value
      ensures name == old(name) && email == old(email)
      ensures password == old(password) && confirmPassword == old(confirmPassword)
    {
      if password != confirmPassword {
        passwordError := MismatchError;
        return None;
      }
      if Utf16Length(password) < 6 {
        passwordError := LengthError;
        return None;
      }
      payload := Some(UserData(name, email, password));
    }
  }
}
