/** Optional values: a C# string reference that may be null is an `Option<string>`. */
module Wrappers {

  datatype Option<+T> = None | Some(value: T)
}

/** The user entity, the user domain object and the rules that validate it. */
module Users {
  import opened Wrappers
  import opened Output

  const UsernameRequired: string := "Username cannot be null or empty."
  const EmailRequired: string := "Email cannot be null or empty."
  const EmailMalformed: string := "Email is not in a valid format."
  const ValidatedLine: string := "User domain object validated."
  const SavedLine: string := "User entity saved."

  /** What a failed check reports: the message of the `ArgumentException` it throws. */
  datatype Outcome = Pass | Fail(message: string)

  /** `char.IsWhiteSpace`: the space, line and paragraph separators plus the
      control characters U+0009 to U+000D and U+0085. */
  predicate IsWhiteSpace(c: char)
  {
    || '\U{9}' <= c <= '\U{D}'
    || c == ' ' || c == '\U{85}' || c == '\U{A0}' || c == '\U{1680}'
    || '\U{2000}' <= c <= '\U{200A}'
    || c == '\U{2028}' || c == '\U{2029}' || c == '\U{202F}' || c == '\U{205F}' || c == '\U{3000}'
  }

  /** The scan behind `string.IsNullOrWhiteSpace` once the string is known not to be null. */
  function AllWhiteSpace(s: string): (b: bool)
    ensures b <==> forall i | 0 <= i < |s| :: IsWhiteSpace(s[i])
  {
    if s == [] then true
    else IsWhiteSpace(s[0]) && AllWhiteSpace(s[1..])
  }

  /** `string.IsNullOrWhiteSpace`: null, empty, or made only of white space. */
  function IsNullOrWhiteSpace(s: Option<string>): (b: bool)
    ensures b <==> s.None? || forall i | 0 <= i < |s.value| :: IsWhiteSpace(s.value[i])
  {
    match s
    case None => true
    case Some(v) => AllWhiteSpace(v)
  }

  /** The raw user record; `Save` only announces that it was saved. */
  datatype UserEntity = UserEntity(username: Option<string>, email: Option<string>)
  {
    method Save(console: Console)
      modifies console
      ensures console.lines == old(console.lines) + [SavedLine]
    {
      console.WriteLine(SavedLine);
    }
  }

  /** The user record as the domain sees it, checked by `Validate`. */
  datatype UserDomainObject = UserDomainObject(username: Option<string>, email: Option<string>)
  {
    /** The username check: it fails, with its own message, exactly on a blank username. */
    function ValidateUsername(): (r: Outcome)
      ensures r.Pass? <==> !IsNullOrWhiteSpace(username)
      ensures r.Fail? ==> r.message == UsernameRequired
    {
      if IsNullOrWhiteSpace(username) then Fail(UsernameRequired) else Pass
    }

    /** The email checks: a blank email first, then a missing `@`; anything else passes. */
    function ValidateEmail(): (r: Outcome)
      ensures r == Fail(EmailRequired) <==> IsNullOrWhiteSpace(email)
      ensures r == Fail(EmailMalformed) <==> !IsNullOrWhiteSpace(email) && '@' !in email.value
      ensures r.Pass? <==> !IsNullOrWhiteSpace(email) && '@' in email.value
    {
      if IsNullOrWhiteSpace(email) then Fail(EmailRequired)
      else if '@' !in email.value then Fail(EmailMalformed)
      else Pass
    }

    /** The username check, then the email checks; the first failure is the one reported. */
    function Validation(): (r: Outcome)
      ensures r.Pass? <==>
        !IsNullOrWhiteSpace(username) && !IsNullOrWhiteSpace(email) && '@' in email.value
      ensures r == Fail(UsernameRequired) <==> IsNullOrWhiteSpace(username)
      ensures r == Fail(EmailRequired) <==>
        !IsNullOrWhiteSpace(username) && IsNullOrWhiteSpace(email)
      ensures r == Fail(EmailMalformed) <==>
        !IsNullOrWhiteSpace(username) && !IsNullOrWhiteSpace(email) && '@' !in email.value
    {
      match ValidateUsername()
      case Fail(m) => Fail(m)
      case Pass => ValidateEmail()
    }

    /** Runs the checks and, when they all pass, announces it; a failure writes nothing. */
    method Validate(console: Console) returns (r: Outcome)
      modifies console
      ensures r == Validation()
      ensures console.lines == old(console.lines) + (if r.Pass? then [ValidatedLine] else [])
    {
      r := ValidateUsername();
      if r.Pass? {
        r := ValidateEmail();
        if r.Pass? {
          console.WriteLine(ValidatedLine);
        }
      }
    }
  }

  /** The adapter's conversion: the two fields, copied verbatim and unchecked. */
  function Adapt(entity: UserEntity): (d: UserDomainObject)
    ensures d.username == entity.username && d.email == entity.email
  {
    UserDomainObject(entity.username, entity.email)
  }

  /** Adapting loses nothing: distinct entities give distinct domain objects. */
  lemma AdaptLossless(e1: UserEntity, e2: UserEntity)
    ensures Adapt(e1) == Adapt(e2) <==> e1 == e2
  {
  }
}
