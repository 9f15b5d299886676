/** The adapter and the application that adapts, validates and saves one user. */
module Pipeline {
  import opened Wrappers
  import opened Output
  import opened Users

  const AdaptingLine: string := "Adapting UserEntity to UserDomainObject."
  const FailurePrefix: string := "Validation failed: "

  /** The only adapter there is: from a `UserEntity` to a `UserDomainObject`. */
  class UserAdapter {
    constructor ()
    {
    }

    /** Announces the conversion, then copies both fields without checking them. */
    method Adapt(entity: UserEntity, console: Console) returns (d: UserDomainObject)
      modifies console
      ensures d.username == entity.username && d.email == entity.email
      ensures console.lines == old(console.lines) + [AdaptingLine]
    {
      console.WriteLine(AdaptingLine);
      d := Users.Adapt(entity);
    }
  }

  /** Every line `ProcessUser` writes for `entity`, in order: a run always starts by
      adapting, and its last line is the save notice exactly when validation passed. */
  function ProcessUserOutput(entity: UserEntity): (out: seq<string>)
    ensures |out| >= 2 && out[0] == AdaptingLine
    ensures out[|out| - 1] == SavedLine <==> Users.Adapt(entity).Validation().Pass?
    ensures Users.Adapt(entity).Validation().Fail? ==>
      out[|out| - 1] == FailurePrefix + Users.Adapt(entity).Validation().message
  {
    [AdaptingLine] +
    match Users.Adapt(entity).Validation()
    case Pass => [ValidatedLine, SavedLine]
    case Fail(m) => [FailurePrefix + m]
  }

  /** The application, built around the adapter it is given. */
  class Application {
    const userAdapter: UserAdapter

    constructor (userAdapter: UserAdapter)
      ensures this.userAdapter == userAdapter
    {
      this.userAdapter := userAdapter;
    }

    /** Adapt, validate, save; a failed validation is reported on the console
        instead of propagating, and the entity is then not saved. */
    method ProcessUser(userEntity: UserEntity, console: Console)
      modifies console
      ensures console.lines == old(console.lines) + ProcessUserOutput(userEntity)
    {
      var userDomainObject := userAdapter.Adapt(userEntity, console);
      var outcome := userDomainObject.Validate(console);
      match outcome
      case Pass =>
        userEntity.Save(console);
      case Fail(message) =>
        console.WriteLine(FailurePrefix + message);
    }
  }

  /** `Save` runs exactly once when the entity passes validation and never otherwise. */
  lemma SaveRunsExactlyWhenValid(entity: UserEntity)
    ensures multiset(ProcessUserOutput(entity))[SavedLine] ==
      if !IsNullOrWhiteSpace(entity.username) && !IsNullOrWhiteSpace(entity.email)
         && '@' in entity.email.value
      then 1 else 0
  {
  }

  /** On a failed validation the run ends with the reported message: nothing is
      validated or saved, and nothing propagates to the caller. */
  lemma FailureIsReported(entity: UserEntity, message: string)
    requires Users.Adapt(entity).Validation() == Fail(message)
    ensures ProcessUserOutput(entity) == [AdaptingLine, FailurePrefix + message]
    ensures ValidatedLine !in ProcessUserOutput(entity) && SavedLine !in ProcessUserOutput(entity)
  {
  }

  /** A run writes the adapting, validated and saved lines in that order exactly
      when the entity's username is non-blank and its email non-blank with an `@`. */
  lemma ProcessUserSucceedsIff(entity: UserEntity)
    ensures ProcessUserOutput(entity) == [AdaptingLine, ValidatedLine, SavedLine] <==>
      !IsNullOrWhiteSpace(entity.username) && !IsNullOrWhiteSpace(entity.email)
      && '@' in entity.email.value
  {
  }

  /** The run with the sample user the program is shipped with: every step succeeds. */
  lemma SampleUserIsSaved()
    ensures ProcessUserOutput(UserEntity(Some("SampleUser"), Some("sample@email.com")))
      == [AdaptingLine, ValidatedLine, SavedLine]
  {
  }

  /** An empty username is reported before the email is looked at. */
  lemma EmptyUsernameIsReported()
    ensures ProcessUserOutput(UserEntity(Some(""), Some("sample@email.com")))
      == [AdaptingLine, FailurePrefix + UsernameRequired]
  {
  }

  /** A non-blank email without `@` is reported as malformed. */
  lemma EmailWithoutAtIsReported()
    ensures ProcessUserOutput(UserEntity(Some("SampleUser"), Some("bad-email")))
      == [AdaptingLine, FailurePrefix + EmailMalformed]
  {
  }

  /** The program's entry point, with the dependency container replaced by
      direct construction: one sample user is processed and saved. */
  method Run(console: Console)
    modifies console
    ensures console.lines == old(console.lines) + [AdaptingLine, ValidatedLine, SavedLine]
  {
    var userAdapter := new UserAdapter();
    var application := new Application(userAdapter);
    var userEntity := UserEntity(Some("SampleUser"), Some("sample@email.com"));
    application.ProcessUser(userEntity, console);
    SampleUserIsSaved();
  }
}
