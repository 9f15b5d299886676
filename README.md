# Flexible Adaptor Pattern: the user pipeline in Dafny

This project models the C# example of the Adapter pattern. A `UserEntity` (raw username and email) is converted by a
`UserAdapter` into a `UserDomainObject`. The domain object validates itself. If validation passes, the entity saves
itself. `Application.ProcessUser` runs these three steps in order. It catches any validation failure and reports it as
a `Validation failed: <message>` line on the console.

The model is split into three modules:

- `Output` (output.dfy) is the console: a `Console` class whose `lines` field is the log of every line written.
  Each `Console.WriteLine` call appends one entry to it.
- `Users` (users.dfy) holds the entity and the domain object as datatypes, with null strings written as
  `Option<string>`. It also holds `string.IsNullOrWhiteSpace` (a scan over `char.IsWhiteSpace`) and the validation
  rules. `UserDomainObject.Validation` is the pure result of the checks (`Pass` or `Fail(message)`; the thrown
  `ArgumentException` becomes `Fail`). `UserDomainObject.Validate` is the method that runs the checks and prints the
  success notice. `UserEntity.Save` prints the save notice.
- `Pipeline` (pipeline.dfy) holds the `UserAdapter` and `Application` classes and `ProcessUserOutput`. That function
  gives every line one `ProcessUser` call writes, so "whether `Save` ran" is "whether `User entity saved.` was
  written". The module also holds the lemmas about a whole run and `Run`, the program's entry statements, with the
  dependency-injection container replaced by direct construction.

`ProcessUser`'s postcondition says the new log is the old log followed by `ProcessUserOutput(userEntity)`, a function
of the entity alone. So two calls with equal entities write the same lines, and no state carries over between calls.

## Model

| member | source | states |
|---|---|---|
| `Users.AllWhiteSpace` | FlexibleAdaptorPattern/Program.cs:63 | the character-by-character scan is true exactly when every character of the string is white space |
| `Users.IsNullOrWhiteSpace` | FlexibleAdaptorPattern/Program.cs:72 | a possibly-null string is "null or white space" exactly when it is null, empty, or all white space |
| `Users.UserEntity.Save` | FlexibleAdaptorPattern/Program.cs:43-46 | saving writes exactly the line `User entity saved.` and nothing else |
| `Users.UserDomainObject.Validation` | FlexibleAdaptorPattern/Program.cs:54-81 | passes iff the username is non-blank and the email is non-blank and contains `@`; fails with the username message iff the username is blank, whatever the email (username is checked first); fails with the empty-email message iff the username is fine and the email is blank; fails with the format message iff both are non-blank and the email lacks `@` |
| `Users.UserDomainObject.Validate` | FlexibleAdaptorPattern/Program.cs:54-59 | returns the outcome of the checks and writes `User domain object validated.` only when they all pass; a failure writes nothing |
| `Users.UserDomainObject.ValidateUsername` | FlexibleAdaptorPattern/Program.cs:61-68 | passes exactly when the username is non-blank; when it fails, the message is `Username cannot be null or empty.` |
| `Users.UserDomainObject.ValidateEmail` | FlexibleAdaptorPattern/Program.cs:70-81 | fails with `Email cannot be null or empty.` exactly when the email is blank, with `Email is not in a valid format.` exactly when it is non-blank without `@`, and passes exactly when it is non-blank with `@` |
| `Users.Adapt` | FlexibleAdaptorPattern/Program.cs:95-99 | the domain object's username and email are the entity's, copied verbatim |
| `Users.AdaptLossless` | FlexibleAdaptorPattern/Program.cs:95-99 | distinct entities adapt to distinct domain objects, so the copy loses nothing |
| `Pipeline.UserAdapter.Adapt` | FlexibleAdaptorPattern/Program.cs:92-100 | the result's username and email are the entity's, copied without any check; the only effect is the adapting notice (the entity, a value, is untouched) |
| `Pipeline.Application.constructor` | FlexibleAdaptorPattern/Program.cs:118-121 | the application keeps the adapter it is given |
| `Pipeline.ProcessUserOutput` | FlexibleAdaptorPattern/Program.cs:123-135 | every run starts with the adapting notice; its last line is the save notice exactly when validation passed, and on a failure it is `Validation failed: ` followed by the failure's message |
| `Pipeline.Application.ProcessUser` | FlexibleAdaptorPattern/Program.cs:123-135 | the console receives exactly the lines of `ProcessUserOutput` for the entity, appended to what was there, and the call always returns normally |
| `Pipeline.SaveRunsExactlyWhenValid` | FlexibleAdaptorPattern/Program.cs:123-130 | the save notice appears exactly once in a run when the entity's username is non-blank and its email non-blank with `@`, and zero times otherwise |
| `Pipeline.FailureIsReported` | FlexibleAdaptorPattern/Program.cs:131-134 | when validation fails with a message, the run writes the adapting notice and then `Validation failed: ` followed by that message, and neither the validated nor the saved notice |
| `Pipeline.ProcessUserSucceedsIff` | FlexibleAdaptorPattern/Program.cs:125-130 | a run writes the adapting, validated and saved notices in order iff the entity is valid (both directions) |
| `Pipeline.SampleUserIsSaved` | FlexibleAdaptorPattern/Program.cs:18-24 | the shipped sample user (`SampleUser`, `sample@email.com`) is adapted, validated and saved |
| `Pipeline.EmptyUsernameIsReported` | FlexibleAdaptorPattern/Program.cs:61-66 | an empty username is reported as `Username cannot be null or empty.` even with a good email |
| `Pipeline.EmailWithoutAtIsReported` | FlexibleAdaptorPattern/Program.cs:76-79 | a non-blank email without `@` is reported as `Email is not in a valid format.` |
| `Pipeline.Run` | FlexibleAdaptorPattern/Program.cs:10-24 | the entry point builds the application around a `UserAdapter` and processes the sample user, writing the three success notices |

## Left out

- The dependency-injection container (`ServiceCollection`, `Startup.ConfigureServices`, `GetService`) is replaced by
  direct construction in `Run`. So the null-conditional call `application?.ProcessUser` always has an application.
- The generic `IEntityAdapter<T> where T : IEntity` interface and the `IEntity`/`IDomainObject` interfaces have only one
  implementation each, so they are modelled by the concrete types directly.
- Console I/O is an append-only log of strings. Nothing is actually written.
- Exceptions are a result value. `Validate` returns `Fail(message)` in place of throwing, and `ProcessUser` matches on
  it in place of `try`/`catch`.
- White space (`Users.IsWhiteSpace`) is the set of characters that `char.IsWhiteSpace` accepts according to the .NET documentation:
  U+0009 to U+000D, U+0020, U+0085, U+00A0, U+1680, U+2000 to U+200A, U+2028, U+2029, U+202F, U+205F and U+3000.
  No lemma depends on which characters these are, except `SampleUserIsSaved`, `EmailWithoutAtIsReported` and `Run`
  (through the first).
- A Dafny `char` is a Unicode scalar value, while a C# string is a sequence of UTF-16 code units. C# strings that
  hold a lone surrogate have no counterpart in the model. On every other string the two agree, since all white-space
  characters lie in the Basic Multilingual Plane and neither half of a surrogate pair is white space or `@`.
- A null `UserEntity` reference passed to `ProcessUser` is not modelled. The parameter is declared non-nullable. In C#,
  `Adapt` would throw a `NullReferenceException` there, which would be caught and reported as a validation failure.
- The Python and Rust versions of the example are not part of this model.
