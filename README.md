# Fitness assessment catalogue and user registry, in Dafny

This project models the two parts of the fitness-assessment web application
that hold decision logic of their own:

- **The static assessment catalogue** (`src/lib/data.ts`). It lists eight
  fitness tests. Each test has a benchmark: a unit and four thresholds, for
  beginner, intermediate, advanced and elite. The catalogue also holds six
  badges and three leaderboard tables (city, state and national). The lookup
  `getTestById` finds a test by its id. The tables are Dafny constants
  (module `Catalogue`). Lemmas prove the structural facts the data encodes:
  - test ids are distinct, and so are badge ids;
  - tests and benchmarks have exactly the same ids;
  - thresholds ascend for every test except shuttle-run, which is timed in
    seconds and whose thresholds descend;
  - in each leaderboard the ranks are 1..N in list order and scores strictly
    decrease.
- **The in-memory user registry behind the authentication routes.** Signup
  (`SignupRoute.Post`) checks that all fields are given and rejects an email
  that is already registered. It then appends the new user with id
  `String(users.length + 1)` and returns that user without the password.
  Login (`LoginRoute.Post`) returns the first user whose email and password
  both match, again without the password, and otherwise answers 401.
  - The shared table is the class `Registry.Users`, with a `seq` field that
    signup reassigns.
  - The HTTP result is the datatype `Registry.Response`: `Ok(user)` (200),
    `BadRequest` (400), `Conflict` (409) or `Unauthorized` (401).
  - `String(n)` for a non-negative integer is `Decimal.NatToString`. Its
    inverse `Decimal.ParseNat` gives the injectivity the id invariant needs.

The repository does not implement a level classifier, leaderboard ranking,
title promotion or badge-award rule. Its dashboard shows the first three
badges of the catalogue as "earned". None of these engines is modelled, and
the leaderboards are checked as data. Further facts of the model:
- an unknown test id gives "none", not an error;
- no test carries a direction field;
- direction (higher or lower is better) is a fact proved about the
  thresholds, not a stored attribute.

Modules: `Options` (options.dfy: the optional value shared by the others), `Catalogue` (catalogue.dfy), `Decimal` (decimal.dfy), `Registry`
(registry.dfy: records, responses, the shared table and its invariants),
`SignupRoute` (signup_route.dfy), `LoginRoute` (login_route.dfy).

Modelling choices:
- Signup's request fields are strings. A missing or `null` field is modelled
  as the empty string, which signup's `!name || !email || !password` check
  treats the same way.
- Login has no such check. Its fields are `Option<string>`, and a missing or `null` field
  is `None`. Like `undefined` or `null` in the route's `===` comparison, `None` equals no
  stored string, so such a request is answered 401.
- The starting contents of the shared `users` array live in a module that is
  not part of this model. The constructor of `Registry.Users` therefore takes
  any starting sequence. Uniqueness of emails and sequential ids are stated as
  conditions that signup preserves, not as facts about the start.
- Icons are library components. They are modelled by the component's name.
  Each badge's image is modelled by the id of the placeholder image it is
  looked up by.
- The source's `number` thresholds, ranks and scores are Dafny `int`s. Every
  such value in the catalogue is an integer, and nothing computes with them.
- A leaderboard row's `level` is the datatype `Catalogue.Title`, which has the
  five titles of the source's union type as its constructors. So "every level
  is one of the five titles" holds by typing.

## Model

| member | source | states |
|---|---|---|
| `Catalogue.FindTest` | src/lib/data.ts:243 | the result is the first test in the list with the requested id, and it is "none" exactly when no test has that id |
| `Catalogue.GetTestById` | src/lib/data.ts:241-244 | an absent or empty id yields none; a found test is in `tests` and has the requested id; the result is none exactly when the id is absent, empty, or belongs to no test |
| `Catalogue.TestIdsDistinct` | src/lib/data.ts:27-76 | the ids of the eight tests are pairwise distinct |
| `Catalogue.EveryTestHasBenchmark` | src/lib/data.ts:90-143 | every test id has an entry in `benchmarks`, and every benchmark key is the id of some test |
| `Catalogue.BenchmarksOrdered` | src/lib/data.ts:91-142 | for every benchmark except shuttle-run, beginner < intermediate < advanced < elite; for shuttle-run, elite < advanced < intermediate < beginner; shuttle-run is the only benchmark measured in seconds |
| `Catalogue.BadgeIdsDistinct` | src/lib/data.ts:153-196 | the ids of the six badges are pairwise distinct |
| `Catalogue.LeaderboardsWellRanked` | src/lib/data.ts:198-229 | in the city, state and national tables, the rank of the row at position i is i + 1, and each row scores strictly more than the next |
| `Catalogue.WellRankedScoresDecrease` | src/lib/data.ts:198-229 | in any table ranked this way, a row with a better rank has a strictly higher score than every row below it, not only the next one |
| `Catalogue.FindTestFindsEach` | src/lib/data.ts:243 | in a list with distinct ids, looking up the id of any member finds that member |
| `Catalogue.GetTestByIdFindsEachTest` | src/lib/data.ts:241-244 | looking up the id of any test in the catalogue returns that test |
| `Decimal.NatToString` | src/app/api/auth/signup/route.ts:22 | the new user's id string is non-empty and made of decimal digits, with no leading zero |
| `Decimal.ParseNatToString` | src/app/api/auth/signup/route.ts:22 | reading the id string back as a decimal number gives the number it was made from |
| `Decimal.NatToStringInjective` | src/app/api/auth/signup/route.ts:22 | different numbers give different id strings |
| `Registry.WithoutPassword` | src/app/api/auth/login/route.ts:24 | the returned record keeps the stored user's id, displayName and email and drops the password; the same rest-spread is at src/app/api/auth/signup/route.ts:29 |
| `Registry.NewUser` | src/app/api/auth/signup/route.ts:21-26 | the record signup builds has displayName, email and password equal to the request's name, email and password, and an id that is the decimal rendering of the old table length plus one and reads back as that number |
| `Registry.Matches` | src/app/api/auth/login/route.ts:14 | a user matches a login request exactly when both its email and its password equal the request's, compared as exact strings |
| `SignupRoute.FieldsGiven` | src/app/api/auth/signup/route.ts:12 | signup goes past the field check exactly when the name, the email and the password are all non-empty |
| `Registry.WithoutPasswordIgnoresPassword` | src/app/api/auth/signup/route.ts:29 | the record a route returns for a user is the same whatever the user's password is, so the password does not reach the response |
| `Registry.IndexOfEmail` | src/app/api/auth/signup/route.ts:16 | the result is the index of the first user with that email, and it is none exactly when no user has it |
| `Registry.IndexOfCredentials` | src/app/api/auth/login/route.ts:13-15 | the result is the index of the first user whose email and password both match, and it is none exactly when no user matches both |
| `Registry.AppendKeepsEmailsUnique` | src/app/api/auth/signup/route.ts:16-27 | appending a user whose email is not yet in a table of unique emails leaves the emails unique |
| `Registry.AppendKeepsIdsSequential` | src/app/api/auth/signup/route.ts:21-27 | if the user at position i has id String(i + 1), appending the signup record keeps that so |
| `Registry.SequentialIdsDistinct` | src/app/api/auth/signup/route.ts:22 | in a table whose ids are sequential, no two users share an id |
| `Registry.Users.constructor` | src/app/api/auth/signup/route.ts:4 | the shared table starts with a caller-chosen sequence of users |
| `SignupRoute.Post` | src/app/api/auth/signup/route.ts:12-35 | an empty name, email or password gives BadRequest and leaves the table unchanged; a registered email gives Conflict and leaves it unchanged; otherwise the table becomes the old table plus one entry at the end with id String(old length + 1) and the given name, email and password, and the response is Ok with that id, name and email but no password; signup never answers Unauthorized; unique emails and sequential ids are preserved whatever the outcome |
| `LoginRoute.Post` | src/app/api/auth/login/route.ts:13-30 | login succeeds if and only if both fields are present and some user matches both email and password; on success it returns the first such user without the password; otherwise it answers Unauthorized; it only reads the table |
| `LoginRoute.MissingFieldIsUnauthorized` | src/app/api/auth/login/route.ts:11-22 | a request without an email or without a password is answered Unauthorized, whatever the table holds |
| `LoginRoute.SignupThenLogin` | src/app/api/auth/login/route.ts:13-15 | after signup has appended a user, because that user's email was new, logging in with that email and password returns exactly the new user |
| `LoginRoute.LoginUnaffectedByOtherSignup` | src/app/api/auth/login/route.ts:13-22 | appending a user with a different email does not change the outcome of any login attempt |
| `LoginRoute.LoginFindsRegisteredUser` | src/app/api/auth/login/route.ts:13-15 | with unique emails, logging in with a registered user's email succeeds exactly with that user's password and returns that user |
| `LoginRoute.SignupAndLogin` | src/app/api/auth/signup/route.ts:16-27 | on the shared table, a successful signup followed by a login with the same email and password returns the very user that signup returned; signup succeeds exactly when all fields are given and the email was not registered, and then it returns the public record of the newly appended user; the table afterwards is the old table plus the new entry if signup succeeded, and the old table otherwise |

## Left out

- JWT signing, the secret taken from the environment, cookie setting and the `/api/auth/me` route. These are calls into the `jsonwebtoken` library and the web framework. Only the registry decision and the returned record are modelled.
- Parsing the request's JSON body, and the `catch` branch that answers 500. This is HTTP plumbing. Request fields that are not strings, such as numbers or booleans, are not modelled.
- Fields of the stored users besides id, displayName, email and password, which the route's object spread would also copy. The `users` module is not part of this model.
- The AI flows (form analysis, video segmentation, recommendations) and their server action. These are prompt templates and schemas handed to an external generative-AI service.
- The face scanner: camera access, face-recognition model loading and timer polling.
- The Firebase provider and hooks, and the community page. They subscribe to a hosted database. The community page's only logic is sorting by timestamp seconds.
- The dashboard, settings, recommendations and header pages. They are UI. The dashboard's "earned badges" are the first three badges of the catalogue, which is display code, not an award rule.
- `progressData` in `src/lib/data.ts`. It is chart data that states no invariant.
- The resolved image URL of each badge. It comes from a placeholder-image file that is not part of this model.
- Level classification, leaderboard ranking, title promotion and badge awarding. The code implements none of them, so modelling them would invent behaviour.
