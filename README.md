# Sign-in / sign-up screen: a verified model

The repository is one React Native screen (`App.js`). A user can register,
sign in, stay signed in across restarts through an on-device key-value store,
view and edit their cached profile, and sign out. This project models the two
parts of the screen whose behaviour can be stated precisely:

- **The field validators and the submit checks** (`validation.dfy`, and
  `ValidateSubmit` in `session.dfy`). The email and phone checks are regular
  expressions. Each is modelled twice. `EmailShape` is the language of the
  email pattern: some split `local "@" domain "." tld`, with each part in its
  character class. `IsValidEmail` is a scan: it checks that there is exactly
  one `@`, then splits what follows at the last `.`. `EmailScanCorrect` proves
  the two agree. The phone pattern `[0-9]{10}` is modelled as `DigitRun`,
  which consumes one digit at a time. `PhoneCharacterization` proves it is
  "ten characters, all ASCII digits". `ValidateSubmit` gives the outcome of
  the three guards at the head of the submit handler, stated against the
  pattern languages.
- **The session state** (`session.dfy`, class `App`). The class holds three
  flags (the mode, logged in, editing), the eight form inputs, the cached
  profile, the key-value store as a `map<string, string>`, and a trace of the
  calls made into the user database. There is one method per handler. Each
  method states its whole new state as an update of the old one, so every
  contract also says what does not change.

`profile.dfy` holds the profile record. Fields are optional because the edit
handlers spread the profile, and spreading `null` keeps only the edited
field. It also holds the text form of the profile in the store, with a proved
round trip (`DecodeEncode`).

Three facts about the code that a reader of the screen might not expect:

- App.js:45 requires all seven inputs in both modes, although in sign-in
  mode App.js:210-257 renders only the username and password inputs
  (`SignInNeedsRegistrationInputs`).
- A successful sign-in (App.js:61-65) stores only the login flag and then
  reloads whatever the store already holds under `userProfile`
  (App.js:34-38); it writes nothing there. After a restart, a sign-in only
  restores the profile stored at registration or at the last save.
- The record passed to `registerUser` (App.js:70-79) has no password field
  (`RegistrationRecord`). Whether a later sign-in can succeed depends on the
  database module, which is not part of this model.

## Model

| member | source | states |
|---|---|---|
| `Validation.IsValidEmail` | App.js:41 | No contract of its own: the executable scan of `isValidEmail`, characterised by `EmailScanCorrect` |
| `Validation.EmailScanCorrect` | App.js:41 | The scan accepts a string exactly when it lies in the language of `^[a-zA-Z0-9._%+-]+@[a-zA-Z0-9.-]+\.[a-zA-Z]{2,}$` |
| `Validation.PartsAreScanned` | App.js:41 | For any split local "@" domain "." tld of the pattern, the scan finds its only `@` at the end of the local part, finds the last `.` after it at the end of the domain, and accepts |
| `Validation.ScanHasParts` | App.js:41 | Everything the scan accepts has a split of the pattern's form |
| `Validation.AcceptedEmailHasOneAt` | App.js:41 | An accepted address holds exactly one `@` (multiset count), and the local part is everything before it |
| `Validation.AcceptedEmailTld` | App.js:41 | In an accepted address the last `.` sits just before the top-level domain, which is everything after it |
| `Validation.EmailPartsUnique` | App.js:41 | Two splits of the same address into local, domain and top-level domain are the same split |
| `Validation.EmailExamples` | App.js:41 | `"abc@"` is outside the pattern's language; `"alice@example.com"` is inside it |
| `Validation.IsValidPhone` | App.js:42 | No contract of its own: `^[0-9]{10}$` as `DigitRun(s, 10)`, characterised by `PhoneCharacterization` |
| `Validation.DigitRunIff` | App.js:42 | `[0-9]{n}`, anchored, matches exactly the strings of length n whose characters are all in `'0'..'9'` |
| `Validation.PhoneCharacterization` | App.js:42 | A phone number is valid exactly when it has 10 characters and all of them are ASCII digits |
| `Validation.PhoneRejections` | App.js:42 | `"12345"` (too short) and `"12345abcde"` (non-digits) are rejected |
| `Session.ValidateSubmit` | App.js:44-56 | Four outcomes, each stated both ways. "Please fill in all fields" exactly when a required input is empty. "Invalid email address" exactly when all are filled and the email is outside the pattern's language. "Invalid phone number" exactly when those pass and the number is not ten digits. Pass exactly when all three hold |
| `Session.SignInNeedsRegistrationInputs` | App.js:45 | An empty first name, last name, email, contact number or address fails the first check whatever the credentials. The check takes no mode |
| `Session.RegistrationRecord` | App.js:70-78 | Every field of the registration record holds its form input, and no field comes from the password |
| `Session.Typed` | App.js:193-257 | Typing into one input sets that input and keeps every other input |
| `Session.App.Type` | App.js:193-257 | Only the form changes, to `Typed(old(form), i, text)`: the `onChangeText` setters of the eight inputs |
| `Profiles.With` | App.js:126-156 | `{ ...p, f: text }` gives field f the value text and keeps every other field |
| `Profiles.Encode` | App.js:100 | The stored text of a profile, null included, is never empty, so the fetch's truthiness test passes on it |
| `Profiles.Decode` | App.js:37 | No contract of its own: `JSON.parse` of the stored text, None where it would throw; characterised by `DecodeEncode` |
| `Profiles.DecodeEncode` | App.js:34-38 | Decoding the stored text of a profile state (null included) gives back exactly that state |
| `Session.Fetched` | App.js:34-38 | No contract of its own: the profile state `fetchUserProfile` leaves; characterised by `SavedProfileReadsBack` and `FlagDoesNotAffectFetch`, and used by the contracts of `App.FetchUserProfile`, `App.CheckLoginStatus` and `App.Submit` |
| `Session.SavedProfileReadsBack` | App.js:34-39 | After the profile key is written with a profile state, a fetch reads that state, whatever was cached before |
| `Session.FlagDoesNotAffectFetch` | App.js:62-64 | Writing the login flag does not change what the following fetch reads |
| `Session.App.constructor` | App.js:8-19 | Initial state: sign-in mode, signed out, not editing, empty inputs, null profile, the persisted store, no database calls |
| `Session.App.FetchUserProfile` | App.js:34-39 | Only the cached profile changes, and it becomes what the store's entry gives (`Fetched`) |
| `Session.App.CheckLoginStatus` | App.js:26-32 | With the flag `"true"` stored: signed in, and the profile is fetched. Otherwise nothing changes |
| `Session.App.ToggleMode` | App.js:264 | Only the mode flips |
| `Session.App.Submit` | App.js:44-87 | A failed check alerts its message and changes nothing: no store write, no database call, in either mode. Sign-in: loginUser is called with the credentials. On a match the flag `"true"` is stored, the session starts and the profile is reloaded from the store, with the profile key left as it was. No match, or a throw, alerts and changes nothing else. Sign-up: registerUser is called with the record. On return the record is stored under the profile key and the mode becomes sign-in, with the login state untouched. A throw alerts its message and changes nothing else |
| `Session.App.Logout` | App.js:89-96 | Both keys are removed and every other key is kept. Signed out. Username, password and the cached profile are cleared. The other inputs, the mode and the editing flag are unchanged. A later startup does not resume the session |
| `Session.App.StartEditing` | App.js:168 | Only the editing flag is set |
| `Session.App.EditProfile` | App.js:126-156 | The cached profile becomes the spread of the old one (or of `{}` for null) with exactly one field replaced; nothing else changes |
| `Session.App.SaveProfile` | App.js:98-106 | On success the cached profile is written under its key, editing ends, and a fetch then reads the saved profile back. On a failed write it alerts "Failed to save profile" and changes nothing. The database is never called |
| `Session.RestartAfterLogout` | App.js:89-96 | Signing out and then starting afresh over the same store gives the signed-out view with no cached profile |
| `Session.EditSaveFetch` | App.js:98-106 | After editing a field, saving and fetching, the cached profile holds the edited value, every other field keeps its old value, editing has ended, and no database call was made |

## Left out

- Rendering, layout and styles (App.js:108-381). The choice of view from the
  login and editing flags is not modelled, so every handler is callable in
  every state. Only `EditProfile` has a precondition, because the edit view has
  no username input.
- `initDatabase`, `registerUser` and `loginUser` (App.js:5, App.js:22). Their
  module is not part of this model. Their outcomes are parameters of `Submit`,
  and the calls are recorded in `dbCalls`. So the testable property
  "registering and then signing in with the same credentials succeeds" is not
  stated.
- Failures of the key-value store are modelled only in `SaveProfile`, the one
  handler that catches them with its own message. A failed write inside
  `Submit` or `Logout` is not modelled.
- Asynchrony. Each awaited store operation is one atomic map update. The
  un-awaited `fetchUserProfile` is modelled as finishing before its handler
  returns. Interleavings of concurrent handlers are not modelled.
- `Profiles.Encode`: the exact JSON text of `JSON.stringify` is not modelled.
  The model uses its own encoding with a proved round trip. Stored text that
  is valid JSON but not a profile (say `"5"`, written by another screen) is
  treated by `Fetched` as a parse failure and leaves the cache unchanged.
  JSON.parse would accept it.
- `Alert.alert` is modelled as the alert value a handler returns. Nothing is
  displayed.
- The avatar's placeholder image and other platform details (`Platform`,
  `KeyboardAvoidingView`, `Image`).
