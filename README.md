# Security system core: ciphers, lockout, login with two factors, form validators

This Dafny project models the core of a Django web application with four parts:

- **Classical ciphers** (`ciphers.dfy`, module `Ciphers`). Atbash, Caesar and Vigenère work on strings, and `process_text` picks one by name. Each cipher is a method with the source's append loop. Each method is proved equal to a specification function, and the facts about the cipher are lemmas about that function:
  - Atbash undoes itself.
  - Decrypt undoes encrypt.
  - Length and case are kept, and non-letters stay in place.
- **Account lockout** (`accounts.dfy`, module `Accounts`). The `User` class has the account's fields and the three lockout methods:
  - the failure counter;
  - a thirty-minute lock from the third failure on;
  - the reset;
  - the expiry check.
  The methods are proved against functions on a `Lockout` value. The lockout invariant `Consistent` holds from the defaults and is kept.
- **Login and two-factor views** (`views.dfy`, module `Views`). The class `AuthSite` holds the accounts (a map from primary key to `User`), the next primary key, and one client session. The session has a pending-second-factor marker (`pre_2fa_user_pk`) and a signed-in user. The login decision for one account is the function `AttemptLogin`, and its lemmas state the protocol's properties. The view methods are proved to change the account and the session as that function says.
- **Form validators** (`forms.dfy`, module `Forms`). These cover the username field and its clean hook, the password clean hook with its ordered checks, and the two-factor token field. Each returns a `Result` whose error is the first check that failed.

`common.dfy` holds the `Option` and `Result` types.

Outside effects are modelled as follows:
- Time is an integer number of seconds, passed in as `now`.
- The password check is a parameter `passwordOk(username, password)`.
- The time-based one-time-password check (RFC 6238 with one step of skew) is a parameter `totpVerify(secret, token, now)`.
- A freshly generated secret is a parameter `freshSecret`: 32 characters of the base32 alphabet.
- Saving an account does nothing. Messages, rendering and redirects become outcome values.

Three behaviours of the code that the model keeps as written:
- Every failure from the third on sets the deadline again, to thirty minutes after that failure (auth_app/models.py:26-28).
- `is_lockout_expired` tests only `lockout_until`, not `is_locked` (auth_app/models.py:42).
- The server accepts any token of 1 to 6 characters. The six-digit pattern is only an attribute of the input widget (auth_app/forms.py:103-112).

## Model

| member | source | states |
|---|---|---|
| Ciphers.AtbashChar | ciphers/utils.py:19-32 | A letter at alphabet position p becomes the letter at 25 - p in the same case. Any other character is returned as it is. |
| Ciphers.Atbash | ciphers/utils.py:16-34 | The Atbash text has the length of the input. |
| Ciphers.AtbashAt | ciphers/utils.py:18-32 | Position i of the result is the Atbash image of position i of the input. |
| Ciphers.AtbashInvolutive | ciphers/utils.py:11-15 | Applying Atbash twice gives back the original text, so encrypting and decrypting are the same. |
| Ciphers.AtbashSameShape | ciphers/utils.py:18-32 | Length is kept, each letter keeps its case, and each non-letter stays at its position. |
| Ciphers.AtbashHello | ciphers/utils.py:19-29 | "Hello" becomes "Svool". |
| Ciphers.AtbashCipher | ciphers/utils.py:11-34 | The loop returns the Atbash text for every mode. |
| Ciphers.DirectedShift | ciphers/utils.py:41-42 | Mode "decrypt" negates the shift. Every other mode keeps it. |
| Ciphers.ShiftChar | ciphers/utils.py:47-55 | A letter moves by k places mod 26 within its own case. Any other character is returned as it is. |
| Ciphers.ShiftCharInverse | ciphers/utils.py:41-52 | Shifting by -k undoes shifting by k, for every integer k. |
| Ciphers.Caesar | ciphers/utils.py:44-57 | The Caesar text has the length of the input. |
| Ciphers.CaesarAt | ciphers/utils.py:46-55 | Position i of the result is position i of the input, shifted. |
| Ciphers.CaesarSameShape | ciphers/utils.py:46-55 | Length is kept, each letter keeps its case, and each non-letter stays at its position. |
| Ciphers.CaesarRoundTrip | ciphers/utils.py:37-57 | Decrypting with shift k undoes encrypting with shift k, for every integer k. |
| Ciphers.CaesarAbc | ciphers/utils.py:46-52 | "abc" with shift 3 becomes "def". |
| Ciphers.CaesarCipher | ciphers/utils.py:37-57 | The loop returns the Caesar text for the shift as the mode directs it. |
| Ciphers.CleanKey | ciphers/utils.py:67-68 | The cleaned key is upper-case letters only, one per letter of the key. It is empty exactly when the key has no letter, and a key of upper-case letters only is kept as it is. |
| Ciphers.KeyShift | ciphers/utils.py:78 | The key letter at cyclic position j gives a shift from 0 to 25. |
| Ciphers.VigenereWith | ciphers/utils.py:72-94 | The Vigenère text has the length of the input. |
| Ciphers.VigenereWithAt | ciphers/utils.py:75-92 | A letter at position i is shifted by the key letter at (number of letters before i) mod key length, negated on decrypt. A non-letter is kept. |
| Ciphers.VigenereSameShape | ciphers/utils.py:75-92 | Length is kept, each letter keeps its case, and each non-letter stays at its position. |
| Ciphers.VigenereRoundTrip | ciphers/utils.py:60-94 | Decrypting with a key undoes encrypting with the same key. |
| Ciphers.VigenereKeyWithoutLetters | ciphers/utils.py:64-70 | An empty key, or a key with no letter, returns the text unchanged. |
| Ciphers.CleanKeyExample | ciphers/utils.py:68 | The key "KEY" is already clean. |
| Ciphers.VigenereKeyExample | ciphers/utils.py:75-89 | "AAAA" with key "KEY" becomes "KEYK". |
| Ciphers.VigenereCipher | ciphers/utils.py:60-94 | The loop, whose key index advances only on letters, returns the Vigenère text. |
| Ciphers.ProcessText | ciphers/utils.py:97-116 | Dispatches on the cipher name, with shift 3 and key "KEY" as defaults. Any other name is an error. |
| Accounts.RecordFailure | auth_app/models.py:21-28 | One failure keeps the lockout invariant. |
| Accounts.RecordFailuresCount | auth_app/models.py:21-24 | n consecutive failures raise the counter by exactly n. The last failure's time is recorded. |
| Accounts.RecordFailuresLock | auth_app/models.py:26-28 | Once the count reaches 3 the account is locked until 30 minutes after the latest failure. |
| Accounts.ThreeFailuresLock | auth_app/models.py:9-28 | Three failures from the defaults lock the account until the third failure plus 1800 seconds. |
| Accounts.DefaultsConsistent | auth_app/models.py:9-12 | The field defaults satisfy the lockout invariant. |
| Accounts.LockHasDeadline | auth_app/models.py:26-28 | Under the invariant a locked account has a deadline and at least 3 failures. |
| Accounts.LockWithinWindow | auth_app/models.py:24-28 | A lock set by a failure at or before now ends at most 1800 seconds after now. |
| Accounts.UserFieldExamples | auth_app/models.py:7-19 | The record's own validation rejects a username with a space and a phone number of 16 characters, and accepts "alice_01" with a 12-character phone number. |
| Accounts.User.constructor | auth_app/models.py:9-19 | A new account has the lockout defaults, two-factor off, and the given secret and phone. |
| Accounts.User.IncrementFailedLogin | auth_app/models.py:21-30 | The counter goes up by exactly 1 and the failure time is recorded. At 3 or more the account is locked until now + 1800; below 3 the lock fields are unchanged. The two-factor fields and the phone are unchanged, and the invariant is kept. |
| Accounts.User.ResetFailedAttempts | auth_app/models.py:32-38 | The lockout fields become the defaults whatever they were, so a second call changes nothing. The two-factor fields and the phone are unchanged. |
| Accounts.User.IsLockoutExpired | auth_app/models.py:40-45 | Returns true exactly when a deadline exists and now is strictly after it, and then resets. Otherwise nothing changes. |
| Forms.Search | auth_app/forms.py:69-79 | The scan finds a character of the class exactly when the password contains one. |
| Forms.UsernameField | auth_app/forms.py:10-13 | The field accepts exactly the names of 6 to 150 characters, unchanged. |
| Forms.ValidateUsername | auth_app/forms.py:56-60 | Field plus hook accept exactly lengths 6 to 150. A shorter name is rejected by the field, so the hook's own check never decides. |
| Forms.CleanPassword1 | auth_app/forms.py:62-81 | Checks run in the order length ≥ 8, an ASCII letter, a digit, a special character. The first that fails gives the error. An accepted password is returned unchanged. |
| Forms.ValidatePassword1 | auth_app/forms.py:28-34 | An empty password is reported as missing. Otherwise a password is accepted exactly when it passes all four checks. |
| Forms.CleanToken | auth_app/forms.py:103-112 | A token is accepted exactly when it has 1 to 6 characters, and it is returned unchanged. |
| Forms.TokenPatternNotEnforced | auth_app/forms.py:103-112 | The six-digit pattern is not checked on the server: "12a" and "1" pass and "1234567" does not. |
| Views.RemainingMinutes | auth_app/views.py:59 | The minutes lie in 0..1439. For a wait under a day they are the wait in whole minutes. |
| Views.LockedAttemptIgnoresPassword | auth_app/views.py:53-61 | While the lock holds, the answer is the remaining minutes whatever the password, and the account is unchanged. |
| Views.LockedMinutesInWindow | auth_app/views.py:58-60 | A lock set at or before now reports 0 to 30 minutes. |
| Views.ExpiredLockStartsOver | auth_app/views.py:55-57 | An expired lock is reset before the password is evaluated. A wrong password then leaves the counter at 1 with 2 attempts reported. |
| Views.CorrectPasswordResets | auth_app/views.py:63-76 | A correct password resets the lockout. The result is the second step exactly when two-factor is on, and sign-in exactly when it is off. |
| Views.WrongPasswordCounts | auth_app/views.py:77-85 | A wrong password counts one failure. Either it sets a 30-minute lock, or it reports 1 or 2 attempts left. |
| Views.AttemptKeepsConsistent | auth_app/views.py:52-85 | Every login attempt keeps the lockout invariant. |
| Views.FourthAttemptRefused | auth_app/views.py:53-85 | Three wrong passwords report 2, 1 and then "locked". A fourth attempt with the right password one second later is refused with 29 minutes left. |
| Views.LoginAttempt | auth_app/views.py:52-85 | On one account, the outcome and the new lockout fields are those of AttemptLogin. The two-factor fields and the phone are unchanged, and the account invariant is kept. |
| Views.AfterLoginSetsOneSlot | auth_app/views.py:70-76 | An attempt sets the marker only on the second-step outcome and the signed-in account only on sign-in. A sign-in drops the marker only when it replaces a different signed-in account. |
| Views.SecondStepFailsOnlyAfterOtherSignIn | auth_app/views.py:111-113 | With a marker present, the second step as written fails exactly when a different account is signed in, and otherwise ends as the intended step does. |
| Views.AbandonedSecondStepFails | auth_app/views.py:70-76 | A second step left unfinished followed by a direct sign-in of another account leaves both slots set, and completing the first account's second step then fails. |
| Views.SecondStepCompletes | auth_app/views.py:111-113 | The intended second step always ends with that account signed in and no marker. |
| Views.AuthSite.RegisterView | auth_app/views.py:24-40 | An unused username, a valid password and a phone number that pass the form and the record's own validation create one fresh account under the next key. It has the lockout defaults, two-factor off and the fresh secret. Anything else changes nothing. |
| Views.AuthSite.LoginView | auth_app/views.py:43-92 | An unknown username gets the generic message and changes nothing. Otherwise the account changes as AttemptLogin says, no other account changes, and the session changes as AfterLogin says. |
| Views.AuthSite.Verify2faView | auth_app/views.py:95-121 | No marker, or an unknown account, sends back to login. A verifying token completes the step as CompleteSecondStep says: that account signed in and no marker. Anything else keeps the marker. No account is changed. |
| Views.AuthSite.Setup2faView | auth_app/views.py:124-150 | If two-factor is already on, nothing changes. An empty secret becomes the fresh one. Two-factor is switched on exactly when a token verifies against the secret. |
| Views.AuthSite.Disable2faView | auth_app/views.py:178-203 | If two-factor is off, nothing changes. A verifying token switches it off and sets the secret to the fresh one. Anything else changes nothing. |

## Findings

| source | as written | input that shows it | evidently intended | confidence | as-written member | corrected member |
|---|---|---|---|---|---|---|
| auth_app/views.py:112-113 | `login(request, user)` runs first, then `del request.session['pre_2fa_user_pk']`. When a different account is signed in, `login()` flushes the session, so the marker is already gone and the `del` raises a KeyError. | Account 2 (two-factor on) stops at the second step. Account 1 (two-factor off) then signs in directly in the same session, which keeps the marker. Account 2's valid token then fails the request. | Sign account 2 in and drop the marker if it is still there. | not executed | Views.SecondStepAsWritten, Views.AbandonedSecondStepFails | Views.CompleteSecondStep, Views.SecondStepCompletes |

## Left out

- Non-ASCII text in the ciphers. The source tests `char.upper() in string.ascii_uppercase` and filters the key with Unicode `isalpha`, which send a few non-ASCII characters down the letter path. The cipher methods therefore require ASCII text and an ASCII key.
- Ciphers.ProcessText: the shift is taken to be an integer and the key a string. The JSON plumbing around the dispatcher in ciphers/views.py is not part of this model.
- Forms.CleanPassword1: `\d` is taken as the ASCII digits. The source's regular expression also accepts other Unicode decimal digits.
- Whitespace stripping by the form fields is not modelled. The validators receive the value after stripping.
- Views.AuthSite.RegisterView: the email field, the password confirmation and the framework's own password validators are not modelled. A username already in use is rejected.
- Accounts.IsUsernameCharacter: the inherited username validator accepts Unicode word characters. The model admits only ASCII letters, digits and `_.@+-`, so it rejects non-ASCII names the source accepts.
- Views.AuthSite.RegisterView, Views.AuthSite.LoginView: usernames are compared exactly. The source's database collation (utf8mb4_unicode_ci, create_database.py:20) makes the lookup and the uniqueness check ignore case.
- Forms.UsernameField, Forms.ValidatePassword1, Forms.CleanToken: every form field also rejects a value holding a NUL character. The model takes values to contain none.
- Password hashing and authentication happen inside the framework. They are the parameter `passwordOk`.
- The TOTP computation (HMAC-SHA1, truncation, time steps) is the parameter `totpVerify`, so the code round-trip and the ±30-second window are not proved.
- Secret generation is the parameter `freshSecret`. Views.AuthSite.Disable2faView: the new secret is not proved different from the old one, because a random draw only makes that likely.
- The QR code, the provisioning URI and the PNG/base64 rendering (auth_app/views.py:152-175) are not modelled. Neither are messages, templates and redirects beyond the outcome values.
- Saving an account is a no-op. Concurrent requests and per-account serialisation are not modelled; the model is sequential with one client session.
- The framework's `login()` is modelled by `SignIn`: it flushes the session when a different account was signed in and otherwise keeps its data. Session-key rotation and the password-hash check on the session are not modelled.
- Accounts.User.IncrementFailedLogin: one `now` serves both the failure time and the deadline. The source reads the clock twice, microseconds apart. Time is whole seconds.
- Views.AuthSite.LoginView: one `now` serves both the expiry test and the remaining minutes. The source reads the clock twice (auth_app/views.py:55 and :59). If the deadline passes between the two reads, the source reports 1439 minutes.
- Views.AuthSite.LoginView: the login page shown for a request that is not a submission is not modelled. A locked account without a deadline would crash the source; the account invariant rules that out, so the view requires it.
- The homepage, dashboard and logout views, the joke fetching and sending, the scheduled tasks, the serializers, the URL and Celery configuration, and the database script are not part of this model. They are I/O or configuration.
