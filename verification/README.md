# Estou Bem — page logic in Dafny

Estou Bem ("I'm fine") is a Next.js app for people who live alone. Each day
the user presses one button to record a check-in. The app keeps a 30-day
history of those check-ins and a "pessoa de confiança": a trusted contact
who is meant to be warned when check-ins stop. The backend is Supabase,
used for authentication and tables.

This project models the decision logic embedded in the app's page
components and proves what each piece promises:

| module | file modelled | what it holds |
|---|---|---|
| `Text` | (shared) | JavaScript `\s` whitespace, `trim`, `includes`, truthiness, UTF-16 `length` |
| `PhoneMask` | src/app/contato-seguranca/page.tsx | `formatPhone`, the `(XX) XXXXX-XXXX` mask |
| `ContatoSeguranca` | src/app/contato-seguranca/page.tsx | phone field update; update-or-insert of the user's contact |
| `ContactPage` | src/app/contact/page.tsx | the e-mail pattern; per-field errors; field change |
| `SupabaseCredentials` | src/utils/supabase.ts | `isValidUrl`, `isValidKey`, whether the shared client exists |
| `Historico` | src/app/historico/page.tsx | the 30-day calendar loop |
| `Signup` | src/app/signup/page.tsx | ordered validation chain and sign-up outcome |
| `Dashboard` | src/app/dashboard/page.tsx | the daily check-in flag machine |
| `Login` | src/app/login/page.tsx | the page's configuration check and error-message mapping |
| `ForgotPassword` | src/app/forgot-password/page.tsx | reset request with a neutral response |
| `SecurityContact` | src/app/security-contact/page.tsx | guarded upsert of the contact row |

Each of the modelled handlers (`handleSubmit`, `handleSave`, `handleChange`,
`handlePhoneChange`, `handleCheckIn`, `checkTodayCheckIn`) is a method of the
page's `class Page`. Each method's postcondition ties the new state to a pure step
function (`Submit`, `Save`, `CheckIn`, …), and the properties of the page
are proved about those functions. Every backend call is an outcome passed
in by the caller: ok, error, thrown, row found or not found. The
`contatos_seguranca` table is a map keyed by user id. Calendar days are
integers. Whether the platform's `URL` constructor accepts a string is the
caller-supplied predicate `urlParses`.

## Model

| member | source | states |
|---|---|---|
| Text.Trim | src/app/contact/page.tsx:33 | `trim()` gives "" exactly when every character is JavaScript whitespace; a non-empty result starts and ends with a non-space |
| Text.TrimStartIsSuffix | src/app/contact/page.tsx:33 | the leading part `trim` removes is all whitespace, and what remains is a suffix of the input |
| Text.Utf16Length | src/app/signup/page.tsx:35 | JavaScript's `length` is at least the number of characters and at most twice that. It equals the number of characters iff none lies outside the Basic Multilingual Plane |
| Text.ContainsIff | src/utils/supabase.ts:10 | `includes(t)` holds iff `t` occurs at some index of `s` |
| PhoneMask.DigitsKeepsExactlyTheDigits | src/app/contato-seguranca/page.tsx:87 | stripping `\D` keeps every digit as often as it occurs and drops every other character |
| PhoneMask.DigitsAreDigits | src/app/contato-seguranca/page.tsx:87 | what remains after stripping consists of digits only |
| PhoneMask.MaskFitsTemplate | src/app/contato-seguranca/page.tsx:89-97 | the mask's output fits `(##) #####-####` position by position. With ≤2 digits it is just those digits. With 3–7 digits its length is digits+3; above that, min(digits, 11)+4 |
| PhoneMask.MaskKeepsDigits | src/app/contato-seguranca/page.tsx:90-97 | the digits of the mask's output are the first min(n, 11) digits fed to it |
| PhoneMask.FormatPhone | src/app/contato-seguranca/page.tsx:85-98 | the output is at most 15 characters (the field's maxLength). It is a masked phone shape whose length is fixed by the digit count. Its digits are the first min(n, 11) digits of the input; no digits gives "" |
| PhoneMask.MaskedIsFixpoint | src/app/contato-seguranca/page.tsx:85-98 | every string the mask can produce is left unchanged by `formatPhone` |
| PhoneMask.FormatPhoneIdempotent | src/app/contato-seguranca/page.tsx:85-103 | formatting an already formatted phone changes nothing, so re-masking on every keystroke is stable |
| ContatoSeguranca.Save | src/app/contato-seguranca/page.tsx:105-161 | Without a user (a null or empty id, as `!userId` tests) nothing changes. Success happens iff the look-up did not throw and the write went through. On failure the table is unchanged. Other users' rows never change. After success the user's row holds the form's nome/email/telefone, with `updated_at` stamped on update and left to the table on insert |
| ContatoSeguranca.SaveTwice | src/app/contato-seguranca/page.tsx:115-152 | for a signed-in user, saving the same form twice yields the form's values with the later time stamp |
| ContatoSeguranca.Page.HandlePhoneChange | src/app/contato-seguranca/page.tsx:100-103 | only the phone field changes, and it becomes the masked value |
| ContatoSeguranca.Page.HandleSubmit | src/app/contato-seguranca/page.tsx:105-161 | the table and the success flag become those of `Save`; `saving` ends false; without a user (null or empty id) nothing changes |
| ContactPage.ValidateEmailIff | src/app/contact/page.tsx:20-23 | the pattern accepts iff there is no whitespace, exactly one '@' with text before it, and after it a '.' with text on both sides |
| ContactPage.CountOne | src/app/contact/page.tsx:21 | a character occurs exactly once iff there is an index holding it and no other index does |
| ContactPage.ValidEmailIsNotBlank | src/app/contact/page.tsx:38-45 | an accepted address never trims to "", so "required" and "invalid" never both apply |
| ContactPage.SubmitErrors | src/app/contact/page.tsx:25-51 | Name and phone errors are set iff the trimmed value is empty. E-mail is "required" when blank, otherwise "invalid" iff the untrimmed value fails the pattern. The errors are computed from the form alone |
| ContactPage.SubmitSucceedsIff | src/app/contact/page.tsx:53-60 | no error iff name and phone are not blank and the e-mail matches the pattern |
| ContactPage.PaddedEmailIsInvalid | src/app/contact/page.tsx:39-45 | a non-blank e-mail with leading whitespace passes the blank check but is reported invalid |
| ContactPage.FormData.Set | src/app/contact/page.tsx:65-68 | the named field takes the value; the others keep theirs |
| ContactPage.Errors.Clear | src/app/contact/page.tsx:70-75 | the named error becomes ""; the others keep theirs |
| ContactPage.Page.HandleSubmit | src/app/contact/page.tsx:25-61 | errors become `SubmitErrors(form)`; with none, the success alert is added and the route becomes /checkin; otherwise route and alerts stay |
| ContactPage.Page.HandleChange | src/app/contact/page.tsx:63-76 | only the named field and only its error change |
| SupabaseCredentials.FreeOfIff | src/utils/supabase.ts:10 | "no placeholder occurs anywhere" is the same as "`includes` is false for each placeholder" |
| SupabaseCredentials.EnvOrEmpty | src/utils/supabase.ts:3-4 | the environment value with its '' default is "" exactly when the variable is missing or empty, and otherwise the variable's value |
| SupabaseCredentials.IsValidUrl | src/utils/supabase.ts:7-19 | valid iff non-empty, free of "abc123", "your-project" and "example", and accepted by the URL parser |
| SupabaseCredentials.IsValidKey | src/utils/supabase.ts:21-28 | valid iff at least 20 UTF-16 code units long and free of "your-anon-key" and "example" |
| SupabaseCredentials.ExportedClient | src/utils/supabase.ts:31-33 | the client exists iff both environment values are valid, and then it is built from exactly those values |
| SupabaseCredentials.PlaceholderKeyRefused | src/utils/supabase.ts:24 | a key containing a placeholder is refused whatever its length |
| SupabaseCredentials.PlaceholderUrlRefused | src/utils/supabase.ts:10-12 | a URL containing a placeholder is refused whatever the parser says |
| Historico.DayOf | src/app/historico/page.tsx:57 | a timestamp's calendar day (the date part of `toISOString()`) is the day whose 24-hour span contains it, also before the epoch |
| Historico.HasCheckInOn | src/app/historico/page.tsx:56-59 | `.some` over the fetched rows holds iff some row's day is the given day |
| Historico.HasCheckInOnIgnoresOrder | src/app/historico/page.tsx:56-59 | reordering the fetched rows does not change the answer |
| Historico.LastThirtyDays | src/app/historico/page.tsx:48-67 | Exactly 30 entries; entry i is day today−i (newest first, strictly decreasing). An entry is marked iff a fetched check-in falls on its day. A failed fetch marks none |
| Signup.FirstFailure | src/app/signup/page.tsx:25-43 | Checks run in order: client, all four fields filled, password of at least 6 UTF-16 code units, terms accepted. Each message appears iff every earlier check passed and its own failed; none iff all pass |
| Signup.Classify | src/app/signup/page.tsx:60-81 | Loading ends false. An error shows its message, or the default when empty. An exception shows the connection error and nothing else. User without session gets the confirm-e-mail notice; user with session gets the redirect notice and the pending route to /contact. A reply with no user shows no message. Never both error and success |
| Signup.Submit | src/app/signup/page.tsx:19-82 | A failed check leaves exactly its message and an empty success. When every check passes, the page shows what `Classify` gives for the `signUp` outcome, starting from cleared messages. Success is only possible after all checks pass and a user came back |
| Signup.SubmitForgetsMessages | src/app/signup/page.tsx:21-22 | the previous error and success never influence a submit |
| Signup.SixCharactersSuffice | src/app/signup/page.tsx:35-38 | a password of exactly six characters passes the length check |
| Signup.ThreeAstralCharactersSuffice | src/app/signup/page.tsx:35-38 | three characters outside the Basic Multilingual Plane already pass the length check, since `length` counts UTF-16 code units |
| Signup.FiveBmpCharactersAreTooShort | src/app/signup/page.tsx:35-38 | five Basic Multilingual Plane characters are refused with the password message |
| Signup.Page.HandleSubmit | src/app/signup/page.tsx:19-82 | the page's messages, loading and pending route become those of `Submit`; `signUp` is called iff no check fails |
| Dashboard.CheckIn | src/app/dashboard/page.tsx:105-139 | No-op without a user (null or empty id) or once done. Unconfigured: only the alert, no insert. Past the guards loading ends false, done becomes true iff the insert succeeded, and the error alert is added iff the insert failed or raised. Done never reverts; the at-most-one-insert invariant is kept |
| Dashboard.CheckToday | src/app/dashboard/page.tsx:75-103 | done becomes true only when configured and a row is found without error; nothing else changes; the invariant is kept |
| Dashboard.Run | src/app/dashboard/page.tsx:98-139 | over any sequence of page events the invariant holds, done never reverts and the insert count never drops |
| Dashboard.AtMostOneInsertPerSession | src/app/dashboard/page.tsx:106-132 | from the initial state, any page session inserts at most one check-in |
| Dashboard.DoneStaysDone | src/app/dashboard/page.tsx:106 | once done, no later event inserts anything |
| Dashboard.Page.UserLoaded | src/app/dashboard/page.tsx:52 | only the user id changes; the invariant is kept |
| Dashboard.Page.CheckTodayCheckIn | src/app/dashboard/page.tsx:75-103 | the state becomes `CheckToday` of the old state; the invariant is kept |
| Dashboard.Page.HandleCheckIn | src/app/dashboard/page.tsx:105-139 | the state becomes `CheckIn` of the old state; reports whether the insert was issued |
| Login.ConfiguredIffBothPresent | src/app/login/page.tsx:15-20 | configured iff both environment values are present and non-empty |
| Login.ValidClientImpliesConfigured | src/app/login/page.tsx:15-20 | whenever the validated shared client exists, the login page's own check also passes |
| Login.SignInErrorMessage | src/app/login/page.tsx:39-46 | "Email not confirmed" maps to the confirm-e-mail message; otherwise "Invalid login credentials" maps to the credentials message; any other text is shown verbatim |
| Login.UnconfirmedWins | src/app/login/page.tsx:40-41 | text containing "Email not confirmed" gets the confirm-e-mail message, even if it also mentions invalid credentials |
| Login.InvalidCredentialsMapped | src/app/login/page.tsx:42-43 | text containing the credentials phrase but not the confirmation phrase gets the credentials message |
| Login.Submit | src/app/login/page.tsx:22-58 | Unconfigured: only the configuration error, no attempt. Error or exception: mapped message, loading false, no navigation. Success: error cleared, loading kept, /dashboard when a user came back |
| Login.Page.HandleSubmit | src/app/login/page.tsx:22-58 | error, loading and route become those of `Submit`; sign-in is attempted iff configured |
| ForgotPassword.Submit | src/app/forgot-password/page.tsx:13-50 | The empty-address check precedes the client check. Neither failure makes the call. Once the call is made, success is shown with loading false whatever it returned. Success iff the call was made |
| ForgotPassword.ResponseIsNeutral | src/app/forgot-password/page.tsx:37-49 | two different outcomes of the reset call cannot be told apart on the page |
| ForgotPassword.Page.HandleSubmit | src/app/forgot-password/page.tsx:13-50 | error, success and loading become those of `Submit`; the reset call is made iff an address was typed and the client exists |
| SecurityContact.BuildRow | src/app/security-contact/page.tsx:69-75 | the row carries user id, nome, telefone and save time, and the e-mail or null exactly when it is empty |
| SecurityContact.Save | src/app/security-contact/page.tsx:48-87 | The configuration guard is first, then nome and telefone are required. The upsert is issued iff both pass and a user is signed in, and it sends `BuildRow`. Loading ends false past the guards. No user: go to /login without an alert. A `getUser` exception or an upsert failure: the failure alert, and the page stays. Success alerts and goes to /configuracoes |
| SecurityContact.EmailIsOptional | src/app/security-contact/page.tsx:54-75 | an empty e-mail never blocks a save and is written as null |
| SecurityContact.Page.HandleSave | src/app/security-contact/page.tsx:48-87 | loading, route and alerts become those of `Save`, and the row handed to the upsert is `Save`'s |

## Left out

- The 48-hour "no check-in, warn the contact" behaviour. No code implements it; it appears only as text on the pages.
- Backend semantics: everything Supabase does with a call is an abstract outcome. This covers:
  - `maybeSingle`/`single` with several rows;
  - the conflict target of the security-contact `upsert` (none is given);
  - an insert that meets an existing row after a failed look-up;
  - the auth calls `signUp`, `signInWithPassword`, `resetPasswordForEmail` and `getUser`.
- src/lib/supabase.ts (client construction and a local mock) is not part of this model. Its `isSupabaseConfigured` enters the page models as the boolean `configured` / `clientReady`.
- The start-up loaders are not modelled: `checkAuth` and `loadContatoSeguranca` in the contact-editing pages, and the fetch in `loadHistory`. The dashboard's `checkAuth` enters only as the `UserLoaded` event; its error handling and the initial `loading` reset are not modelled.
- Dates and time zones: days are integers and a check-in's day is the UTC day of its millisecond timestamp. Not modelled:
  - locale formatting (`toLocaleDateString`, `formatCurrentDate`);
  - the history loop mixing local `setDate` with UTC `toISOString`;
  - the dashboard's local-versus-UTC query window. `CheckToday` takes the query's answer as given.
- Timers: the 3-second reset of the trusted-contact page's success message (src/app/contato-seguranca/page.tsx:155) is not modelled. The signup redirect delayed by 1.5 seconds is recorded only as `pendingRoute`.
- React rendering, the order of asynchronous state updates, `alert` display and router behaviour. Alerts are recorded as a list of texts and navigation as a target route.
- The inline `onChange` setters that copy a typed value into a single state variable are not modelled: the name/e-mail fields of the trusted-contact page, every signup field, the login and forgot-password fields, and the security-contact fields. Each only overwrites that variable.
- The `URL` constructor is the caller-supplied predicate `urlParses`.
- src/app/configuracoes/page.tsx (logout and a "coming soon" alert) and the static pages (terms, privacy, home, landing) are not part of this model.
