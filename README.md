# HealthCare NFC portal — a Dafny model of its core logic

The portal is a React single-page application. Patients register and get an
NFC card that holds the address of their profile. Doctors and nurses sign in
to a staff dashboard, search the patient list, and scan a card to find a
patient. This project models the parts of the application that make
decisions:

- the access gate in front of the two dashboards (`AccessGate`, with the two
  role policies of the routing table);
- the session provider: the auth-state callback, email and Google sign-in with
  their role check, patient registration and sign-out (`AuthContext`). Its
  `user`, `userData` and `loading` state, the identity provider's current user
  and the `users` and `patients` document collections are fields of one class;
- the NFC reader and writer components (`NfcReader`, `NfcWriter`), over the
  NDEF records they exchange (`Ndef`);
- the registration wizard (`RegisterPatient`), the staff login page
  (`StaffLogin`) and the form rules they share (`Validation`);
- the staff dashboard's patient filter and card hand-off (`StaffDashboard`);
- two end-to-end runs through these pieces (`EndToEnd`).

Every call into a service outside the application becomes an input: the
identity provider, the document store, and the NFC platform's scan and write.
Each such input is an `Attempt` — a value, or the thrown value it was rejected
with. Asynchronous handlers are split at their `await`. The part before the
await returns the request it issues; the continuation takes the outcome. So
the flags that are set while a call is pending (`writing`, `isRegistering`,
`isLoading`) are visible states of the model.

The text encoding used for NFC records is a pair of functions given to the
model (`TextCodec`); the round-trip results assume it gives the text back.

Two results cut across several files:

- `EndToEnd.CardYieldsRegisteredId` and `EndToEnd.RegisterWriteAndScan`: the
  profile address stored at registration is written to the card as one `url`
  record. It is read back verbatim, and the staff dashboard extracts the
  registered uid from it. This assumes an origin without `?` or `#` and a uid
  without spaces, `&`, `#`, `%` or `+`.
- `EndToEnd.StaffEmailSignIn`: the staff login page never passes its selected
  tab (doctor or nurse) to the sign-in call, so the expected role is missing.
  Under the role check this means an email sign-in reaches the staff dashboard
  only for an account whose profile has no role. A doctor or nurse account is
  signed out again and shown the fixed error message. This is how the code
  behaves as written.

## Model

| member | source | states |
|---|---|---|
| Common.MessageOr | src/components/nfc/NFCWriter.tsx:46-50 | a thrown `Error` yields its own message, any other thrown value the fixed fallback |
| AuthContext.RoleAccepted | src/context/AuthContext.tsx:89 | the role check: exact match for an expected patient role and for a missing expected role; for an expected doctor or nurse, acceptance exactly when the stored role is doctor or nurse |
| AuthContext.RoleAcceptedIsEquivalence | src/context/AuthContext.tsx:118 | the role check is reflexive, symmetric and transitive (doctor and nurse form one class) |
| AuthContext.ProfileUrl | src/context/AuthContext.tsx:150 | the card address of a patient: the origin, the patient login path, and the uid as the `id` parameter; that the dashboard reads the uid back out of it is `EndToEnd.ProfileUrlYieldsId` |
| AuthContext.AuthProvider.constructor | src/context/AuthContext.tsx:44-46 | the provider mounts over any store, with no user, no user data and `loading` true, and has registered nobody yet |
| AuthContext.AuthProvider.OnAuthStateChanged | src/context/AuthContext.tsx:49-73 | `user` becomes the notified user; no user clears `userData`; a stored profile sets `userData` with the stored role; a missing profile or a failed read leaves `userData` unchanged; `loading` ends false |
| AuthContext.AuthProvider.LoginWithEmail | src/context/AuthContext.tsx:78-97 | every failure path with its error (sign-in, read, "No user profile found" without sign-out, "Unauthorized login attempt." after sign-out, a failed sign-out rethrown); success only for a signed-in user whose stored role passes the role check |
| AuthContext.AuthProvider.LoginWithGoogle | src/context/AuthContext.tsx:99-127 | a missing profile is created with the expected role and the sign-in succeeds; an existing profile goes through the role check, and on a mismatch the user is signed out before "Unauthorized Google login attempt." |
| AuthContext.AuthProvider.RegisterPatient | src/context/AuthContext.tsx:129-158 | stores a `users` document with role patient and a `patients` document whose card address is `origin + "/login/patient?id=" + uid`, returns that uid; the first failing call ends the operation with its error and leaves the later documents unwritten; every patient the provider has registered keeps both documents, whatever the other operations do |
| AuthContext.AuthProvider.Logout | src/context/AuthContext.tsx:160-169 | a successful sign-out clears `user` and `userData`; a failed one is rethrown and changes nothing |
| AccessGate.Listed | src/components/auth/ProtectedRoute.tsx:31 | `allowedRoles.includes(userData.role)`: the role is present and in the policy; a missing role is never listed |
| AccessGate.FallbackFor | src/components/auth/ProtectedRoute.tsx:33-39 | a refused patient goes to the patient dashboard, a refused doctor or nurse to the staff dashboard, any other role to "/" |
| AccessGate.Decide | src/components/auth/ProtectedRoute.tsx:16-42 | Pending exactly while loading; no user always goes to "/login/patient"; Allow exactly when signed in and the policy or the user data is absent or the role is listed; any other redirect is the role fallback |
| AccessGate.NoSelfRedirect | src/components/auth/ProtectedRoute.tsx:31-40 | with the policies of src/App.tsx lines 26 and 34, the staff dashboard never redirects to itself and the patient dashboard never to itself; a patient at the staff dashboard goes to the patient dashboard and vice versa |
| Validation.JsLength | src/pages/RegisterPatientPage.tsx:39 | a JavaScript length counts UTF-16 units: between one and two per character |
| Validation.JsLengthOfBmp | src/pages/StaffLoginPage.tsx:23 | on text inside the Basic Multilingual Plane, JavaScript length is the character count |
| Validation.IsEmailValid | src/pages/RegisterPatientPage.tsx:40 | the email test decided at a split point: an `@` with a non-empty whitespace- and `@`-free part on each side and a dot strictly inside the domain; its equivalence with the pattern is the next row |
| Validation.EmailValidIffPattern | src/pages/RegisterPatientPage.tsx:40 | the email test accepts exactly the strings of the form run "@" run "." run, each run non-empty and free of whitespace and `@` |
| Validation.EmailRejectsSpaceAndSecondAt | src/pages/StaffLoginPage.tsx:22 | an address with whitespace anywhere, or with two `@`, is refused |
| Validation.ExampleEmailIsValid | src/pages/StaffLoginPage.tsx:22 | a plain address such as "a@b.com" is accepted |
| Ndef.DecodedPayloads | src/components/nfc/NFCReader.tsx:46-53 | the strings the reading loop hands on for a list of records: the decoded data of each `url` or `text` record, in record order; the three lemma rows below state its properties |
| Ndef.DecodedPayloadsOfOne | src/components/nfc/NFCReader.tsx:47-51 | a `url` or `text` record yields its decoded data, any other record nothing |
| Ndef.DecodedPayloadsAppend | src/components/nfc/NFCReader.tsx:46-53 | delivery follows record order: the strings of two record lists are the strings of the first followed by those of the second |
| Ndef.DecodedPayloadsCount | src/components/nfc/NFCReader.tsx:46-53 | exactly one string per `url` or `text` record, so never more strings than records |
| Ndef.UrlMessage | src/components/nfc/NFCWriter.tsx:39-41 | the written message is exactly one record, of type "url", holding the address verbatim |
| Ndef.UrlMessageRoundTrip | src/components/nfc/NFCWriter.tsx:39-41 | a tag written with the address delivers exactly that address, once, to the reader |
| NfcReader.Reader.constructor | src/components/nfc/NFCReader.tsx:16-18 | support unknown, `scanning` equal to `autoStart`, no error |
| NfcReader.Reader.ProbeSupport | src/components/nfc/NFCReader.tsx:20-28 | `supported` records the probe; without NFC the error is the fixed "not supported" message |
| NfcReader.Reader.ScanEffect | src/components/nfc/NFCReader.tsx:30-65 | a scan is attempted exactly when support is known true and `scanning` is on; a started scan clears the error and listens; a failed one sets the thrown message or "Failed to read NFC tag." and stops scanning; without an attempt nothing changes |
| NfcReader.Reader.Cleanup | src/components/nfc/NFCReader.tsx:67-69 | an existing controller is aborted, and no further readings are delivered |
| NfcReader.Reader.StartScanning | src/components/nfc/NFCReader.tsx:72-75 | the error is cleared and scanning is on |
| NfcReader.Reader.StopScanning | src/components/nfc/NFCReader.tsx:77-79 | scanning is off whatever it was, so stopping twice is stopping once |
| NfcReader.Reader.OnReading | src/components/nfc/NFCReader.tsx:45-54 | the listener hands `onRead` exactly the decoded `url` and `text` records, in record order, and nothing without an `onRead` |
| NfcWriter.Writer.constructor | src/components/nfc/NFCWriter.tsx:19-22 | `supported` is fixed from the probe; not writing, no error, no success |
| NfcWriter.Writer.WriteToTag | src/components/nfc/NFCWriter.tsx:24-41 | only callable while not writing, the one state in which the button is rendered (line 108); unsupported: the fixed error, one `onError` call if given, no write, `writing` and `success` untouched; supported: `writing` set, error and success cleared, and the one-record url message issued |
| NfcWriter.Writer.Settle | src/components/nfc/NFCWriter.tsx:42-56 | success sets `success` and calls only `onSuccess`; failure sets the thrown message or "Failed to write to NFC tag." and calls only `onError` with it; `writing` always ends false |
| RegisterPatient.IsPersonalInfoValid | src/pages/RegisterPatientPage.tsx:39 | holds exactly when first name, last name and date of birth are all non-empty |
| RegisterPatient.IsContactValid | src/pages/RegisterPatientPage.tsx:40 | holds exactly when the email matches the pattern and the phone is longer than nine units |
| RegisterPatient.IsPasswordValid | src/pages/RegisterPatientPage.tsx:41 | never holds unless password and confirmation are equal (and of at least three characters); always holds for equal fields of at least six characters |
| RegisterPatient.IsStepValid | src/pages/RegisterPatientPage.tsx:43-51 | steps 0, 1 and 2 use the three validators, step 3 always passes, any other step never |
| RegisterPatient.Wizard.constructor | src/pages/RegisterPatientPage.tsx:22-36 | an empty form on step 0, nothing registered |
| RegisterPatient.Wizard.HandleNext | src/pages/RegisterPatientPage.tsx:53-57 | one step forward below the last step, none on it; the step stays within 0..3 |
| RegisterPatient.Wizard.HandleBack | src/pages/RegisterPatientPage.tsx:59-63 | one step back above step 0, none on it; the step stays within 0..3 |
| RegisterPatient.Wizard.BeginSubmit | src/pages/RegisterPatientPage.tsx:65-76 | an invalid password changes nothing; otherwise registering starts, the error is cleared, and the request carries email, password and "first last" |
| RegisterPatient.Wizard.FinishSubmit | src/pages/RegisterPatientPage.tsx:76-94 | success records the patient id and either completes (submitted on the last step) or advances exactly one step from the submitted step; failure sets the thrown message or the fixed fallback; registering always ends |
| StaffLogin.IsFormValid | src/pages/StaffLoginPage.tsx:22-24 | holds exactly when the email matches the shared pattern and the password has at least six units |
| StaffLogin.LoginPage.constructor | src/pages/StaffLoginPage.tsx:15-19 | the doctor tab, empty fields, no error, not loading |
| StaffLogin.LoginPage.BeginEmailLogin | src/pages/StaffLoginPage.tsx:26-34 | an invalid form makes no call and changes nothing; a valid one starts loading, clears the error, and signs in with no expected role |
| StaffLogin.LoginPage.FinishEmailLogin | src/pages/StaffLoginPage.tsx:34-40 | success navigates to the staff dashboard; any failure shows the one fixed message; loading ends |
| StaffLogin.LoginPage.BeginGoogleLogin | src/pages/StaffLoginPage.tsx:43-48 | loading starts, the error is cleared, and the Google sign-in is made with no expected role |
| StaffLogin.LoginPage.FinishGoogleLogin | src/pages/StaffLoginPage.tsx:48-54 | success navigates to the staff dashboard; any failure shows the fixed Google message; loading ends |
| StaffDashboard.Lower | src/pages/StaffDashboard.tsx:87-88 | `toLowerCase` on ASCII: the same length, each character lowered |
| StaffDashboard.MatchesSearch | src/pages/StaffDashboard.tsx:87-88 | the filter condition: the lowered term occurs in the lowered name or in the lowered email |
| StaffDashboard.FilterPatients | src/pages/StaffDashboard.tsx:86-89 | no more rows than patients, each a listed patient that the term matches |
| StaffDashboard.FilterMultiplicity | src/pages/StaffDashboard.tsx:86-89 | every occurrence of a matching patient is kept and no occurrence of any other |
| StaffDashboard.FilterIsSubsequence | src/pages/StaffDashboard.tsx:86 | the kept patients stay in their original order |
| StaffDashboard.EmptySearchKeepsAll | src/pages/StaffDashboard.tsx:86-89 | an empty search term shows every patient |
| StaffDashboard.ParsesAsUrl | src/pages/StaffDashboard.tsx:63 | `new URL(data)` succeeds: a letter, then scheme characters, then a colon |
| StaffDashboard.QueryOf | src/pages/StaffDashboard.tsx:64 | the query of a URL: what follows the first `?`, cut at the first `#` |
| StaffDashboard.SearchParam | src/pages/StaffDashboard.tsx:64 | `searchParams.get(name)`: the value of the first `&`-separated parameter with that name, split at its first `=` |
| StaffDashboard.ExtractPatientId | src/pages/StaffDashboard.tsx:61-65 | an id is found only in a payload that parses as a URL, and it is never empty |
| StaffDashboard.Dashboard.constructor | src/pages/StaffDashboard.tsx:27-30 | no patients, an empty search term, the reader panel closed |
| StaffDashboard.Dashboard.SetSearchTerm | src/pages/StaffDashboard.tsx:200 | the search input sets the term, and nothing else |
| StaffDashboard.Dashboard.HandleNfcRead | src/pages/StaffDashboard.tsx:61-75 | the reader panel closes exactly when the payload yields an id; any other payload changes nothing |
| StaffDashboard.Dashboard.ToggleNfcReader | src/pages/StaffDashboard.tsx:208 | the scan button flips the reader panel |
| EndToEnd.ProfileUrlYieldsId | src/pages/StaffDashboard.tsx:63-64 | the dashboard extracts exactly the uid from a profile address |
| EndToEnd.CardYieldsRegisteredId | src/context/AuthContext.tsx:150 | a card written with a profile address delivers that address, and from it the uid |
| EndToEnd.RegisterWriteAndScan | src/pages/RegisterPatientPage.tsx:370-374 | after a registration and a successful card write, the dashboard scan yields the registered uid; without either, no id is found |
| EndToEnd.StaffEmailSignIn | src/pages/StaffLoginPage.tsx:34 | an email sign-in reaches the staff dashboard only for an account with no stored role; a doctor or nurse account is signed out and shown the fixed message; an invalid form signs nobody in |

## Left out

- AuthContext.AuthProvider.Valid: the invariant covers only the documents of patients the provider registered itself; documents already in the store when it mounts (for example ones written under another origin) are taken as they are and promised nothing.
- Firebase is not modelled: sign-in, popup, account creation, profile update, document reads and writes. Each call's outcome is an input, and the document store is two maps.
- Server timestamps, the empty `history` list of a patient document, and the console logging are not modelled.
- The patients fetch of the staff dashboard is not modelled. The list arrives through `SetPatients`. The placeholder visit date and status of a row are not modelled either.
- The Web NFC objects are inputs: `NDEFReader`, `AbortController` and `TextDecoder`. This covers capability, scan and write outcomes, and incoming messages. UTF-8 encoding and decoding are abstract functions; round trips assume the decoder gives the text back.
- The `reading` listener is not given a registry. Registering a second listener on a second scan is not modelled; `listening` only says whether deliveries happen.
- Callbacks (`onRead`, `onSuccess`, `onError`) are assumed to return normally. The model records the calls made, not what the callbacks do.
- React scheduling is not modelled. Each handler or effect run is one step, or two around an `await`, and state updates are applied at once. Auth-state notifications and their profile reads are not interleaved; the source has no guard against a stale read.
- `new URL` and `searchParams` are simplified. A URL needs a letter-first scheme and a colon. The query is what follows the first `?` before any `#`. Parameters are split on `&` and at the first `=`. No percent-decoding, no `+` as space, no host validation.
- StaffDashboard.ExtractPatientId: its contract states only that a found id is non-empty and comes from a URL. That it is exactly the uid of a profile address is proved separately, in `EndToEnd.ProfileUrlYieldsId`, for uids without characters that have meaning in a URL.
- `toLowerCase` folds only ASCII letters. Unicode case mapping is not modelled.
- RegisterPatient.IsPasswordValid: its contract does not decide a password of three to five characters, some of them outside the Basic Multilingual Plane; the exact rule, at least six UTF-16 units and equal fields, is its definition.
- The wizard's `isStepValid` reads the current step; `IsStepValid` takes the step as a parameter.
- The input change handlers of the two forms are modelled as plain field updates (`Edit`).
- Rendering is not modelled: JSX, animation, styling, the loading and "not supported" screens, navigation links. The patient dashboard, the landing pages, `src/lib/utils.ts` and the routing table are not part of this model. Only the routing table's two role policies are used, as constants.
