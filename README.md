# Eventium authentication and organizer tools, modelled in Dafny

Eventium is an event platform: a Node/TypeScript server and a React client. This project
models its account life cycle and the list logic of its organizer pages, and proves properties
of the model.

**Server: the registration state machine** (`AuthService`). It runs over two stores:

- a Redis-like key-value store with TTLs, holding `otp:{email}` and `user_session:{email}`;
- a user directory keyed by unique email.

`register` mails a six-digit code and parks the registration in the key-value store.
`verifyOtp` checks the code, re-validates the parked registration, creates the account and
issues an access token and a refresh token. `resendOtp` replaces the code. `login` checks a
password hash. `refreshAccessToken` trades a refresh token for a new access token.

**Server: the DTOs** (`RequestDto`, `ResponseDto`, with the record shapes in `UserModel`).
Registration requests have a required-field guard and a forced role. Response projections have
`||` defaults and never carry the password hash.

**Client: the signup path.**

- `FormValidation`: the field validators. Each regular expression is implemented by a scan and
  proved equal to a reference definition of its language.
- `ClientAuthTypes`: the client's request DTOs, which nest the flat form into `contactInfo`.
- `SignupForm`: which checks run for which account type, how edits clear errors, and which DTO a
  valid submit sends.

**Client: session helpers and guards.**

- `AuthUtils`: `authUtils` over `localStorage`. The user is stored as JSON text, and a JSON round
  trip is proved.
- `AuthGuard`: the redirect decision of `useAuthGuard`.
- `ProtectedRoute`: the role check of `ProtectedRoute`.
- `OtpVerification`: the OTP page. It covers code validation, the resend countdown kept through
  `localStorage`, and the `m:ss` display.

**Client: the organizer pages.**

- `CreateEvent`: the ticket list of the event-creation page, which never becomes empty.
- `TicketingInterface`: tickets, discount codes and perks.
- `EventManagement`: the event search with its status filter.
- `AttendeeManagement`: per-event registrations, the attendee search and the check-in count.

**Imperative parts and helper modules.** Code that changes state step by step is modelled as
classes with `modifies` contracts:

- the service over its two stores;
- `localStorage`;
- the signup, OTP, create-event and ticketing pages, with their React state as fields.

The pure parts are functions with lemmas. `Wrappers`, `Strings` and `Seqs` hold the helpers:

- `Option`/`Result`;
- JavaScript string operations (`trim`, `toLowerCase`, `includes`, `parseInt`, `toString`,
  `padStart`);
- an order-preserving `filter` with its lemmas.

**Collaborators become parameters.**

- bcrypt is an uninterpreted `hash` function; `compare(p, h)` is `hash(p) == h`.
- A JWT is a record of its claims, its signing secret and its lifetime. Verifying one checks the
  secret and an `expired` flag.
- `uuidv4()`, the database's `_id`, `Date.now()` and `Math.random()` are parameters.
- Whether `create` returns a document is the parameter `dbAccepts`.
- `sendOtpEmail` is an optional error, `sendError`. Successful sends are appended to an `outbox`.

## Model

| member | source | states |
|---|---|---|
| RequestDto.NewUserRegistration | server/src/dto/request/UserRegistrationRequest.ts:7-15 | fails with "Missing required fields" exactly when email, password or name is falsy; otherwise copies the three unchanged and forces role "user" |
| RequestDto.UserRegistrationReadsOnlyCredentials | server/src/dto/request/UserRegistrationRequest.ts:1-15 | two inputs that agree on email, password and name give the same DTO: an input role or organizer fields are neither kept nor checked |
| RequestDto.NewOrganizerRegistration | server/src/dto/request/OrganizerRegistrationRequest.ts:16-26 | the same guard, with no requirement on organizationName; role forced to "organizer"; organizationName and contactInfo passed through as given, absent included |
| RequestDto.SameGuard | server/src/dto/request/OrganizerRegistrationRequest.ts:17-19 | the user and the organizer constructor accept exactly the same inputs |
| ResponseDto.NewUserResponse | server/src/dto/response/UserRegisterResponse.ts:12-21 | copies _id, name, email and role; attendedEvents falls back to [] and both dates to the supplied "now" only when absent |
| ResponseDto.NewOrganizerResponse | server/src/dto/response/UserRegisterResponse.ts:44-52 | all base fields exactly as UserResponseDto computes them; organizationName and contactInfo copied; organizedEvents [], bio "", socialMediaLinks {} and isVerified false when absent |
| ResponseDto.ViewOf | server/src/services/auth.service.ts:113-119 | the organizer projection exactly when the stored role is "organizer"; either way its base part is the UserResponseDto of the user |
| ResponseDto.ViewHidesPassword | server/src/dto/response/UserRegisterResponse.ts:3-42 | changing the stored password hash does not change the projection, so the projection cannot expose it |
| AuthService.OtpFromRandom | server/src/services/auth.service.ts:27 | for any Math.random() value in [0,1) the code is six decimal digits denoting a number in [100000, 999999] |
| AuthService.OtpsDiffer | server/src/services/auth.service.ts:128 | draws that floor to different numbers give different codes, so a resend can replace the code |
| AuthService.SessionOf | server/src/services/auth.service.ts:39-48 | the session holds the DTO's name, email and role and the hash, never the plain password; organizer fields are present exactly for an organizer DTO and equal the DTO's |
| AuthService.IntendedSessionFields | server/src/services/auth.service.ts:70-93 | with the stored hash in the password slot, the DTO guard passes exactly when email, hash and name are non-empty |
| AuthService.SessionNeverRevalidates | server/src/services/auth.service.ts:70-93 | every stored session, re-validated through either request DTO as the code does, fails with "Missing required fields" |
| AuthService.EnvOr | server/src/services/auth.service.ts:105-107 | an environment setting with a fallback: the variable's value when it is truthy, the fallback otherwise |
| AuthService.RefreshPayload | server/src/services/auth.service.ts:179 | the refreshed payload has "userId" and the role key exactly when each was decoded, with the decoded values, and no other claim; as written the role key is "userRole", so the payload has no "role" claim |
| AuthService.RefreshDropsRoleClaim | server/src/services/auth.service.ts:146-179 | for every user, the payload a refresh builds from login's claims differs from them: "role" is gone |
| AuthService.RefreshIntendedKeepsClaims | server/src/services/auth.service.ts:179 | with the intended payload, refreshing login's claims gives back exactly login's claims |
| AuthService.VerifyToken | server/src/services/auth.service.ts:162-165 | succeeds exactly with a truthy secret equal to the signing secret on an unexpired token, and then yields the token's claims |
| AuthService.CreatedUser | server/src/services/auth.service.ts:99 | the created document holds exactly the create data's email, password, name, role, userId, organizer fields and isVerified |
| AuthService.AuthService.constructor | server/src/services/auth.service.ts:18 | empty stores and outbox, satisfying the store invariant |
| AuthService.AuthService.CompareAcceptsOwnHash | server/src/services/auth.service.ts:141 | compare accepts a password against its own hash |
| AuthService.AuthService.Register | server/src/services/auth.service.ts:20-51 | "Email already exists" for a registered email and a failed send both change no store and mail nothing. Otherwise one mail carries the code, `otp:{email}` is (over)written with TTL 150 and `user_session:{email}` with TTL 600. The directory is never written, and the store invariant is kept |
| AuthService.AuthService.VerifyOtp | server/src/services/auth.service.ts:53-96 | as written: "OTP expired or invalid" without an OTP, "Invalid OTP" on a mismatch, "User data not found" without a session, "Invalid role" for another role, and "Missing required fields" for every user or organizer session. Every call fails and changes nothing |
| AuthService.AuthService.VerifyOtpIntended | server/src/services/auth.service.ts:53-121 | with the intended re-validation: the same error cases, each leaving both stores unchanged; on success exactly the two keys are deleted and exactly one verified user is added with the fresh userId, the session's hash, role and name, and, for an organizer, the session's organization name and contact details; the response carries login's tokens and the projection |
| AuthService.AuthService.Provision | server/src/services/auth.service.ts:98-121 | "Cannot create user" leaves both stores unchanged; otherwise the created user is added under its email, both keys are deleted, and the tokens carry {userId, role} with the right secrets and lifetimes |
| AuthService.AuthService.ResendOtp | server/src/services/auth.service.ts:124-133 | "user session expired" without a session; a failed send changes nothing; otherwise one mail and only `otp:{email}` rewritten with a new six-digit code and TTL 120; the session and the directory are unchanged |
| AuthService.AuthService.Expire | server/src/services/auth.service.ts:36-50 | a key whose TTL runs out disappears and nothing else changes; the store invariant survives |
| AuthService.AuthService.FindByUserId | server/src/services/auth.service.ts:173 | finds a directory user with the given userId exactly when one exists; a missing userId finds nobody |
| AuthService.AuthService.Login | server/src/services/auth.service.ts:135-159 | "User not found", "Invalid password", or tokens with {userId, role} of the stored user, lifetimes "60m"/"7d" and the right secrets; a pending (unverified) registration cannot log in; no store is written |
| AuthService.AuthService.UnsetSecretRejectsOwnTokens | server/src/services/auth.service.ts:162 | with REFRESH_TOKEN_SECRET unset or empty, no refresh token the service issued verifies |
| AuthService.AuthService.IssuedRefreshTokenVerifies | server/src/services/auth.service.ts:107 | verifying an issued unexpired refresh token with its signing secret yields the login claims |
| AuthService.AuthService.RefreshAccessToken | server/src/services/auth.service.ts:161-190 | as written: a verification failure is returned unchanged; success exactly when a user with the decoded userId exists; the new access token carries {userId, userRole} and no "role"; no store is written |
| AuthService.AuthService.RefreshAccessTokenIntended | server/src/services/auth.service.ts:161-190 | the same with the signing secret (fallback included) and the payload {userId, role} |
| AuthService.VerifyAlice | server/src/services/auth.service.ts:53-121 | verifying a pending plain-user registration with its mailed code creates that one account under the fresh subject id with the stored password hash, and consumes the OTP |
| AuthService.RegisterVerifyLogin | server/src/services/auth.service.ts:20-159 | register, verify with the mailed code, and log in all succeed; the same code is then refused as expired, and registering the address again fails with "Email already exists" |
| AuthService.RegisteredUserCannotVerify | server/src/services/auth.service.ts:70-96 | as written, a registration that went through fails verification with the correct code |
| AuthService.ResendReplacesCode | server/src/services/auth.service.ts:124-133 | after a resend the first code is "Invalid OTP" and the new one verifies |
| AuthService.FailedSendStoresNothing | server/src/services/auth.service.ts:33-50 | after a failed send, verification finds no OTP |
| AuthService.RegisterAndLogin | server/src/services/auth.service.ts:135-159 | a verified account logs in with the login claims and the refresh token of the stored user |
| AuthService.RefreshWithoutSecret | server/src/services/auth.service.ts:162 | as written, with the secret unset, refreshing login's token fails; the intended refresh returns login's claims |
| AuthService.RefreshWithSecret | server/src/services/auth.service.ts:179 | as written, with the secret set, the refreshed access token has lost "role"; the intended one keeps login's claims |
| FormValidation.EmailShapeIff | client/src/utils/form-validation.ts:2-4 | the scan accepts a string exactly when it is in the language of `^[^\s@]+@[^\s@]+\.[^\s@]+$` |
| FormValidation.ValidateEmail | client/src/utils/form-validation.ts:1-6 | "Email is required" for the empty string; otherwise null exactly for the regular expression's language, and the format message otherwise |
| FormValidation.ValidEmailHasOneAt | client/src/utils/form-validation.ts:2 | an accepted address is non-empty and contains exactly one "@" |
| FormValidation.ValidatePassword | client/src/utils/form-validation.ts:8-15 | null exactly for a length of at least 8 UTF-16 code units with a lowercase letter, an uppercase letter and a digit; otherwise the first failing message in the order empty, short, lowercase, uppercase, digit |
| FormValidation.AstralCharactersCountTwice | client/src/utils/form-validation.ts:10 | four characters above U+FFFF and three ASCII characters make a valid password of length 11; two of them and three ASCII characters are too short |
| FormValidation.ValidateRequired | client/src/utils/form-validation.ts:17-20 | null exactly when the value has a non-whitespace character, otherwise "{fieldName} is required" |
| FormValidation.PhoneShapeIff | client/src/utils/form-validation.ts:24 | the scan accepts a string exactly when it is in the language of `^[+]?[\d\s\-\(\)]{10,}$` |
| FormValidation.ValidatePhone | client/src/utils/form-validation.ts:22-27 | null for the empty string; otherwise null exactly for the regular expression's language, and the format message otherwise |
| FormValidation.ValidatePincode | client/src/utils/form-validation.ts:29-34 | null for the empty string; otherwise null exactly for six decimal digits, and "Pincode must be 6 digits" otherwise |
| ClientAuthTypes.NewClientUserRegistration | client/src/types/auth.ts:8-13 | never fails; copies email, password and name and sets role "user" |
| ClientAuthTypes.NewClientOrganizerRegistration | client/src/types/auth.ts:31-45 | never fails; role "organizer"; copies the credentials and organizationName; phone goes to contactInfo.phone and state, city and pincode to contactInfo.address, which is always present |
| ClientAuthTypes.AsServerInput | client/src/types/auth.ts:2-45 | the body the server receives: every field the client DTO built, as it was, and no hashedPassword |
| ClientAuthTypes.OrganizerFieldsSurviveServerDto | server/src/dto/request/OrganizerRegistrationRequest.ts:24-25 | for non-empty credentials the server's organizer DTO accepts the client's body and keeps its organizationName and built contact block |
| SignupForm.SetField | client/src/components/auth/SignupForm.tsx:45 | the edited field holds the new value and every other field is unchanged |
| SignupForm.PhoneError | client/src/components/auth/SignupForm.tsx:74-80 | a blank phone gets "Phone is required"; otherwise no error exactly for a valid phone number, and the format message otherwise |
| SignupForm.PincodeError | client/src/components/auth/SignupForm.tsx:88-94 | a blank pincode gets "Pincode is required"; otherwise no error exactly for six digits, and the format message otherwise |
| SignupForm.ErrorsFromMeaning | client/src/components/auth/SignupForm.tsx:58-98 | the map filled field by field has an entry for a field exactly when the field is checked for the account type and its check fails, and the entry is that check's message |
| SignupForm.ErrorsFromIsErrorsOf | client/src/components/auth/SignupForm.tsx:58-98 | the map filled field by field equals the declarative error map: each checked, failing field with its message and nothing else |
| SignupForm.CredentialMeaning | client/src/components/auth/SignupForm.tsx:59-68 | the credential steps leave an entry exactly for a failing email, password or name, holding its message |
| SignupForm.OrganizerMeaning | client/src/components/auth/SignupForm.tsx:70-95 | the organizer steps keep every credential entry and add an entry exactly for each failing organizer field |
| SignupForm.UserFormChecksCredentialsOnly | client/src/components/auth/SignupForm.tsx:61-70 | for a plain user only email, password and name can be in error, and the organizer fields never affect the errors |
| SignupForm.OrganizerPhoneRule | client/src/components/auth/SignupForm.tsx:74-80 | an organizer's blank phone gets the "required" message, and a non-blank one is in error exactly when malformed, with the format message |
| SignupForm.OrganizerPincodeRule | client/src/components/auth/SignupForm.tsx:88-94 | the same for the pincode, where well-formed means six digits |
| SignupForm.SubmittedBody | client/src/components/auth/SignupForm.tsx:108-114 | an organizer DTO exactly for an organizer account and a user DTO otherwise, each built from the form |
| SignupForm.AcceptedFormPassesServerGuard | client/src/components/auth/SignupForm.tsx:104-114 | a form with no errors yields a body that passes the server DTO's required-field guard |
| SignupForm.CheckCredentials | client/src/components/auth/SignupForm.tsx:59-68 | the credential steps record the email, password and name verdicts |
| SignupForm.CheckOrganizer | client/src/components/auth/SignupForm.tsx:70-95 | the organizer steps record the organization, phone, state, city and pincode verdicts on top of the credentials |
| SignupForm.CheckRequiredThenFormat | client/src/components/auth/SignupForm.tsx:74-80 | the required check first and the format check only on a non-blank value, recording exactly the phone or pincode rule's verdict |
| SignupForm.SignupFormState.constructor | client/src/components/auth/SignupForm.tsx:29-40 | a user account, every field empty, no errors |
| SignupForm.SignupFormState.HandleInputChange | client/src/components/auth/SignupForm.tsx:44-51 | sets one field, drops that field's error only, keeps the account type |
| SignupForm.SignupFormState.HandleUserTypeChange | client/src/components/auth/SignupForm.tsx:53-56 | the account type follows the switch, all errors are cleared, the data is kept |
| SignupForm.SignupFormState.ValidateForm | client/src/components/auth/SignupForm.tsx:58-99 | the errors become exactly the error map of the current form, and the result is true exactly when it is empty |
| SignupForm.SignupFormState.HandleSubmit | client/src/components/auth/SignupForm.tsx:101-127 | a submission exactly when the form validates: the DTO for the account type and navigation to "/otp-verification" with the email and account type |
| AuthUtils.ParseStringify | client/src/utils/auth.ts:22-30 | parsing the JSON text of a user gives back that user |
| AuthUtils.StringifyNonEmpty | client/src/utils/auth.ts:24 | the stored text of a user is never "", so getUser's truthiness test passes |
| AuthUtils.Storage.GetUser | client/src/utils/auth.ts:22-25 | a user exactly when the "user" key is present, and then the parse of its text |
| AuthUtils.Storage.SetUser | client/src/utils/auth.ts:28-30 | only the "user" key is written, and getUser then returns the stored user |
| AuthUtils.Storage.VerifyUser | client/src/utils/auth.ts:33-39 | without a user nothing changes; otherwise the stored user keeps email and name and becomes verified |
| AuthUtils.Storage.Logout | client/src/utils/auth.ts:42-45 | exactly "user" and "otpTimestamp" are removed; afterwards neither authenticated nor redirected |
| AuthGuard.Redirect | client/src/hooks/useAuthGuard.ts:10-27 | a redirect only on an auth page, and only to "/" or "/login" |
| AuthGuard.OtherPagesStay | client/src/hooks/useAuthGuard.ts:12-26 | any path other than the three auth pages causes no navigation |
| AuthGuard.VerifiedUserGoesHome | client/src/hooks/useAuthGuard.ts:15-18 | a stored verified user goes to "/" from every auth page, the OTP page included |
| AuthGuard.OtpPageWithoutUser | client/src/hooks/useAuthGuard.ts:21-26 | the OTP page sends to "/login" exactly when no user is stored |
| AuthGuard.UnverifiedUserStays | client/src/hooks/useAuthGuard.ts:21-26 | a stored unverified user is not moved from any page |
| AuthGuard.AnonymousVisitorStays | client/src/hooks/useAuthGuard.ts:15-26 | a visitor with no stored user stays on "/login" and "/signup" |
| ProtectedRoute.Render | client/src/components/auth/ProtectedRoute.tsx:12-22 | renders the children exactly when authenticated with a user whose role equals the required one, and otherwise redirects to "/unauthorized" |
| ProtectedRoute.RolesExclusive | client/src/components/auth/ProtectedRoute.tsx:16-18 | routes guarded by two different roles never both open for the same state |
| ProtectedRoute.OnlyRoleMatters | client/src/components/auth/ProtectedRoute.tsx:16 | of the user record only the role decides |
| OtpVerification.OtpError | client/src/pages/auth/OtpVerification.tsx:58-68 | no error exactly for six digits; "complete 6-digit OTP" for a length other than 6 UTF-16 code units; "only numbers" for six code units that are not six digits |
| OtpVerification.AstralOtpIsNonNumeric | client/src/pages/auth/OtpVerification.tsx:59-66 | four digits and one character above U+FFFF pass the length test and fail the digits test; five digits and one such character fail the length test |
| OtpVerification.ServerCodesPass | client/src/pages/auth/OtpVerification.tsx:63 | every code the server generates passes the page's check |
| OtpVerification.Remaining | client/src/pages/auth/OtpVerification.tsx:29 | max(0, 60 − elapsed): never negative, zero or exactly 60 − elapsed |
| OtpVerification.RemainingBounds | client/src/pages/auth/OtpVerification.tsx:28-31 | for non-negative elapsed time the countdown lies in [0, 60], is 0 exactly when 60 seconds have passed, and never increases |
| OtpVerification.FormatTimeRoundTrip | client/src/pages/auth/OtpVerification.tsx:111-115 | the display has a colon followed by exactly two digits, and reads back as the number of seconds it was made from |
| OtpVerification.FormatTimeExamples | client/src/pages/auth/OtpVerification.tsx:111-115 | 60 seconds display as "1:00" and 125 as "2:05" |
| OtpVerification.OtpPage.constructor | client/src/pages/auth/OtpVerification.tsx:11-16 | empty code and error, 60 seconds left, no resend, no timer |
| OtpVerification.OtpPage.SavedTimestamp | client/src/pages/auth/OtpVerification.tsx:24-28 | a timestamp exactly when "otpTimestamp" is stored |
| OtpVerification.OtpPage.Mount | client/src/pages/auth/OtpVerification.tsx:23-36 | resumes from the stored timestamp (resend allowed exactly at zero), or stores the current time, and starts the interval |
| OtpVerification.OtpPage.Tick | client/src/pages/auth/OtpVerification.tsx:36-48 | recomputes the remaining time from the stored timestamp; at zero allows a resend and stops the interval |
| OtpVerification.OtpPage.HandleOtpChange | client/src/pages/auth/OtpVerification.tsx:53-56 | sets the code and clears the error, nothing else |
| OtpVerification.OtpPage.ValidateOtp | client/src/pages/auth/OtpVerification.tsx:58-68 | true exactly for six digits; otherwise shows the first failing message |
| OtpVerification.OtpPage.HandleVerify | client/src/pages/auth/OtpVerification.tsx:70-85 | navigates to "/login" exactly for a six-digit code, otherwise shows the message |
| OtpVerification.OtpPage.HandleResend | client/src/pages/auth/OtpVerification.tsx:87-109 | as written: nothing unless a resend is allowed; then a new timestamp, 60 seconds, no resend, cleared code and error, and the interval left as it was |
| OtpVerification.OtpPage.HandleResendIntended | client/src/pages/auth/OtpVerification.tsx:95-101 | the same reset with the countdown restarted |
| OtpVerification.ResendFreezesCountdown | client/src/pages/auth/OtpVerification.tsx:36-101 | as written, after the first window and a resend, the countdown stays at 60 with no interval left, so a resend is never allowed again |
| OtpVerification.ResendRestartsCountdown | client/src/pages/auth/OtpVerification.tsx:87-101 | with the restart, a resend is allowed again one window after the first resend |
| CreateEvent.Apply | client/src/pages/organizer/CreateEvent.tsx:92-96 | an edit never changes the ticket's id |
| CreateEvent.TicketsAfterAdd | client/src/pages/organizer/CreateEvent.tsx:80-90 | the old tickets in order plus one free general ticket with empty name and description |
| CreateEvent.TicketsAfterUpdate | client/src/pages/organizer/CreateEvent.tsx:92-96 | same ids and length; matching tickets get the edit, all others are unchanged |
| CreateEvent.TicketsAfterRemove | client/src/pages/organizer/CreateEvent.tsx:98-102 | a single ticket is kept; otherwise an order-preserving sublist without the id that keeps every other ticket, each as many times as it occurs |
| CreateEvent.FilterKeepsDistinct | client/src/pages/organizer/CreateEvent.tsx:100 | filtering a list with distinct ids keeps the ids distinct |
| CreateEvent.RemoveKeepsOne | client/src/pages/organizer/CreateEvent.tsx:98-102 | with distinct ids, removal never empties a non-empty list |
| CreateEvent.SharedIdEmptiesList | client/src/pages/organizer/CreateEvent.tsx:98-102 | without distinct ids removal can empty the list: two tickets sharing an id both go |
| CreateEvent.TicketEditor.constructor | client/src/pages/organizer/CreateEvent.tsx:42-51 | the single General Admission ticket, satisfying the invariant |
| CreateEvent.TicketEditor.AddTicketType | client/src/pages/organizer/CreateEvent.tsx:80-90 | the list after the add, keeping it non-empty with distinct ids |
| CreateEvent.TicketEditor.UpdateTicketType | client/src/pages/organizer/CreateEvent.tsx:92-96 | the list after the update, keeping the invariant |
| CreateEvent.TicketEditor.RemoveTicketType | client/src/pages/organizer/CreateEvent.tsx:98-102 | the list after the removal, still non-empty with distinct ids |
| TicketingInterface.TicketFrom | client/src/pages/organizer/TicketingInterface.tsx:127-133 | the draft's fields, id from the clock, nothing sold, "Active", and exactly the non-blank perks in order, each as many times as the draft has it |
| TicketingInterface.TicketsWithout | client/src/pages/organizer/TicketingInterface.tsx:153-155 | an order-preserving sublist without the id that keeps every other ticket, each as many times as it occurs |
| TicketingInterface.DiscountFrom | client/src/pages/organizer/TicketingInterface.tsx:142-146 | the draft's fields with no uses and status "Active" |
| TicketingInterface.DiscountsWithout | client/src/pages/organizer/TicketingInterface.tsx:157-159 | an order-preserving sublist without the code that keeps every other discount, each as many times as it occurs |
| TicketingInterface.Toggled | client/src/pages/organizer/TicketingInterface.tsx:164 | "Active" becomes "Paused"; any other status becomes "Active" |
| TicketingInterface.DiscountsToggled | client/src/pages/organizer/TicketingInterface.tsx:161-167 | same length; matching codes toggled, all other entries unchanged |
| TicketingInterface.ToggleTwice | client/src/pages/organizer/TicketingInterface.tsx:161-167 | toggling a code twice restores the list when its statuses were "Active" or "Paused" |
| TicketingInterface.WithoutIndex | client/src/pages/organizer/TicketingInterface.tsx:180 | drops exactly the given index when it is in range, otherwise nothing |
| TicketingInterface.RemoveAddedPerk | client/src/pages/organizer/TicketingInterface.tsx:169-181 | removing the slot just added restores the perks |
| TicketingInterface.TicketingPage.constructor | client/src/pages/organizer/TicketingInterface.tsx:53-123 | the given lists, blank drafts, closed dialogs |
| TicketingInterface.TicketingPage.HandleAddTicket | client/src/pages/organizer/TicketingInterface.tsx:125-138 | appends the drafted ticket, resets the draft and closes the dialog exactly when the name is non-empty and the price positive; otherwise nothing changes |
| TicketingInterface.TicketingPage.HandleAddDiscount | client/src/pages/organizer/TicketingInterface.tsx:140-151 | the same for a non-empty code and a positive discount |
| TicketingInterface.TicketingPage.HandleDeleteTicket | client/src/pages/organizer/TicketingInterface.tsx:153-155 | replaces the tickets by their list without the id; the discounts, both drafts and both dialog flags stay |
| TicketingInterface.TicketingPage.HandleDeleteDiscount | client/src/pages/organizer/TicketingInterface.tsx:157-159 | replaces the discounts by their list without the code; the tickets, both drafts and both dialog flags stay |
| TicketingInterface.TicketingPage.HandleToggleDiscountStatus | client/src/pages/organizer/TicketingInterface.tsx:161-167 | replaces the discounts by their toggled list; the tickets, both drafts and both dialog flags stay |
| TicketingInterface.TicketingPage.AddPerk | client/src/pages/organizer/TicketingInterface.tsx:169-171 | one more empty perk at the end of the ticket draft; both lists, the discount draft and both dialog flags stay |
| TicketingInterface.TicketingPage.UpdatePerk | client/src/pages/organizer/TicketingInterface.tsx:173-177 | only the perk at the index is replaced, through an assignment into a copied array; both lists, the discount draft and both dialog flags stay |
| TicketingInterface.TicketingPage.RemovePerk | client/src/pages/organizer/TicketingInterface.tsx:179-181 | only the perk at the index is removed; both lists, the discount draft and both dialog flags stay |
| EventManagement.FilteredEvents | client/src/pages/organizer/EventManagement.tsx:92-97 | an order-preserving sublist holding exactly the events that match both the case-insensitive search over title or description and the status filter, each as many times as it occurs |
| EventManagement.InitialFilterShowsAll | client/src/pages/organizer/EventManagement.tsx:93-95 | an empty search with "all" lists every event |
| EventManagement.PublishedHidesDraftsAndCancelled | client/src/pages/organizer/EventManagement.tsx:95 | the "published" filter lists no draft or cancelled event |
| EventManagement.SearchIgnoresCase | client/src/pages/organizer/EventManagement.tsx:93-94 | lower-casing the search term does not change the result |
| AttendeeManagement.Attendees | client/src/pages/organizer/AttendeeManagement.tsx:165 | exactly the registrations of the selected event, in order, each as many times as it occurs |
| AttendeeManagement.Waitlist | client/src/pages/organizer/AttendeeManagement.tsx:166 | exactly the waitlist entries of the selected event, in order, each as many times as it occurs |
| AttendeeManagement.FilteredAttendees | client/src/pages/organizer/AttendeeManagement.tsx:194-198 | an order-preserving sublist holding exactly the attendees whose lower-cased name, email or company contains the lower-cased term, each as many times as it occurs |
| AttendeeManagement.EmptySearchShowsAll | client/src/pages/organizer/AttendeeManagement.tsx:194-198 | an empty search lists every attendee |
| AttendeeManagement.CheckedInCount | client/src/pages/organizer/AttendeeManagement.tsx:200 | the number of checked-in positions, at most the number of attendees |
| AttendeeManagement.EventCount | client/src/pages/organizer/AttendeeManagement.tsx:255 | the number of registrations with the event's id, which is the length of that event's list |
| AttendeeManagement.EventCountsDisjoint | client/src/pages/organizer/AttendeeManagement.tsx:255 | the counts of two different events add up to at most the number of registrations |

## Left out

- bcrypt, JWT signing, `uuidv4`, MongoDB's `_id`, `Date.now()` and `Math.random()`: these are
  parameters or uninterpreted. A token is a record of its claims, secret and lifetime, and its
  expiry is a flag, because no clock is modelled.
- Redis TTLs: they are data. A key expires only through `AuthService.AuthService.Expire`, called
  when a caller chooses, because time is not modelled.
- MongoDB: a map keyed by email. `findByEmail` is map lookup. `create` succeeds or fails by the
  parameter `dbAccepts`. Mongoose schema defaults (bio, links, events) are absent fields, because
  the schema's behaviour lies outside the core.
- `sendOtpEmail`: a parameter `sendError` for its failure. Delivered mail goes to the `outbox`,
  because SMTP is I/O.
- Concurrency: the model is sequential. Interleavings of concurrent `register` or `verifyOtp`
  calls at their `await` points are not modelled.
- The Redis values are kept structured. Their JSON text is not modelled, because the service
  only ever reads back what it wrote.
- Exceptions thrown by the service are `Err` results carrying their message. JavaScript's `Error` objects, stack traces and the
  controllers that turn them into HTTP responses are not modelled.
- `AuthUtils.ParseUser`: assumes the object passed to `setUser` is exactly `{ email, name,
  isVerified }`, with its properties created in that order, because `JSON.stringify` writes an
  object's own properties in creation order and `setUser` stores whatever object it receives.
  Extra or reordered properties and the escapes of control characters and lone surrogates are not
  modelled; only `"` and `\` are escaped. The store invariant keeps only such text under "user".
- `Strings.JsLength`: `.length` counts UTF-16 code units, two for a character above U+FFFF. Lone
  surrogates have no counterpart in Dafny's `char`, which holds Unicode scalar values only.
- `AuthUtils.Storage.GetUser`: requires the store invariant. Foreign text under "user", which
  would make `JSON.parse` throw, is not modelled.
- `Strings.Lower`: ASCII case folding only. Unicode case mapping has no counterpart in Dafny's
  `char` model.
- `Strings.ParseInt`: reads leading decimal digits only, with no sign or whitespace. The OTP
  page's invariant rules out a timestamp that would make `parseInt` return NaN.
- `SignupForm.SignupFormState.HandleInputChange`: writing `undefined` into the errors object is
  modelled as removing the key. The two differ only for `Object.keys`, and `validateForm`
  replaces the whole object before counting keys.
- SignupForm, OtpVerification and TicketingInterface: `isLoading` / `isResending`, the simulated
  API delays, `console.log`, the catch branches around code that cannot throw, password
  visibility and the modal open buttons are not modelled, because they are presentation or
  unreachable.
- The `navigate` / `<Navigate>` effects are returned as values, because routing is a browser
  API.
- `ProtectedRoute.Render`: the Redux auth slice is a pair of parameters, because the store
  itself lies outside the core.
- `OtpVerification.OtpPage.Tick`: requires the interval to be scheduled. Timer scheduling itself
  is not modelled.
- `OtpVerification.OtpPage.HandleVerify`: the simulated network call is left out. The page
  navigates after the delay, so its catch branch is unreachable.
- `CreateEvent.TicketEditor.AddTicketType`: requires `Date.now().toString()` not to be an id
  already in use. Two adds within one millisecond would break that.
- `CreateEvent.TicketEdit`: edits of the `id` field, and values of the wrong type through the
  untyped `updateTicketType`, are not modelled.
- The event-creation page's other state (event details, banner upload, drag and drop, submit) is
  not modelled, because it is presentation and `FileReader` I/O.
- `TicketingInterface.TicketingPage.UpdatePerk`: requires an index inside the perk list. In
  JavaScript an assignment past the end would extend the array, but the form never produces such
  an index.
- Prices, quantities, discounts and counts are `real`. `Number(input)` parsing, NaN, `Math.round`
  percentages and locale formatting are not modelled, because they are floating-point display
  arithmetic.
- EventManagement and AttendeeManagement: the sample data, the figures shown beside each row and
  the export and e-mail buttons are not modelled, because they are static content.
- The login form, the axios client, the token-refresh glue in `App.tsx`, the Redux store and the
  route tables are not part of this model; the login form's validation reuses the validators
  above.

## Findings

| source | as written | input that shows it | evidently intended | confidence | as-written member | corrected member |
|---|---|---|---|---|---|---|
| server/src/services/auth.service.ts:70-93 | the stored session (lines 39-48) has `hashedPassword` and no `password`, and is re-validated through the request DTOs, whose guard demands a truthy `password` | register `alice@example.com` / `Secret123` as a user, then verify with the mailed code: "Missing required fields" | re-validate with the stored hash in the password slot, then create the account | high, not executed | AuthService.AuthService.VerifyOtp | AuthService.AuthService.VerifyOtpIntended |
| server/src/services/auth.service.ts:179 | the refreshed access token's payload is `{ userId, userRole }`, so it has no `role` claim | log in, then refresh with the issued refresh token: the new token's claims lack "role" | `{ userId, role: userRole }`, the payload login issues | high, not executed | AuthService.RefreshDropsRoleClaim | AuthService.RefreshIntendedKeepsClaims |
| server/src/services/auth.service.ts:162 | verifies with `process.env.REFRESH_TOKEN_SECRET!`, with no fallback, while lines 107 and 148 sign with the fallback "refresh_secret" when it is unset | REFRESH_TOKEN_SECRET unset: a refresh token issued at login is rejected with "secret or public key must be provided" | verify with the same secret expression that signed the token | medium, not executed | AuthService.AuthService.UnsetSecretRejectsOwnTokens | AuthService.AuthService.IssuedRefreshTokenVerifies |
| client/src/pages/auth/OtpVerification.tsx:95-101 | "Reset timer" resets `timeLeft` and `canResend` but does not schedule the interval again; the interval was cleared when the countdown reached 0 (lines 43-46), and the effect runs only on mount | first visit at t, interval run at t+60, resend at t+61: the countdown stays at "1:00" and resend is never enabled again without a reload | restart the countdown after a resend | medium, not executed | OtpVerification.ResendFreezesCountdown | OtpVerification.ResendRestartsCountdown |
