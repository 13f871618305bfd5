/** The signup form's state and handlers (client/src/components/auth/SignupForm.tsx): which
    validators run for which account type, how edits clear errors, and which DTO a valid submit
    builds. */
module SignupForm {
  import opened Wrappers
  import opened Strings
  import opened FormValidation
  import opened ClientAuthTypes
  import RequestDto

  /** `UserType`, the position of the organizer switch. */
  datatype UserType = UserAccount | OrganizerAccount

  /** `keyof SignupFormData`, also the keys of `SignupFormErrors`. */
  datatype Field = Email | Password | Name | OrganizationName | Phone | State | City | Pincode

  /** The form's initial data: every field the empty string. */
  const EmptyForm := SignupFormData("", "", "", Some(""), Some(""), Some(""), Some(""), Some(""))

  function GetField(d: SignupFormData, f: Field): Option<string> {
    match f
    case Email => Some(d.email)
    case Password => Some(d.password)
    case Name => Some(d.name)
    case OrganizationName => d.organizationName
    case Phone => d.phone
    case State => d.state
    case City => d.city
    case Pincode => d.pincode
  }

  /** `{ ...prev, [field]: value }` */
  function SetField(d: SignupFormData, f: Field, value: string): (r: SignupFormData)
    ensures GetField(r, f) == Some(value)
    ensures forall g: Field | g != f :: GetField(r, g) == GetField(d, g)
  {
    match f
    case Email => d.(email := value)
    case Password => d.(password := value)
    case Name => d.(name := value)
    case OrganizationName => d.(organizationName := Some(value))
    case Phone => d.(phone := Some(value))
    case State => d.(state := Some(value))
    case City => d.(city := Some(value))
    case Pincode => d.(pincode := Some(value))
  }

  /** The fields `validateForm` checks for an account type. */
  function CheckedFields(userType: UserType): set<Field> {
    {Email, Password, Name} + (if userType == OrganizerAccount then {OrganizationName, Phone, State, City, Pincode} else {})
  }

  /** The phone rule: the "required" message when blank, otherwise the format verdict. */
  function PhoneError(phone: string): (r: Option<string>)
    ensures !HasNonWhitespace(phone) ==> r == Some("Phone is required")
    ensures HasNonWhitespace(phone) ==> (r.None? <==> IsPhoneNumber(phone))
    ensures HasNonWhitespace(phone) && r.Some? ==> r.value == PhoneInvalid
  {
    assert "Phone" + " is required" == "Phone is required";
    var missing := ValidateRequired(phone, "Phone");
    if missing.Some? then missing else ValidatePhone(phone)
  }

  /** The pincode rule, shaped like the phone rule. */
  function PincodeError(pincode: string): (r: Option<string>)
    ensures !HasNonWhitespace(pincode) ==> r == Some("Pincode is required")
    ensures HasNonWhitespace(pincode) ==> (r.None? <==> IsSixDigits(pincode))
    ensures HasNonWhitespace(pincode) && r.Some? ==> r.value == PincodeInvalid
  {
    assert "Pincode" + " is required" == "Pincode is required";
    var missing := ValidateRequired(pincode, "Pincode");
    if missing.Some? then missing else ValidatePincode(pincode)
  }

  /** The outcome of every field's check, `None` where the check passes. */
  datatype Verdicts = Verdicts(
    email: Option<string>,
    password: Option<string>,
    name: Option<string>,
    organizationName: Option<string>,
    phone: Option<string>,
    state: Option<string>,
    city: Option<string>,
    pincode: Option<string>)
  {
    function At(f: Field): Option<string> {
      match f
      case Email => email
      case Password => password
      case Name => name
      case OrganizationName => organizationName
      case Phone => phone
      case State => state
      case City => city
      case Pincode => pincode
    }
  }

  /** The check `validateForm` applies to each field (`x || ''` for the optional ones). */
  function Checks(d: SignupFormData): Verdicts {
    Verdicts(
      ValidateEmail(d.email),
      ValidatePassword(d.password),
      ValidateRequired(d.name, "Name"),
      ValidateRequired(d.organizationName.GetOr(""), "Organization Name"),
      PhoneError(d.phone.GetOr("")),
      ValidateRequired(d.state.GetOr(""), "State"),
      ValidateRequired(d.city.GetOr(""), "City"),
      PincodeError(d.pincode.GetOr("")))
  }

  /** The message `validateForm` records for one field, if any. */
  function FieldError(d: SignupFormData, f: Field): Option<string> {
    Checks(d).At(f)
  }

  /** `if (error) newErrors[field] = error` */
  function Record(errors: map<Field, string>, f: Field, error: Option<string>): map<Field, string> {
    if error.Some? then errors[f := error.value] else errors
  }

  /** The error map for given verdicts: one entry per checked field whose check fails, holding
      that check's message. */
  function ErrorsOf(userType: UserType, v: Verdicts): map<Field, string> {
    map f | f in CheckedFields(userType) && v.At(f).Some? :: v.At(f).value
  }

  /** The error map `validateForm` computes for the form. */
  function FormErrors(userType: UserType, d: SignupFormData): map<Field, string> {
    ErrorsOf(userType, Checks(d))
  }

  /** The map as `validateForm` fills it: the credential fields, then for an organizer the
      organizer fields, in source order, each recording its message when its check fails. */
  function ErrorsFrom(userType: UserType, v: Verdicts): map<Field, string> {
    var credentials := CredentialErrors(v);
    match userType
    case UserAccount => credentials
    case OrganizerAccount => WithOrganizerErrors(credentials, v)
  }

  function CredentialErrors(v: Verdicts): map<Field, string> {
    Record(Record(Record(map[], Email, v.email), Password, v.password), Name, v.name)
  }

  function WithOrganizerErrors(credentials: map<Field, string>, v: Verdicts): map<Field, string> {
    var withOrganization := Record(credentials, OrganizationName, v.organizationName);
    var withPhone := Record(withOrganization, Phone, v.phone);
    var withAddress := Record(Record(withPhone, State, v.state), City, v.city);
    Record(withAddress, Pincode, v.pincode)
  }

  /** One recorded field: present when its check fails, with its message; every other field as before. */
  lemma RecordAt(errors: map<Field, string>, f: Field, error: Option<string>, g: Field)
    ensures g in Record(errors, f, error) <==> (if g == f then error.Some? || g in errors else g in errors)
    ensures g in Record(errors, f, error) ==>
      Record(errors, f, error)[g] == if g == f && error.Some? then error.value else errors[g]
  {
  }

  /** The credential steps decide exactly the credential fields. */
  lemma CredentialMeaning(v: Verdicts, f: Field)
    ensures f in CredentialErrors(v) <==> f in {Email, Password, Name} && v.At(f).Some?
    ensures f in CredentialErrors(v) ==> CredentialErrors(v)[f] == v.At(f).value
  {
    var withEmail := Record(map[], Email, v.email);
    var withPassword := Record(withEmail, Password, v.password);
    RecordAt(map[], Email, v.email, f);
    RecordAt(withEmail, Password, v.password, f);
    RecordAt(withPassword, Name, v.name, f);
  }

  /** The organizer steps decide exactly the organizer fields and keep every other entry. */
  lemma OrganizerMeaning(credentials: map<Field, string>, v: Verdicts, f: Field)
    requires credentials.Keys <= {Email, Password, Name}
    ensures f in WithOrganizerErrors(credentials, v) <==>
      if f in {Email, Password, Name} then f in credentials else v.At(f).Some?
    ensures f in WithOrganizerErrors(credentials, v) ==>
      WithOrganizerErrors(credentials, v)[f] == if f in {Email, Password, Name} then credentials[f] else v.At(f).value
  {
    var withOrganization := Record(credentials, OrganizationName, v.organizationName);
    var withPhone := Record(withOrganization, Phone, v.phone);
    var withState := Record(withPhone, State, v.state);
    var withAddress := Record(withState, City, v.city);
    RecordAt(credentials, OrganizationName, v.organizationName, f);
    RecordAt(withOrganization, Phone, v.phone, f);
    RecordAt(withPhone, State, v.state, f);
    RecordAt(withState, City, v.city, f);
    RecordAt(withAddress, Pincode, v.pincode, f);
  }

  /** A field has an entry exactly when it is checked for the account type and fails, and the
      entry is its message: recording one field never disturbs another. */
  lemma ErrorsFromMeaning(userType: UserType, v: Verdicts, f: Field)
    ensures f in ErrorsFrom(userType, v) <==> f in CheckedFields(userType) && v.At(f).Some?
    ensures f in ErrorsFrom(userType, v) ==> ErrorsFrom(userType, v)[f] == v.At(f).value
  {
    CredentialMeaning(v, f);
    if userType == OrganizerAccount {
      forall g | g in CredentialErrors(v) ensures g in {Email, Password, Name} {
        CredentialMeaning(v, g);
      }
      OrganizerMeaning(CredentialErrors(v), v, f);
    }
  }

  /** Filling the map field by field yields the declarative error map. */
  lemma ErrorsFromIsErrorsOf(userType: UserType, v: Verdicts)
    ensures ErrorsFrom(userType, v) == ErrorsOf(userType, v)
  {
    var filled, spec := ErrorsFrom(userType, v), ErrorsOf(userType, v);
    forall f: Field ensures (f in filled <==> f in spec) && (f in filled ==> filled[f] == spec[f]) {
      ErrorsFromMeaning(userType, v, f);
    }
    assert filled.Keys == spec.Keys;
  }

  /** For a plain user only the credential verdicts matter. */
  lemma UserErrorsFromCredentials(v: Verdicts, w: Verdicts)
    requires v.email == w.email && v.password == w.password && v.name == w.name
    ensures ErrorsOf(UserAccount, v).Keys <= {Email, Password, Name}
    ensures ErrorsOf(UserAccount, v) == ErrorsOf(UserAccount, w)
  {
    assert forall f: Field | f in CheckedFields(UserAccount) :: v.At(f) == w.At(f);
  }

  /** For a plain user only the credentials can fail; organizer fields are never looked at. */
  lemma UserFormChecksCredentialsOnly(d: SignupFormData, other: SignupFormData)
    requires d.email == other.email && d.password == other.password && d.name == other.name
    ensures FormErrors(UserAccount, d).Keys <= {Email, Password, Name}
    ensures FormErrors(UserAccount, d) == FormErrors(UserAccount, other)
  {
    var v, w := Checks(d), Checks(other);
    assert v.email == w.email && v.password == w.password && v.name == w.name;
    UserErrorsFromCredentials(v, w);
  }

  /** The phone entry of an organizer's error map, for any verdicts whose phone verdict is the
      phone rule's. */
  lemma PhoneEntry(v: Verdicts, p: string)
    requires v.phone == PhoneError(p)
    ensures var errors := ErrorsOf(OrganizerAccount, v);
      && (!HasNonWhitespace(p) ==> Phone in errors && errors[Phone] == "Phone is required")
      && (HasNonWhitespace(p) ==> (Phone in errors <==> !IsPhoneNumber(p)))
      && (HasNonWhitespace(p) && Phone in errors ==> errors[Phone] == PhoneInvalid)
  {
    assert Phone in CheckedFields(OrganizerAccount);
  }

  /** An organizer's phone gets the "required" message when blank, and the format message when it
      is not blank and invalid; the format check never runs on a blank value. */
  lemma OrganizerPhoneRule(d: SignupFormData)
    ensures var p := d.phone.GetOr(""); var errors := FormErrors(OrganizerAccount, d);
      && (!HasNonWhitespace(p) ==> Phone in errors && errors[Phone] == "Phone is required")
      && (HasNonWhitespace(p) ==> (Phone in errors <==> !IsPhoneNumber(p)))
      && (HasNonWhitespace(p) && Phone in errors ==> errors[Phone] == PhoneInvalid)
  {
    PhoneEntry(Checks(d), d.phone.GetOr(""));
  }

  /** The pincode entry of an organizer's error map, for any verdicts whose pincode verdict is the
      pincode rule's. */
  lemma PincodeEntry(v: Verdicts, p: string)
    requires v.pincode == PincodeError(p)
    ensures var errors := ErrorsOf(OrganizerAccount, v);
      && (!HasNonWhitespace(p) ==> Pincode in errors && errors[Pincode] == "Pincode is required")
      && (HasNonWhitespace(p) ==> (Pincode in errors <==> !IsSixDigits(p)))
      && (HasNonWhitespace(p) && Pincode in errors ==> errors[Pincode] == PincodeInvalid)
  {
    assert Pincode in CheckedFields(OrganizerAccount);
  }

  /** The same rule for the pincode: blank is "required", otherwise exactly six digits. */
  lemma OrganizerPincodeRule(d: SignupFormData)
    ensures var p := d.pincode.GetOr(""); var errors := FormErrors(OrganizerAccount, d);
      && (!HasNonWhitespace(p) ==> Pincode in errors && errors[Pincode] == "Pincode is required")
      && (HasNonWhitespace(p) ==> (Pincode in errors <==> !IsSixDigits(p)))
      && (HasNonWhitespace(p) && Pincode in errors ==> errors[Pincode] == PincodeInvalid)
  {
    PincodeEntry(Checks(d), d.pincode.GetOr(""));
  }

  /** The DTO `handleSubmit` builds: an organizer DTO exactly for an organizer account. */
  function SubmittedBody(userType: UserType, d: SignupFormData): (body: ClientRequest)
    ensures body.OrganizerBody? <==> userType == OrganizerAccount
    ensures body.UserBody? ==> body.user == NewClientUserRegistration(d)
    ensures body.OrganizerBody? ==> body.organizer == NewClientOrganizerRegistration(d)
  {
    match userType
    case UserAccount => UserBody(NewClientUserRegistration(d))
    case OrganizerAccount => OrganizerBody(NewClientOrganizerRegistration(d))
  }

  /** An empty error map means every credential check passed, whatever the account type. */
  lemma NoErrorsPassCredentials(userType: UserType, v: Verdicts)
    requires ErrorsOf(userType, v) == map[]
    ensures v.email.None? && v.password.None? && v.name.None?
  {
    assert Email in CheckedFields(userType) && Password in CheckedFields(userType) && Name in CheckedFields(userType);
    assert Email !in ErrorsOf(userType, v) && Password !in ErrorsOf(userType, v) && Name !in ErrorsOf(userType, v);
  }

  /** A form the client accepts yields a body the server's DTO guard accepts as well: the client's
      email, password and name rules each imply non-emptiness. */
  lemma AcceptedFormPassesServerGuard(userType: UserType, d: SignupFormData)
    requires FormErrors(userType, d) == map[]
    ensures RequestDto.HasRequiredFields(AsServerInput(SubmittedBody(userType, d)))
  {
    NoErrorsPassCredentials(userType, Checks(d));
    assert ValidateEmail(d.email).None? && ValidatePassword(d.password).None?;
    assert HasNonWhitespace(d.name);
  }

  /** The first half of `validateForm`: email, password and name. */
  method CheckCredentials(data: SignupFormData) returns (newErrors: map<Field, string>)
    ensures newErrors == CredentialErrors(Checks(data))
  {
    newErrors := map[];

    var emailError := ValidateEmail(data.email);
    newErrors := Record(newErrors, Email, emailError);

    var passwordError := ValidatePassword(data.password);
    newErrors := Record(newErrors, Password, passwordError);

    var nameError := ValidateRequired(data.name, "Name");
    newErrors := Record(newErrors, Name, nameError);
  }

  /** The organizer half of `validateForm`, run only for an organizer account. */
  method CheckOrganizer(data: SignupFormData, credentials: map<Field, string>) returns (newErrors: map<Field, string>)
    ensures newErrors == WithOrganizerErrors(credentials, Checks(data))
  {
    newErrors := credentials;

    var orgNameError := ValidateRequired(data.organizationName.GetOr(""), "Organization Name");
    newErrors := Record(newErrors, OrganizationName, orgNameError);

    newErrors := CheckRequiredThenFormat(newErrors, Phone, data.phone.GetOr(""), "Phone");

    var stateError := ValidateRequired(data.state.GetOr(""), "State");
    newErrors := Record(newErrors, State, stateError);

    var cityError := ValidateRequired(data.city.GetOr(""), "City");
    newErrors := Record(newErrors, City, cityError);

    newErrors := CheckRequiredThenFormat(newErrors, Pincode, data.pincode.GetOr(""), "Pincode");
  }

  /** The phone and pincode steps of `validateForm`: the "required" check first, and the format
      check only when the value is not blank. */
  method CheckRequiredThenFormat(errors: map<Field, string>, f: Field, value: string, fieldName: string)
    returns (r: map<Field, string>)
    requires (f == Phone && fieldName == "Phone") || (f == Pincode && fieldName == "Pincode")
    ensures f == Phone ==> r == Record(errors, f, PhoneError(value))
    ensures f == Pincode ==> r == Record(errors, f, PincodeError(value))
  {
    r := errors;
    var requiredError := ValidateRequired(value, fieldName);
    if requiredError.None? {
      var formatError := if f == Phone then ValidatePhone(value) else ValidatePincode(value);
      r := Record(r, f, formatError);
    } else {
      r := r[f := requiredError.value];
    }
  }

  /** What a successful submit does: the DTO, and navigation to the OTP page carrying the email
      and the account type. */
  datatype Submission = Submission(body: ClientRequest, navigateTo: string, email: string, userType: UserType)

  class SignupFormState {
    var userType: UserType
    var formData: SignupFormData
    var errors: map<Field, string>

    constructor ()
      ensures userType == UserAccount && formData == EmptyForm && errors == map[]
    {
      userType := UserAccount;
      formData := EmptyForm;
      errors := map[];
    }

    /** `handleInputChange(field, value)`: sets one field and drops that field's error only. */
    method HandleInputChange(field: Field, value: string)
      modifies this
      ensures formData == SetField(old(formData), field, value)
      ensures errors == old(errors) - {field}
      ensures userType == old(userType)
    {
      formData := SetField(formData, field, value);
      if field in errors {
        errors := errors - {field};
      }
    }

    /** `handleUserTypeChange(isOrganizer)`: sets the account type and clears every error. */
    method HandleUserTypeChange(isOrganizer: bool)
      modifies this
      ensures userType == (if isOrganizer then OrganizerAccount else UserAccount)
      ensures errors == map[] && formData == old(formData)
    {
      userType := if isOrganizer then OrganizerAccount else UserAccount;
      errors := map[];
    }

    /** `validateForm()`: fills a fresh error map field by field, replaces the old errors with it
        and reports whether it is empty. */
    method ValidateForm() returns (ok: bool)
      modifies this
      ensures errors == FormErrors(userType, formData)
      ensures ok <==> errors == map[]
      ensures userType == old(userType) && formData == old(formData)
    {
      var data := formData;
      var newErrors := CheckCredentials(data);
      if userType == OrganizerAccount {
        newErrors := CheckOrganizer(data, newErrors);
      }
      ErrorsFromIsErrorsOf(userType, Checks(data));
      errors := newErrors;
      ok := |newErrors| == 0;
    }

    /** `handleSubmit()`: nothing unless the form validates; then the DTO for the account type and
        navigation to "/otp-verification". */
    method HandleSubmit() returns (outcome: Option<Submission>)
      modifies this
      ensures errors == FormErrors(userType, formData)
      ensures userType == old(userType) && formData == old(formData)
      ensures outcome.Some? <==> errors == map[]
      ensures outcome.Some? ==>
        outcome.value == Submission(SubmittedBody(userType, formData), "/otp-verification", formData.email, userType)
    {
      var valid := ValidateForm();
      if !valid {
        return None;
      }
      var dto;
      if userType == UserAccount {
        dto := UserBody(NewClientUserRegistration(formData));
      } else {
        dto := OrganizerBody(NewClientOrganizerRegistration(formData));
      }
      outcome := Some(Submission(dto, "/otp-verification", formData.email, userType));
    }
  }
}
