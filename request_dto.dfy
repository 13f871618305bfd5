/** The server's registration request DTOs: a required-field guard, then field copies with a
    forced role (server/src/dto/request/UserRegistrationRequest.ts and OrganizerRegistrationRequest.ts). */
module RequestDto {
  import opened Wrappers
  import opened UserModel

  /** The untyped object a DTO constructor receives (`data: any`), reduced to the keys that are
      read anywhere in the registration flow. An absent key is `None`. */
  datatype RawRegistration = RawRegistration(
    email: Option<string>,
    password: Option<string>,
    name: Option<string>,
    role: Option<string>,
    organizationName: Option<string>,
    contactInfo: Option<ContactInfo>,
    hashedPassword: Option<string>)

  /** JavaScript truthiness of a string-valued key: present and not the empty string. */
  predicate Truthy(v: Option<string>) {
    v.Some? && v.value != ""
  }

  /** The guard both constructors start with: `email`, `password` and `name` are all truthy. */
  predicate HasRequiredFields(data: RawRegistration) {
    Truthy(data.email) && Truthy(data.password) && Truthy(data.name)
  }

  const MissingRequiredFields := "Missing required fields"

  /** `UserRegistrationRequestDto`: exactly these four fields. */
  datatype UserRegistration = UserRegistration(email: string, password: string, role: string, name: string)

  /** `new UserRegistrationRequestDto(data)` */
  function NewUserRegistration(data: RawRegistration): (r: Result<UserRegistration>)
    ensures r.Err? <==> !HasRequiredFields(data)
    ensures r.Err? ==> r.error == MissingRequiredFields
    ensures r.Ok? ==> r.value.role == "user"
    ensures r.Ok? ==> data.email == Some(r.value.email) && data.password == Some(r.value.password)
                      && data.name == Some(r.value.name)
  {
    if !HasRequiredFields(data) then Err(MissingRequiredFields)
    else Ok(UserRegistration(data.email.value, data.password.value, "user", data.name.value))
  }

  /** Only `email`, `password` and `name` of the input matter: a role or organizer fields in the
      input are neither kept nor checked. */
  lemma UserRegistrationReadsOnlyCredentials(a: RawRegistration, b: RawRegistration)
    requires a.email == b.email && a.password == b.password && a.name == b.name
    ensures NewUserRegistration(a) == NewUserRegistration(b)
  {
  }

  /** `OrganizerRegistrationRequestDto` */
  datatype OrganizerRegistration = OrganizerRegistration(
    email: string,
    password: string,
    name: string,
    role: string,
    organizationName: Option<string>,
    contactInfo: Option<ContactInfo>)

  /** `new OrganizerRegistrationRequestDto(data)`: the same guard (the organization name is not
      required), the role forced to "organizer", the optional fields passed through as they are. */
  function NewOrganizerRegistration(data: RawRegistration): (r: Result<OrganizerRegistration>)
    ensures r.Err? <==> !HasRequiredFields(data)
    ensures r.Err? ==> r.error == MissingRequiredFields
    ensures r.Ok? ==> r.value.role == "organizer"
    ensures r.Ok? ==> data.email == Some(r.value.email) && data.password == Some(r.value.password)
                      && data.name == Some(r.value.name)
    ensures r.Ok? ==> r.value.organizationName == data.organizationName && r.value.contactInfo == data.contactInfo
  {
    if !HasRequiredFields(data) then Err(MissingRequiredFields)
    else Ok(OrganizerRegistration(data.email.value, data.password.value, data.name.value, "organizer",
                                  data.organizationName, data.contactInfo))
  }

  /** The two constructors accept and reject exactly the same inputs. */
  lemma SameGuard(data: RawRegistration)
    ensures NewUserRegistration(data).Ok? <==> NewOrganizerRegistration(data).Ok?
  {
  }

  /** What `AuthService.register` receives: one of the two DTO classes (told apart by `instanceof`). */
  datatype RegistrationRequest = UserRequest(user: UserRegistration) | OrganizerRequest(organizer: OrganizerRegistration) {

    function Email(): string {
      match this
      case UserRequest(u) => u.email
      case OrganizerRequest(o) => o.email
    }

    function Password(): string {
      match this
      case UserRequest(u) => u.password
      case OrganizerRequest(o) => o.password
    }

    function Name(): string {
      match this
      case UserRequest(u) => u.name
      case OrganizerRequest(o) => o.name
    }

    function Role(): string {
      match this
      case UserRequest(u) => u.role
      case OrganizerRequest(o) => o.role
    }
  }
}
