/** The client's registration DTOs (client/src/types/auth.ts): total constructors, with no
    validation, that turn the flat signup form into the request bodies. */
module ClientAuthTypes {
  import opened Wrappers
  import opened UserModel
  import opened RequestDto

  /** `SignupFormData`: the three required strings and the optional organizer fields. */
  datatype SignupFormData = SignupFormData(
    email: string,
    password: string,
    name: string,
    organizationName: Option<string>,
    phone: Option<string>,
    state: Option<string>,
    city: Option<string>,
    pincode: Option<string>)

  /** The client's `UserRegistrationRequestDto`. */
  datatype ClientUserRegistration = ClientUserRegistration(email: string, password: string, role: string, name: string)

  /** `new UserRegistrationRequestDto(data)` on the client: copies, role "user", never fails. */
  function NewClientUserRegistration(data: SignupFormData): (r: ClientUserRegistration)
    ensures r.role == "user"
    ensures r.email == data.email && r.password == data.password && r.name == data.name
  {
    ClientUserRegistration(data.email, data.password, "user", data.name)
  }

  /** The client's `OrganizerRegistrationRequestDto`; its `contactInfo` is always built. */
  datatype ClientOrganizerRegistration = ClientOrganizerRegistration(
    email: string,
    password: string,
    role: string,
    name: string,
    organizationName: Option<string>,
    contactInfo: ContactInfo)

  /** `new OrganizerRegistrationRequestDto(data)` on the client: the flat `phone`, `state`, `city`
      and `pincode` move into `contactInfo.phone` and `contactInfo.address.*`, and the nested
      objects exist even when every flat field is absent. */
  function NewClientOrganizerRegistration(data: SignupFormData): (r: ClientOrganizerRegistration)
    ensures r.role == "organizer"
    ensures r.email == data.email && r.password == data.password && r.name == data.name
    ensures r.organizationName == data.organizationName
    ensures r.contactInfo.phone == data.phone
    ensures r.contactInfo.address.Some?
    ensures r.contactInfo.address.value.state == data.state
    ensures r.contactInfo.address.value.city == data.city
    ensures r.contactInfo.address.value.pincode == data.pincode
  {
    ClientOrganizerRegistration(data.email, data.password, "organizer", data.name, data.organizationName,
                                ContactInfo(data.phone, Some(Address(data.state, data.city, data.pincode))))
  }

  /** The DTO the client builds, one of the two classes. */
  datatype ClientRequest = UserBody(user: ClientUserRegistration) | OrganizerBody(organizer: ClientOrganizerRegistration)

  /** The object a client DTO becomes on the server after a JSON round trip: every present field
      arrives as it was, an absent optional field stays absent, and there is no `hashedPassword`. */
  function AsServerInput(body: ClientRequest): (raw: RawRegistration)
    ensures raw.hashedPassword.None?
    ensures body.UserBody? ==>
      raw.email == Some(body.user.email) && raw.password == Some(body.user.password)
      && raw.name == Some(body.user.name) && raw.role == Some(body.user.role)
    ensures body.OrganizerBody? ==>
      raw.email == Some(body.organizer.email) && raw.password == Some(body.organizer.password)
      && raw.name == Some(body.organizer.name) && raw.role == Some(body.organizer.role)
      && raw.organizationName == body.organizer.organizationName
      && raw.contactInfo == Some(body.organizer.contactInfo)
  {
    match body
    case UserBody(u) =>
      RawRegistration(Some(u.email), Some(u.password), Some(u.name), Some(u.role), None, None, None)
    case OrganizerBody(o) =>
      RawRegistration(Some(o.email), Some(o.password), Some(o.name), Some(o.role), o.organizationName,
                      Some(o.contactInfo), None)
  }

  /** The server's organizer DTO keeps exactly the organization name and contact block that the
      client's organizer DTO built from the form. */
  lemma OrganizerFieldsSurviveServerDto(data: SignupFormData)
    requires data.email != "" && data.password != "" && data.name != ""
    ensures var server := NewOrganizerRegistration(AsServerInput(OrganizerBody(NewClientOrganizerRegistration(data))));
      && server.Ok?
      && server.value.organizationName == data.organizationName
      && server.value.contactInfo == Some(ContactInfo(data.phone, Some(Address(data.state, data.city, data.pincode))))
  {
  }
}
