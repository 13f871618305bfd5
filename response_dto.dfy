/** The user projections sent back to clients (server/src/dto/response/UserRegisterResponse.ts):
    field copies with `||` defaults, and never the password hash. */
module ResponseDto {
  import opened Wrappers
  import opened UserModel

  /** `UserResponseDto`. Dates are integers; `now` stands for `new Date()`. */
  datatype UserResponse = UserResponse(
    id: string,
    name: string,
    email: string,
    role: string,
    createdAt: int,
    updatedAt: int,
    attendedEvents: seq<string>)

  /** `OrganizerResponseDto`, which extends `UserResponseDto`: `base` holds the inherited fields. */
  datatype OrganizerResponse = OrganizerResponse(
    base: UserResponse,
    bio: string,
    socialMediaLinks: SocialMediaLinks,
    organizationName: Option<string>,
    isVerified: bool,
    contactInfo: Option<ContactInfo>,
    organizedEvents: seq<string>)

  /** `new UserResponseDto(user)`. A present date or array is truthy, so `||` falls back only
      when the field is absent. */
  function NewUserResponse(u: User, now: int): (r: UserResponse)
    ensures r.id == u.id && r.name == u.name && r.email == u.email && r.role == u.role
    ensures u.attendedEvents.None? ==> r.attendedEvents == []
    ensures u.attendedEvents.Some? ==> r.attendedEvents == u.attendedEvents.value
    ensures u.createdAt.None? ==> r.createdAt == now
    ensures u.createdAt.Some? ==> r.createdAt == u.createdAt.value
    ensures u.updatedAt.None? ==> r.updatedAt == now
    ensures u.updatedAt.Some? ==> r.updatedAt == u.updatedAt.value
  {
    UserResponse(u.id, u.name, u.email, u.role, u.createdAt.GetOr(now), u.updatedAt.GetOr(now),
                 u.attendedEvents.GetOr([]))
  }

  /** `new OrganizerResponseDto(user)`: `super(user)` and then the organizer fields, with "" for
      a missing or empty bio, `{}` for missing links and `false` for a missing `isVerified`. */
  function NewOrganizerResponse(u: User, now: int): (r: OrganizerResponse)
    ensures r.base == NewUserResponse(u, now)
    ensures r.organizationName == u.organizationName && r.contactInfo == u.contactInfo
    ensures u.organizedEvents.None? ==> r.organizedEvents == []
    ensures u.organizedEvents.Some? ==> r.organizedEvents == u.organizedEvents.value
    ensures u.bio.None? ==> r.bio == ""
    ensures u.bio.Some? ==> r.bio == u.bio.value
    ensures u.socialMediaLinks.None? ==> r.socialMediaLinks == NoSocialMediaLinks
    ensures u.socialMediaLinks.Some? ==> r.socialMediaLinks == u.socialMediaLinks.value
    ensures u.isVerified.None? ==> !r.isVerified
    ensures u.isVerified.Some? ==> r.isVerified == u.isVerified.value
  {
    OrganizerResponse(
      NewUserResponse(u, now),
      u.bio.GetOr(""),
      u.socialMediaLinks.GetOr(NoSocialMediaLinks),
      u.organizationName,
      u.isVerified.GetOr(false),
      u.contactInfo,
      u.organizedEvents.GetOr([]))
  }

  /** `UserResponseDto | OrganizerResponseDto` */
  datatype UserView = PlainView(user: UserResponse) | OrganizerView(organizer: OrganizerResponse) {
    function Base(): UserResponse {
      match this
      case PlainView(u) => u
      case OrganizerView(o) => o.base
    }
  }

  /** The response DTO the service picks for a user: the organizer projection exactly when the
      stored role is "organizer". */
  function ViewOf(u: User, now: int): (r: UserView)
    ensures r.OrganizerView? <==> u.role == "organizer"
    ensures r.Base() == NewUserResponse(u, now)
    ensures r.OrganizerView? ==> r.organizer == NewOrganizerResponse(u, now)
  {
    if u.role == "organizer" then OrganizerView(NewOrganizerResponse(u, now))
    else PlainView(NewUserResponse(u, now))
  }

  /** The projection does not depend on the stored password hash at all, so it cannot reveal it. */
  lemma ViewHidesPassword(u: User, otherHash: string, now: int)
    ensures ViewOf(u.(password := otherHash), now) == ViewOf(u, now)
  {
  }
}
