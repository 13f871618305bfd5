/** The shape of a stored user record and of the nested profile fields the DTOs carry.
    Only the shape is modelled; no schema behaviour (validation, defaults, indexes) is. */
module UserModel {
  import opened Wrappers

  datatype Address = Address(state: Option<string>, city: Option<string>, pincode: Option<string>)

  datatype ContactInfo = ContactInfo(phone: Option<string>, address: Option<Address>)

  datatype SocialMediaLinks = SocialMediaLinks(
    facebook: Option<string>, twitter: Option<string>, instagram: Option<string>, linkedIn: Option<string>)

  const NoSocialMediaLinks := SocialMediaLinks(None, None, None, None)

  /** A document of the users collection. `id` is the database's `_id`; `userId` is the
      subject id handed out in tokens; `password` holds the bcrypt hash. Dates are integers. */
  datatype User = User(
    id: string,
    email: string,
    password: string,
    userId: string,
    name: string,
    role: string,
    attendedEvents: Option<seq<string>>,
    organizedEvents: Option<seq<string>>,
    organizationName: Option<string>,
    bio: Option<string>,
    socialMediaLinks: Option<SocialMediaLinks>,
    isVerified: Option<bool>,
    contactInfo: Option<ContactInfo>,
    createdAt: Option<int>,
    updatedAt: Option<int>)
}
