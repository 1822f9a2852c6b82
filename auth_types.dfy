/**
 * The records exchanged with the identity provider and stored in the
 * session. Only the fields the authorization layer reads are kept.
 */
module AuthTypes {

  datatype UserMetadata = UserMetadata(
    avatar_url: string,
    email_verified: bool,
    first_name: string,
    last_name: string,
    phone: string)

  datatype AuthUser = AuthUser(
    id: string,
    role: string,
    email: string,
    user_metadata: UserMetadata)

  /** The provider's answer to sign-up, password sign-in and token refresh. */
  datatype AuthResponse = AuthResponse(
    access_token: string,
    token_type: string,
    expires_in: int,
    expires_at: int,
    refresh_token: string,
    user: AuthUser)

  datatype UserPermissions = UserPermissions(
    permissions: seq<string>,
    is_super_admin: bool)

  datatype UserProfile = UserProfile(
    id: string,
    role: string,
    email: string,
    first_name: string,
    last_name: string,
    phone: string)

  /** What the application keeps in the session under the key 'user'. */
  datatype SessionUser = SessionUser(
    id: string,
    email: string,
    first_name: string,
    last_name: string,
    role: string,
    permissions: seq<string>,
    access_token: string,
    refresh_token: string,
    expires_at: int)

  datatype RegisterData = RegisterData(first_name: string, last_name: string, phone: string)

  datatype ProfileMetadata = ProfileMetadata(first_name: string, last_name: string, phone: string, avatar_url: string)

  datatype CompleteProfile = CompleteProfile(
    first_name: string,
    last_name: string,
    phone: string,
    avatar_url: string,
    timezone: string,
    language: string,
    date_of_birth: string,
    gender: string,
    emergency_contact_name: string,
    emergency_contact_phone: string,
    emergency_contact_relation: string,
    allergies: seq<string>,
    current_medications: seq<string>,
    conditions: seq<string>,
    surgeries: seq<string>,
    insurance_provider: string,
    insurance_policy_number: string,
    preferred_language: string,
    bio: string)

  /** One request made to the identity service, with the arguments that matter. */
  datatype ServiceCall =
    | Register(email: string, password: string, data: RegisterData)
    | Login(email: string, password: string)
    | RecoverPassword(email: string)
    | UpdatePassword(password: string, token: string)
    | UpdateUserMetadata(metadata: ProfileMetadata, token: string)
    | UpdateCompleteProfile(profile: CompleteProfile, token: string)
    | Logout(token: string)
    | RefreshToken(refresh_token: string)
    | GetCurrentUserProfile(token: string)
    | GetUserPermissions(token: string)
}
