/**
 * AuthRepository: the `users` collection of profiles and the calls into the
 * identity provider. The provider's password endpoints, its ID-token
 * verification and its custom-token minting are pure functions given to the
 * repository; the configured API key is a constant.
 */
module AuthRepository {
  import opened Wrappers
  import opened Text
  import opened Models
  import opened DocumentStore

  const ApiKeyMissing := "Firebase API key not configured"
  const AuthenticationFailed := "Authentication failed"
  const UserCreationFailed := "User creation failed"

  /** The JSON the identity provider answers to a password request. */
  datatype ProviderReply = ProviderReply(ok: bool, idToken: string, errorMessage: Option<string>)

  /** The claims of a verified ID token. */
  datatype DecodedToken = DecodedToken(uid: string, email: Option<string>, name: Option<string>, emailVerified: Option<bool>)

  datatype GoogleAuthRequest = GoogleAuthRequest(idToken: string)

  /** The profile `createUserProfile` writes: every timestamp is the moment of creation. */
  function NewProfile(d: CreateUserProfileData, now: Time): (p: UserProfile)
    ensures p.uid == d.uid && p.email == d.email && p.displayName == d.displayName && p.emailVerified == d.emailVerified
    ensures p.createdAt == now && p.updatedAt == now && p.lastLoginAt == Some(now)
  {
    UserProfile(d.uid, d.email, d.displayName, d.emailVerified, now, now, Some(now))
  }

  /** The key `createUserProfile` stores a profile under: its uid, or a store-generated id when the uid is empty. */
  function ProfileKey(uid: string, generatedId: string): (k: string)
    ensures uid != "" ==> k == uid
    ensures uid == "" ==> k == generatedId
  {
    if uid != "" then uid else generatedId
  }

  /** The patch `updateUserProfile` writes: the caller's fields, with `updatedAt` always set to now. */
  function ProfileUpdate(updates: ProfilePatch, now: Time): (u: ProfilePatch)
    ensures u.updatedAt == Some(now)
    ensures u.(updatedAt := updates.updatedAt) == updates
  {
    updates.(updatedAt := Some(now))
  }

  /** The patch `updateLastLogin` writes. */
  function LastLoginPatch(now: Time): ProfilePatch {
    NoProfileChange.(lastLoginAt := Some(now), updatedAt := Some(now))
  }

  /** A password request's outcome: the provider's error message, or a fixed one when it gives none. */
  function ProviderOutcome(reply: ProviderReply, fallback: string): (r: Result<ProviderReply, Thrown>)
    ensures r.Success? <==> reply.ok
    ensures r.Success? ==> r.value == reply
    ensures r.Failure? ==> r.error == ErrorObject(OrDefault(reply.errorMessage, fallback))
  {
    if reply.ok then Success(reply) else Failure(ErrorObject(OrDefault(reply.errorMessage, fallback)))
  }

  class AuthRepository {
    const db: Collection<UserProfile, ProfilePatch>
    const apiKey: Option<string>
    const signIn: LoginCredentials -> ProviderReply
    const signUp: SignupCredentials -> ProviderReply
    const verifier: string -> Result<DecodedToken, Thrown>
    /** What the provider's `createCustomToken` answers for a uid: a token, or what it throws. */
    const mint: string -> Result<string, Thrown>
    /** What the provider's `revokeRefreshTokens` throws for a uid, if anything. */
    const revoker: string -> Option<Thrown>
    /** The users whose refresh tokens have been revoked. */
    var revoked: set<string>

    ghost predicate Valid() {
      db.merge == ApplyProfilePatch
    }

    constructor (apiKey: Option<string>, signIn: LoginCredentials -> ProviderReply, signUp: SignupCredentials -> ProviderReply,
                 verifier: string -> Result<DecodedToken, Thrown>, mint: string -> Result<string, Thrown>, revoker: string -> Option<Thrown>)
      ensures Valid() && fresh(db) && db.docs == map[] && revoked == {}
      ensures this.apiKey == apiKey && this.signIn == signIn && this.signUp == signUp
      ensures this.verifier == verifier && this.mint == mint && this.revoker == revoker
    {
      db := new Collection(ApplyProfilePatch);
      this.apiKey := apiKey;
      this.signIn := signIn;
      this.signUp := signUp;
      this.verifier := verifier;
      this.mint := mint;
      this.revoker := revoker;
      revoked := {};
    }

    predicate HasApiKey() {
      apiKey.Some? && apiKey.value != ""
    }

    /** `authenticateUser`: the password sign-in request. */
    method AuthenticateUser(credentials: LoginCredentials) returns (r: Result<ProviderReply, Thrown>)
      ensures !HasApiKey() ==> r == Failure(ErrorObject(ApiKeyMissing))
      ensures HasApiKey() ==> r == ProviderOutcome(signIn(credentials), AuthenticationFailed)
    {
      if !HasApiKey() {
        return Failure(ErrorObject(ApiKeyMissing));
      }
      r := ProviderOutcome(signIn(credentials), AuthenticationFailed);
    }

    /** `createUser`: the password sign-up request. */
    method CreateUser(credentials: SignupCredentials) returns (r: Result<ProviderReply, Thrown>)
      ensures !HasApiKey() ==> r == Failure(ErrorObject(ApiKeyMissing))
      ensures HasApiKey() ==> r == ProviderOutcome(signUp(credentials), UserCreationFailed)
    {
      if !HasApiKey() {
        return Failure(ErrorObject(ApiKeyMissing));
      }
      r := ProviderOutcome(signUp(credentials), UserCreationFailed);
    }

    method VerifyIdToken(idToken: string) returns (r: Result<DecodedToken, Thrown>)
      ensures r == verifier(idToken)
    {
      r := verifier(idToken);
    }

    method GenerateCustomToken(uid: string) returns (token: Result<string, Thrown>)
      ensures token == mint(uid)
    {
      token := mint(uid);
    }

    /** `authenticateWithGoogle` is ID-token verification. */
    method AuthenticateWithGoogle(request: GoogleAuthRequest) returns (r: Result<DecodedToken, Thrown>)
      ensures r == verifier(request.idToken)
    {
      r := VerifyIdToken(request.idToken);
    }

    /**
     * Revokes the user's refresh tokens, or passes on what the provider throws;
     * ID tokens already issued still verify.
     */
    method RevokeSession(uid: string) returns (r: Result<(), Thrown>)
      modifies this
      ensures revoker(uid).Some? ==> r == Failure(revoker(uid).value) && revoked == old(revoked)
      ensures revoker(uid).None? ==> r == Success(()) && revoked == old(revoked) + {uid}
    {
      var thrown := revoker(uid);
      if thrown.Some? {
        return Failure(thrown.value);
      }
      revoked := revoked + {uid};
      r := Success(());
    }

    /**
     * Stores a new profile under its uid (or a generated id if the uid is empty), replacing any
     * profile there, and returns it with the key it was stored under.
     */
    method CreateUserProfile(data: CreateUserProfileData, now: Time, generatedId: string) returns (profile: UserProfile, id: string)
      requires data.uid == "" ==> generatedId !in db.docs
      modifies db
      ensures profile == NewProfile(data, now) && id == ProfileKey(data.uid, generatedId)
      ensures data.uid == "" ==> id !in old(db.docs)
      ensures db.docs == old(db.docs)[id := profile]
    {
      profile := NewProfile(data, now);
      id := db.Create(profile, Some(data.uid), generatedId);
    }

    method GetUserProfile(uid: string) returns (r: Option<UserProfile>)
      ensures r.None? <==> uid !in db.docs
      ensures r.Some? ==> r.value == db.docs[uid]
    {
      r := db.GetById(uid);
    }

    method UpdateUserProfile(uid: string, updates: ProfilePatch, now: Time) returns (r: Result<UserProfile, string>)
      requires Valid()
      modifies db
      ensures uid in old(db.docs) ==>
                r == Success(ApplyProfilePatch(old(db.docs)[uid], ProfileUpdate(updates, now))) && db.docs == old(db.docs)[uid := r.value]
      ensures uid !in old(db.docs) ==> r == Failure(NoDocument) && db.docs == old(db.docs)
    {
      r := db.Update(uid, ProfileUpdate(updates, now));
    }

    method UpdateLastLogin(uid: string, now: Time) returns (r: Result<(), string>)
      requires Valid()
      modifies db
      ensures uid in old(db.docs) ==>
                r.Success? && db.docs == old(db.docs)[uid := old(db.docs)[uid].(lastLoginAt := Some(now), updatedAt := now)]
      ensures uid !in old(db.docs) ==> r == Failure(NoDocument) && db.docs == old(db.docs)
    {
      var u := db.Update(uid, LastLoginPatch(now));
      r := if u.Success? then Success(()) else Failure(u.error);
    }

    method DeleteUserProfile(uid: string)
      modifies db
      ensures db.docs == old(db.docs) - {uid}
    {
      db.Delete(uid);
    }
  }
}
