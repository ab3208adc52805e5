/**
 * AuthService: login, signup, logout and token verification on top of the
 * auth repository. Every failure becomes an unauthorized `ApiResponse` that
 * carries the thrown message, or a fixed message when the thrown value is not
 * an `Error`.
 */
module AuthService {
  import opened Wrappers
  import opened Text
  import opened Models
  import opened DocumentStore
  import opened AuthRepository

  const LoginFailed := "Login failed"
  const SignupFailed := "Signup failed"
  const LogoutFailed := "Logout failed"
  const TokenVerificationFailed := "Token verification failed"
  const ProfileNotFound := "User profile not found"

  /** `a || b` on optional strings: an absent or empty `a` falls back to `b`. */
  function OrElse(a: Option<string>, b: Option<string>): (r: Option<string>)
    ensures r == a || r == b
    ensures r == b <== a.None? || a == Some("")
    ensures a.Some? && a.value != "" ==> r == a
  {
    if a.Some? && a.value != "" then a else b
  }

  /** The profile data a first login or a signup derives from the token's claims. */
  function ProfileData(d: DecodedToken, displayName: Option<string>): (data: CreateUserProfileData)
    ensures data.uid == d.uid && data.displayName == displayName
    ensures data.email == OrDefault(d.email, "")
    ensures data.emailVerified <==> d.emailVerified == Some(true)
  {
    CreateUserProfileData(d.uid, OrDefault(d.email, ""), displayName, d.emailVerified.GetOr(false))
  }

  /** A successful sign-in or sign-up answer; `userId` is the `id` key of a just-created profile. */
  function SessionResponse(user: UserProfile, userId: Option<string>, idToken: string, customToken: string): (r: ApiResponse)
    ensures r.success && r.status == StatusSuccess && r.error.None?
    ensures r.data == Some(Session(user, userId, idToken, customToken))
  {
    ApiResponse(true, StatusSuccess, Some(Session(user, userId, idToken, customToken)), None)
  }

  class AuthService {
    const repo: AuthRepository

    constructor (repo: AuthRepository)
      ensures this.repo == repo
    {
      this.repo := repo;
    }

    /** The sign-in request and the verification of the token it returns both succeed. */
    predicate SignsIn(c: LoginCredentials) {
      repo.HasApiKey() && repo.signIn(c).ok && repo.verifier(repo.signIn(c).idToken).Success?
    }

    predicate SignsUp(c: SignupCredentials) {
      repo.HasApiKey() && repo.signUp(c).ok && repo.verifier(repo.signUp(c).idToken).Success?
    }

    /**
     * `login`: a first login creates the profile; a later one stamps the last
     * login time but answers with the profile as it was before the stamp.
     */
    method Login(c: LoginCredentials, now: Time, generatedId: string) returns (r: ApiResponse)
      requires repo.Valid() && generatedId !in repo.db.docs
      modifies repo.db
      ensures !repo.HasApiKey() ==> r == ApiFailure(ApiKeyMissing) && repo.db.docs == old(repo.db.docs)
      ensures repo.HasApiKey() && !repo.signIn(c).ok ==>
                r == ApiFailure(OrDefault(repo.signIn(c).errorMessage, AuthenticationFailed)) && repo.db.docs == old(repo.db.docs)
      ensures repo.HasApiKey() && repo.signIn(c).ok && repo.verifier(repo.signIn(c).idToken).Failure? ==>
                r == ApiFailure(repo.verifier(repo.signIn(c).idToken).error.MessageOr(LoginFailed)) && repo.db.docs == old(repo.db.docs)
      // after a login the token's user has a profile, so `verifyToken` accepts the token
      ensures SignsIn(c) && repo.verifier(repo.signIn(c).idToken).value.uid != "" ==>
                repo.verifier(repo.signIn(c).idToken).value.uid in repo.db.docs
      ensures SignsIn(c) ==>
                var token := repo.signIn(c).idToken;
                var d := repo.verifier(token).value;
                var created := NewProfile(ProfileData(d, d.name), now);
                var minted := repo.mint(d.uid);
                && r == (if minted.Failure? then ApiFailure(minted.error.MessageOr(LoginFailed))
                         else if d.uid in old(repo.db.docs)
                         then SessionResponse(old(repo.db.docs)[d.uid], None, token, minted.value)
                         else SessionResponse(created, Some(ProfileKey(d.uid, generatedId)), token, minted.value))
                // the profile is written before the custom token is asked for, so a refused token keeps the write
                && repo.db.docs == if d.uid in old(repo.db.docs)
                                   then old(repo.db.docs)[d.uid := old(repo.db.docs)[d.uid].(lastLoginAt := Some(now), updatedAt := now)]
                                   else old(repo.db.docs)[ProfileKey(d.uid, generatedId) := created]
    {
      var auth := repo.AuthenticateUser(c);
      if auth.Failure? {
        return ApiFailure(auth.error.MessageOr(LoginFailed));
      }
      var decoded := repo.VerifyIdToken(auth.value.idToken);
      if decoded.Failure? {
        return ApiFailure(decoded.error.MessageOr(LoginFailed));
      }
      var d := decoded.value;
      var profile := repo.GetUserProfile(d.uid);
      var user: UserProfile;
      var userId: Option<string> := None;
      if profile.None? {
        var key;
        user, key := repo.CreateUserProfile(ProfileData(d, d.name), now, generatedId);
        userId := Some(key);
      } else {
        user := profile.value;
        // The profile was just read, so stamping it cannot fail.
        var _ := repo.UpdateLastLogin(d.uid, now);
      }
      var customToken := repo.GenerateCustomToken(d.uid);
      if customToken.Failure? {
        return ApiFailure(customToken.error.MessageOr(LoginFailed));
      }
      r := SessionResponse(user, userId, auth.value.idToken, customToken.value);
    }

    /** `signup`: creates the profile, replacing any profile stored under the same uid. */
    method Signup(c: SignupCredentials, now: Time, generatedId: string) returns (r: ApiResponse)
      requires generatedId !in repo.db.docs
      modifies repo.db
      ensures !repo.HasApiKey() ==> r == ApiFailure(ApiKeyMissing) && repo.db.docs == old(repo.db.docs)
      ensures repo.HasApiKey() && !repo.signUp(c).ok ==>
                r == ApiFailure(OrDefault(repo.signUp(c).errorMessage, UserCreationFailed)) && repo.db.docs == old(repo.db.docs)
      ensures repo.HasApiKey() && repo.signUp(c).ok && repo.verifier(repo.signUp(c).idToken).Failure? ==>
                r == ApiFailure(repo.verifier(repo.signUp(c).idToken).error.MessageOr(SignupFailed)) && repo.db.docs == old(repo.db.docs)
      ensures SignsUp(c) && repo.verifier(repo.signUp(c).idToken).value.uid != "" ==>
                repo.verifier(repo.signUp(c).idToken).value.uid in repo.db.docs
      ensures SignsUp(c) ==>
                var token := repo.signUp(c).idToken;
                var d := repo.verifier(token).value;
                var profile := NewProfile(ProfileData(d, OrElse(d.name, c.displayName)), now);
                var minted := repo.mint(d.uid);
                && r == (if minted.Failure? then ApiFailure(minted.error.MessageOr(SignupFailed))
                         else SessionResponse(profile, Some(ProfileKey(d.uid, generatedId)), token, minted.value))
                // as in `login`, a refused custom token keeps the stored profile
                && repo.db.docs == old(repo.db.docs)[ProfileKey(d.uid, generatedId) := profile]
    {
      var auth := repo.CreateUser(c);
      if auth.Failure? {
        return ApiFailure(auth.error.MessageOr(SignupFailed));
      }
      var decoded := repo.VerifyIdToken(auth.value.idToken);
      if decoded.Failure? {
        return ApiFailure(decoded.error.MessageOr(SignupFailed));
      }
      var d := decoded.value;
      var user, key := repo.CreateUserProfile(ProfileData(d, OrElse(d.name, c.displayName)), now, generatedId);
      var customToken := repo.GenerateCustomToken(d.uid);
      if customToken.Failure? {
        return ApiFailure(customToken.error.MessageOr(SignupFailed));
      }
      r := SessionResponse(user, Some(key), auth.value.idToken, customToken.value);
    }

    /**
     * `logout`: revokes refresh tokens and leaves profiles, and so token verification, as they were;
     * a failed revocation is an unauthorized reply that revokes nothing.
     */
    method Logout(uid: string) returns (r: ApiResponse)
      modifies repo
      ensures r.success <==> repo.revoker(uid).None?
      ensures repo.revoker(uid).None? ==> r == ApiResponse(true, StatusSuccess, None, None) && repo.revoked == old(repo.revoked) + {uid}
      ensures repo.revoker(uid).Some? ==> r == ApiFailure(repo.revoker(uid).value.MessageOr(LogoutFailed)) && repo.revoked == old(repo.revoked)
      ensures repo.db.docs == old(repo.db.docs)
    {
      var revoked := repo.RevokeSession(uid);
      if revoked.Failure? {
        return ApiFailure(revoked.error.MessageOr(LogoutFailed));
      }
      r := ApiResponse(true, StatusSuccess, None, None);
    }

    /** `verifyToken`: a token is accepted when it verifies and its user has a profile. */
    method VerifyToken(idToken: string) returns (r: ApiResponse)
      ensures r.success <==> repo.verifier(idToken).Success? && repo.verifier(idToken).value.uid in repo.db.docs
      ensures r.success ==>
                r == ApiResponse(true, StatusSuccess, Some(ProfileOnly(repo.db.docs[repo.verifier(idToken).value.uid])), None)
      ensures repo.verifier(idToken).Failure? ==> r == ApiFailure(repo.verifier(idToken).error.MessageOr(TokenVerificationFailed))
      ensures repo.verifier(idToken).Success? && repo.verifier(idToken).value.uid !in repo.db.docs ==> r == ApiFailure(ProfileNotFound)
    {
      var decoded := repo.VerifyIdToken(idToken);
      if decoded.Failure? {
        return ApiFailure(decoded.error.MessageOr(TokenVerificationFailed));
      }
      var profile := repo.GetUserProfile(decoded.value.uid);
      if profile.None? {
        return ApiFailure(ProfileNotFound);
      }
      r := ApiResponse(true, StatusSuccess, Some(ProfileOnly(profile.value)), None);
    }
  }
}
