/** The redirect decision of `useAuthGuard` (client/src/hooks/useAuthGuard.ts), from the current
    path and what `authUtils` reports about the stored user. */
module AuthGuard {
  import opened Wrappers
  import opened AuthUtils

  const LoginPath := "/login"
  const SignupPath := "/signup"
  const OtpPath := "/otp-verification"
  const HomePath := "/"

  predicate IsAuthPage(path: string) {
    path in [LoginPath, SignupPath, OtpPath]
  }

  /** Where the effect navigates (with `replace`), or `None` when it stays. */
  function Redirect(path: string, storage: Storage): (target: Option<string>)
    requires storage.Valid()
    reads storage
    ensures target.Some? ==> IsAuthPage(path)
    ensures target.Some? ==> target.value == HomePath || target.value == LoginPath
  {
    if IsAuthPage(path) && storage.ShouldRedirectFromAuth() then Some(HomePath)
    else if path == OtpPath then
      var user := storage.GetUser();
      if user.None? || user.value.isVerified then Some(LoginPath) else None
    else None
  }

  /** Only the three auth pages can redirect. */
  lemma OtherPagesStay(path: string, storage: Storage)
    requires storage.Valid() && !IsAuthPage(path)
    ensures Redirect(path, storage) == None
  {
  }

  /** A signed-in, verified user is sent home from every auth page, the OTP page included. */
  lemma VerifiedUserGoesHome(path: string, storage: Storage)
    requires storage.Valid() && IsAuthPage(path)
    requires storage.GetUser().Some? && storage.GetUser().value.isVerified
    ensures Redirect(path, storage) == Some(HomePath)
  {
  }

  /** The OTP page sends to the login page exactly when nobody is stored. */
  lemma OtpPageWithoutUser(storage: Storage)
    requires storage.Valid()
    ensures Redirect(OtpPath, storage) == Some(LoginPath) <==> storage.GetUser().None?
  {
  }

  /** An unverified stored user may stay on every auth page. */
  lemma UnverifiedUserStays(path: string, storage: Storage)
    requires storage.Valid() && storage.GetUser().Some? && !storage.GetUser().value.isVerified
    ensures Redirect(path, storage) == None
  {
  }

  /** A visitor with no stored user may stay on the login and signup pages. */
  lemma AnonymousVisitorStays(path: string, storage: Storage)
    requires storage.Valid() && storage.GetUser().None? && (path == LoginPath || path == SignupPath)
    ensures Redirect(path, storage) == None
  {
  }
}
