/**
 * The admin login state: whether the user is authenticated, whether the mount
 * check is still pending, and the signed-in email, mirrored in two localStorage
 * keys. The credentials are a single hardcoded pair.
 */
module Auth {

  const AuthKey := "adminAuthenticated"
  const EmailKey := "adminEmail"
  const AdminEmail := "admin@restaurant.com"
  const AdminPassword := "admin123"
  const LoginPath := "/admin/login"

  /**
   * What the mount check reads from storage: authenticated exactly when the flag
   * is the string 'true' and a non-empty email is stored; the email when
   * authenticated, '' otherwise.
   */
  function MountCheck(storage: map<string, string>): (r: (bool, string))
    ensures r.0 <==> AuthKey in storage && storage[AuthKey] == "true" && EmailKey in storage && storage[EmailKey] != ""
    ensures r.0 ==> r.1 == storage[EmailKey]
    ensures !r.0 ==> r.1 == ""
  {
    if AuthKey in storage && storage[AuthKey] == "true" && EmailKey in storage && storage[EmailKey] != "" then
      (true, storage[EmailKey])
    else (false, "")
  }

  /** A mount check after a successful login finds the user signed in with the admin email. */
  lemma RemountAfterLogin(storage: map<string, string>)
    ensures MountCheck(storage[AuthKey := "true"][EmailKey := AdminEmail]) == (true, AdminEmail)
  {
  }

  /** A mount check after logout finds nobody signed in. */
  lemma RemountAfterLogout(storage: map<string, string>)
    ensures MountCheck(storage - {AuthKey, EmailKey}) == (false, "")
  {
  }

  class Session {
    var isAuthenticated: bool
    var isLoading: bool
    var userEmail: string
    /** localStorage, key to stored string. */
    var storage: map<string, string>

    /** Signed in exactly when an email is held. */
    ghost predicate Consistent()
      reads this
    {
      isAuthenticated <==> userEmail != ""
    }

    /** Once the mount check has run, the state agrees with what storage says. */
    ghost predicate InSync()
      reads this
    {
      !isLoading ==> (isAuthenticated, userEmail) == MountCheck(storage)
    }

    constructor (storage: map<string, string>)
      ensures Consistent() && InSync()
      ensures !isAuthenticated && isLoading && userEmail == "" && this.storage == storage
    {
      isAuthenticated := false;
      isLoading := true;
      userEmail := "";
      this.storage := storage;
    }

    /** `checkAuth`, run once on mount. */
    method CheckAuth()
      modifies this
      ensures Consistent() && InSync() && !isLoading
      ensures (isAuthenticated, userEmail) == MountCheck(storage) && storage == old(storage)
    {
      var authStatus := if AuthKey in storage then storage[AuthKey] else "";
      var hasStatus := AuthKey in storage;
      var email := if EmailKey in storage then storage[EmailKey] else "";
      if hasStatus && authStatus == "true" && email != "" {
        isAuthenticated := true;
        userEmail := email;
      } else {
        isAuthenticated := false;
        userEmail := "";
      }
      isLoading := false;
    }

    /** `login`: succeeds exactly for the hardcoded pair, and then writes both keys and signs in. */
    method Login(email: string, password: string) returns (ok: bool)
      requires Consistent() && InSync()
      modifies this
      ensures Consistent() && InSync()
      ensures ok <==> email == AdminEmail && password == AdminPassword
      ensures ok ==> storage == old(storage)[AuthKey := "true"][EmailKey := email]
                     && isAuthenticated && userEmail == email && isLoading == old(isLoading)
      ensures !ok ==> storage == old(storage) && isAuthenticated == old(isAuthenticated)
                      && userEmail == old(userEmail) && isLoading == old(isLoading)
    {
      if email == AdminEmail && password == AdminPassword {
        storage := storage[AuthKey := "true"][EmailKey := email];
        isAuthenticated := true;
        userEmail := email;
        ok := true;
      } else {
        ok := false;
      }
    }

    /** `logout`: removes both keys, signs out and navigates to the login page. */
    method Logout() returns (navigateTo: string)
      requires Consistent() && InSync()
      modifies this
      ensures Consistent() && InSync()
      ensures storage == old(storage) - {AuthKey, EmailKey}
      ensures !isAuthenticated && userEmail == "" && isLoading == old(isLoading)
      ensures navigateTo == LoginPath
    {
      storage := storage - {AuthKey, EmailKey};
      isAuthenticated := false;
      userEmail := "";
      navigateTo := LoginPath;
    }
  }
}
