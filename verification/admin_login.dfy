/** The admin login page (app/admin/login/page.tsx): the credential check
    and the session it records for the guard. The one-second simulated delay
    and the 1.5-second delayed navigation are not modelled as time; the
    outcome records whether the navigation to the dashboard is scheduled. */
module AdminLogin {
  import opened Optional
  import opened Text
  import opened AdminGuard
  import Toasts

  const AdminUsername: string := "admin"
  const AdminPassword: string := "humsafar2024"

  datatype Credentials = Credentials(username: string, password: string)

  predicate Valid(c: Credentials) {
    c.username == AdminUsername && c.password == AdminPassword
  }

  const WelcomeToast: Toasts.Request :=
    Toasts.Request("\U{1F389} Welcome back, Admin!", Toasts.Success, None, None, None)
  const RejectedToast: Toasts.Request :=
    Toasts.Request("\U{274C} Invalid credentials. Try again!", Toasts.Error, None, None, None)

  /** The page after `handleLogin` has run to its end. */
  datatype Outcome = Outcome(storage: Storage, toast: Toasts.Request, goesToDashboard: bool, isLoading: bool)

  /** `handleLogin`: the exact credentials record a session stamped `now`
      and head for the dashboard; anything else only shows an error. The
      loading flag is cleared on both paths. */
  function HandleLogin(c: Credentials, storage: Storage, now: nat): (r: Outcome)
    ensures !r.isLoading
    ensures r.goesToDashboard <==> Valid(c)
    ensures Valid(c) ==>
      && r.storage == storage[AdminKey := "true"][LoginTimeKey := NatToString(now)]
      && r.toast.kind == Toasts.Success
    ensures !Valid(c) ==> r.storage == storage && r.toast.kind == Toasts.Error
  {
    if Valid(c) then
      Outcome(storage[AdminKey := "true"][LoginTimeKey := NatToString(now)], WelcomeToast, true, false)
    else Outcome(storage, RejectedToast, false, false)
  }

  /** A successful login is honoured by the guard for any check less than a
      day later, and leaves the session in place. */
  lemma LoginThenGuardGrants(storage: Storage, loginAt: nat, now: int)
    requires now - loginAt < SessionMs
    ensures var s := HandleLogin(Credentials(AdminUsername, AdminPassword), storage, loginAt).storage;
            CheckAdminStatus(s, now) == Check(Granted, s)
  {
    ParseIntNatToString(loginAt);
  }

  /** From a day after login on, the guard refuses the session and removes
      it. */
  lemma LoginThenGuardExpires(storage: Storage, loginAt: nat, now: int)
    requires now - loginAt >= SessionMs
    ensures var s := HandleLogin(Credentials(AdminUsername, AdminPassword), storage, loginAt).storage;
            CheckAdminStatus(s, now) == Check(Denied, s - {AdminKey, LoginTimeKey})
  {
    ParseIntNatToString(loginAt);
  }

  /** Wrong credentials leave the guard's decision as it was. */
  lemma FailedLoginChangesNothing(c: Credentials, storage: Storage, loginAt: nat, now: int)
    requires !Valid(c)
    ensures CheckAdminStatus(HandleLogin(c, storage, loginAt).storage, now) == CheckAdminStatus(storage, now)
  {
  }
}
