/**
 * The signed-in salon owner: a single current user, checked against a fixed roster of demo
 * accounts (src/contexts/AuthContext.tsx). Browser storage, toasts and the simulated network
 * delays are not modelled; the clock is a parameter.
 */
module SessionStore {
  import opened Wrappers
  import opened ArrayOps

  datatype Plan = Trial | Starter | Professional | Enterprise

  /** The session record: an account without its password. */
  datatype User = User(
    id: string,
    email: string,
    name: string,
    salonName: string,
    phone: string,
    address: string,
    avatar: Option<string>,
    joinDate: string,
    subscription: Plan,
    subscriptionExpiry: string)

  /** A roster entry: the user's fields plus a clear-text password. */
  datatype Account = Account(
    id: string,
    email: string,
    password: string,
    name: string,
    salonName: string,
    phone: string,
    address: string,
    joinDate: string,
    subscription: Plan,
    subscriptionExpiry: string)

  /** `Partial<User>`: a field is overwritten exactly when the patch supplies it. */
  datatype UserPatch = UserPatch(
    id: Option<string>,
    email: Option<string>,
    name: Option<string>,
    salonName: Option<string>,
    phone: Option<string>,
    address: Option<string>,
    avatar: Option<Option<string>>,
    joinDate: Option<string>,
    subscription: Option<Plan>,
    subscriptionExpiry: Option<string>)

  /** The fixed demo roster. */
  function DemoUsers(): seq<Account> {
    [ Account("1", "demo@sniprewards.com", "demo123", "John Mwangi", "Elite Cuts & Styles",
              "+27712345678", "123 Sandton Drive, Johannesburg", "2024-01-01",
              Professional, "2024-12-31"),
      Account("2", "sarah@beautysalon.co.za", "sarah123", "Sarah Williams", "Beauty & Grace Salon",
              "+27823456789", "456 Cape Town Street, Cape Town", "2024-01-15",
              Starter, "2024-06-15") ]
  }

  /** Length of the free trial: 14 days in milliseconds. */
  const TrialMillis: int := 14 * 24 * 60 * 60 * 1000

  /** The roster entry whose email and password both match, first in roster order. */
  function MatchCredentials(roster: seq<Account>, email: string, password: string): (r: Option<Account>)
    ensures r.None? <==> forall i :: 0 <= i < |roster| ==> !(roster[i].email == email && roster[i].password == password)
    ensures r.Some? ==> r.value in roster && r.value.email == email && r.value.password == password
  {
    Find(roster, (a: Account) => a.email == email && a.password == password)
  }

  /** Whether some roster entry already uses `email` (the `some` check of registration). */
  predicate EmailTaken(roster: seq<Account>, email: string) {
    exists i :: 0 <= i < |roster| && roster[i].email == email
  }

  function WithoutPassword(a: Account): User {
    User(a.id, a.email, a.name, a.salonName, a.phone, a.address, None, a.joinDate,
         a.subscription, a.subscriptionExpiry)
  }

  /** `{ ...user, ...updates }`. */
  function MergeUser(u: User, p: UserPatch): (r: User)
    ensures p == UserPatch(None, None, None, None, None, None, None, None, None, None) ==> r == u
  {
    User(p.id.GetOr(u.id), p.email.GetOr(u.email), p.name.GetOr(u.name),
         p.salonName.GetOr(u.salonName), p.phone.GetOr(u.phone), p.address.GetOr(u.address),
         p.avatar.GetOr(u.avatar), p.joinDate.GetOr(u.joinDate),
         p.subscription.GetOr(u.subscription), p.subscriptionExpiry.GetOr(u.subscriptionExpiry))
  }

  /** Patching with what is already there changes nothing; patching twice is patching once. */
  lemma MergeUserIdempotent(u: User, p: UserPatch)
    ensures MergeUser(MergeUser(u, p), p) == MergeUser(u, p)
  {
  }

  /**
   * Registration only consults the fixed roster, and login only consults the fixed roster:
   * an email that registration accepts can never be used to log in, whatever the password.
   */
  lemma RegisteredEmailCannotLogIn(email: string, password: string)
    requires !EmailTaken(DemoUsers(), email)
    ensures MatchCredentials(DemoUsers(), email, password).None?
  {
  }

  /** The documented demo credentials log in as the first roster entry. */
  lemma DemoCredentialsWork()
    ensures MatchCredentials(DemoUsers(), "demo@sniprewards.com", "demo123") == Some(DemoUsers()[0])
    ensures MatchCredentials(DemoUsers(), "demo@sniprewards.com", "sarah123").None?
  {
    assert DemoUsers()[0].email == "demo@sniprewards.com";
    assert DemoUsers()[1].email != "demo@sniprewards.com";
  }

  class Session {
    var user: Option<User>
    var isLoading: bool

    /** Mounting the provider: restore a stored session (parsed by the caller), then stop loading. */
    constructor (stored: Option<User>)
      ensures user == stored && !isLoading
    {
      user := stored;
      isLoading := false;
    }

    /** `login`: succeeds exactly when a roster entry matches both email and password. */
    method Login(email: string, password: string) returns (ok: bool)
      modifies this
      ensures ok <==> MatchCredentials(DemoUsers(), email, password).Some?
      ensures ok ==> user == Some(WithoutPassword(MatchCredentials(DemoUsers(), email, password).value))
      ensures !ok ==> user == old(user)
      ensures !isLoading
    {
      isLoading := true;
      var found := MatchCredentials(DemoUsers(), email, password);
      if found.Some? {
        user := Some(WithoutPassword(found.value));
        isLoading := false;
        ok := true;
      } else {
        isLoading := false;
        ok := false;
      }
    }

    /**
     * `register`: refused when the email is on the roster; otherwise starts a trial session
     * whose expiry is `now` plus 14 days (`iso` renders an instant as an ISO string).
     */
    method Register(email: string, password: string, name: string, salonName: string,
                    phone: string, address: string,
                    id: string, joinDate: string, now: int, iso: int -> string)
      returns (ok: bool)
      modifies this
      ensures ok <==> !EmailTaken(DemoUsers(), email)
      ensures ok ==> user == Some(User(id, email, name, salonName, phone, address, None, joinDate,
                                       Trial, iso(now + TrialMillis)))
      ensures !ok ==> user == old(user)
      ensures !isLoading
    {
      isLoading := true;
      if EmailTaken(DemoUsers(), email) {
        isLoading := false;
        ok := false;
      } else {
        user := Some(User(id, email, name, salonName, phone, address, None, joinDate,
                          Trial, iso(now + TrialMillis)));
        isLoading := false;
        ok := true;
      }
    }

    /** `logout`: no current user. */
    method Logout()
      modifies this`user
      ensures user.None?
    {
      user := None;
    }

    /** `updateProfile`: merge the supplied fields into the current user, if there is one. */
    method UpdateProfile(p: UserPatch)
      modifies this`user
      ensures user == if old(user).Some? then Some(MergeUser(old(user).value, p)) else None
    {
      if user.Some? {
        user := Some(MergeUser(user.value, p));
      }
    }
  }
}
