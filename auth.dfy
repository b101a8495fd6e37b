/** The account registry and the signed-in session (src/context/AuthContext.tsx).
    The module-level `mockUsers` array and the provider's `user` and
    `isLoading` state are fields of one object; the simulated network delays
    complete at once. */
module Auth {
  import opened Common

  datatype SubscriptionStatus = Trial | Active | Expired | Canceled

  datatype PaymentKind = CreditCard | PayPal

  datatype PaymentMethod = PaymentMethod(kind: PaymentKind, lastFour: Option<string>, expiryDate: Option<string>)

  /** An account holder. Dates are milliseconds since the epoch. */
  datatype UserProfile = UserProfile(
    id: string,
    email: string,
    name: string,
    company: Option<string>,
    subscriptionStatus: SubscriptionStatus,
    subscriptionPlan: Option<string>,
    subscriptionEndDate: Option<int>,
    createdAt: int,
    lastLogin: Option<int>,
    botsCreated: int,
    messagesUsed: int,
    paymentMethod: Option<PaymentMethod>)

  /** A `Partial<UserProfile>`: `None` means the key is absent. For an
      optional field, `Some(None)` is a key present with value `undefined`. */
  datatype ProfilePatch = ProfilePatch(
    id: Option<string>,
    email: Option<string>,
    name: Option<string>,
    company: Option<Option<string>>,
    subscriptionStatus: Option<SubscriptionStatus>,
    subscriptionPlan: Option<Option<string>>,
    subscriptionEndDate: Option<Option<int>>,
    createdAt: Option<int>,
    lastLogin: Option<Option<int>>,
    botsCreated: Option<int>,
    messagesUsed: Option<int>,
    paymentMethod: Option<Option<PaymentMethod>>)

  const NoProfileChanges := ProfilePatch(None, None, None, None, None, None, None, None, None, None, None, None)

  const DayMs := 24 * 60 * 60 * 1000

  /** The one seeded account; `now` is the time the module was loaded. */
  function DemoUser(now: int): UserProfile
  {
    UserProfile("user-1", "demo@example.com", "Demo User", Some("Demo Company"), Active, Some("pro"),
                Some(now + 30 * DayMs), now, Some(now), 3, 1250,
                Some(PaymentMethod(CreditCard, Some("4242"), Some("12/24"))))
  }

  /** The id of an account created at time `now`. */
  function AccountId(now: int): string
  {
    "user-" + IntToString(now)
  }

  /** The account `signup` creates at time `now`: on trial for fourteen
      days, no company, no plan, nothing used yet. */
  function NewAccount(email: string, name: string, now: int): UserProfile
  {
    UserProfile(AccountId(now), email, name, None, Trial, None, Some(now + 14 * DayMs), now, Some(now), 0, 0, None)
  }

  /** `{ ...u, ...p }`: a supplied field replaces, every other field is kept. */
  function MergeProfile(u: UserProfile, p: ProfilePatch): UserProfile
  {
    UserProfile(
      Override(u.id, p.id), Override(u.email, p.email), Override(u.name, p.name),
      Override(u.company, p.company), Override(u.subscriptionStatus, p.subscriptionStatus),
      Override(u.subscriptionPlan, p.subscriptionPlan),
      Override(u.subscriptionEndDate, p.subscriptionEndDate), Override(u.createdAt, p.createdAt),
      Override(u.lastLogin, p.lastLogin), Override(u.botsCreated, p.botsCreated),
      Override(u.messagesUsed, p.messagesUsed), Override(u.paymentMethod, p.paymentMethod))
  }

  /** Merging nothing keeps the profile; merging the same patch twice is
      merging it once. */
  lemma MergeProfileLaws(u: UserProfile, p: ProfilePatch)
    ensures MergeProfile(u, NoProfileChanges) == u
    ensures MergeProfile(MergeProfile(u, p), p) == MergeProfile(u, p)
  {
  }

  predicate HasEmail(email: string, u: UserProfile) { u.email == email }

  /** `mockUsers.find(u => u.email === email)`. */
  function LookupEmail(registry: seq<UserProfile>, email: string): (r: Option<UserProfile>)
    ensures r.Some? ==> r.value in registry && r.value.email == email
    ensures r.None? <==> forall k :: 0 <= k < |registry| ==> registry[k].email != email
  {
    Find(registry, u => HasEmail(email, u))
  }

  /** No two registered accounts share an email address. */
  ghost predicate DistinctEmails(registry: seq<UserProfile>)
  {
    forall i, j :: 0 <= i < j < |registry| ==> registry[i].email != registry[j].email
  }

  /** With distinct emails, the lookup finds the one account holding the email. */
  lemma LookupFindsTheAccount(registry: seq<UserProfile>, k: nat)
    requires DistinctEmails(registry) && k < |registry|
    ensures LookupEmail(registry, registry[k].email) == Some(registry[k])
  {
    var r := LookupEmail(registry, registry[k].email);
    var j :| 0 <= j < |registry| && registry[j] == r.value && registry[j].email == registry[k].email;
    assert j == k;
  }

  /** Appending an account whose email is not yet registered keeps emails distinct. */
  lemma SignupKeepsEmailsDistinct(registry: seq<UserProfile>, account: UserProfile)
    requires DistinctEmails(registry)
    requires LookupEmail(registry, account.email).None?
    ensures DistinctEmails(registry + [account])
  {
  }

  class AuthProvider {
    /** The module-level `mockUsers` array. */
    var registry: seq<UserProfile>
    /** The signed-in account; `None` is `null`. */
    var user: Option<UserProfile>
    var isLoading: bool

    ghost predicate Valid()
      reads this
    {
      DistinctEmails(registry)
    }

    /** The provider as first rendered: nobody signed in, still loading,
        only the demo account registered. */
    constructor (now: int)
      ensures Valid()
      ensures registry == [DemoUser(now)] && user == None && isLoading
    {
      registry := [DemoUser(now)];
      user := None;
      isLoading := true;
    }

    /** The mount effect: adopt the stored session, if any, and stop loading.
        `stored` is what local storage held; with nothing stored the session
        is left as it was. */
    method Restore(stored: Option<UserProfile>)
      requires Valid()
      modifies this
      ensures Valid()
      ensures registry == old(registry) && !isLoading
      ensures user == if stored.Some? then stored else old(user)
    {
      if stored.Some? {
        user := stored;
      }
      isLoading := false;
    }

    /** `isAuthenticated`: `!!user`. */
    function IsAuthenticated(): (r: bool)
      reads this
      ensures r <==> user.Some?
    {
      user.Some?
    }

    /** `login`: the first account with this email is signed in with its
        `lastLogin` set to `now`; the password is never looked at. An unknown
        email leaves the session as it was. */
    method Login(email: string, password: string, now: int) returns (ok: bool)
      requires Valid()
      modifies this
      ensures Valid() && registry == old(registry) && !isLoading
      ensures ok <==> exists k :: 0 <= k < |registry| && registry[k].email == email
      ensures ok ==> user.Some? && user.value.email == email &&
                     user == Some(LookupEmail(registry, email).value.(lastLogin := Some(now)))
      ensures !ok ==> user == old(user)
    {
      isLoading := true;
      var found := LookupEmail(registry, email);
      if found.None? {
        ok := false;
      } else {
        user := Some(found.value.(lastLogin := Some(now)));
        ok := true;
      }
      isLoading := false;
    }

    /** `signup`: refused when the email is registered already; otherwise
        exactly one trial account is appended and signed in. */
    method Signup(email: string, password: string, name: string, now: int) returns (ok: bool)
      requires Valid()
      modifies this
      ensures Valid() && !isLoading
      ensures ok <==> forall k :: 0 <= k < |old(registry)| ==> old(registry)[k].email != email
      ensures ok ==> registry == old(registry) + [NewAccount(email, name, now)] &&
                     user == Some(NewAccount(email, name, now))
      ensures !ok ==> registry == old(registry) && user == old(user)
    {
      isLoading := true;
      if LookupEmail(registry, email).Some? {
        ok := false;
      } else {
        var account := NewAccount(email, name, now);
        SignupKeepsEmailsDistinct(registry, account);
        registry := registry + [account];
        user := Some(account);
        ok := true;
      }
      isLoading := false;
    }

    /** `logout`: nobody is signed in afterwards, and the app navigates to
        the landing page, the route returned. */
    method Logout() returns (goTo: string)
      requires Valid()
      modifies this
      ensures Valid() && registry == old(registry) && isLoading == old(isLoading)
      ensures user == None && goTo == "/"
    {
      user := None;
      goTo := "/";
    }

    /** `updateProfile`: with nobody signed in nothing changes; otherwise the
        supplied fields of the session's profile are replaced. The registry
        itself is never updated. */
    method UpdateProfile(patch: ProfilePatch)
      requires Valid()
      modifies this
      ensures Valid() && registry == old(registry) && !isLoading
      ensures user == if old(user).None? then None else Some(MergeProfile(old(user).value, patch))
    {
      isLoading := true;
      if user.Some? {
        user := Some(MergeProfile(user.value, patch));
      }
      isLoading := false;
    }
  }

  /** After a successful signup the new account is the one a login with the
      same email finds. */
  lemma LoginAfterSignup(registry: seq<UserProfile>, email: string, name: string, now: int)
    requires DistinctEmails(registry)
    requires LookupEmail(registry, email).None?
    ensures LookupEmail(registry + [NewAccount(email, name, now)], email) == Some(NewAccount(email, name, now))
  {
    var reg := registry + [NewAccount(email, name, now)];
    SignupKeepsEmailsDistinct(registry, NewAccount(email, name, now));
    LookupFindsTheAccount(reg, |registry|);
  }
}
