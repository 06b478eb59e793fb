/** The application shell (src/App.tsx): one-time seeding of storage with the
    administrator account, the splash screen and its tap counter, the
    signed-in user kept across reloads, and the choice of screen by role. */
module App {
  import opened Wrappers
  import opened Domain
  import opened Storage
  import AuthScreen

  const AdminId := "admin_secret"
  const AdminMobile := "admin"
  const AdminPassword := "admin@2025"

  /** The administrator account written on first run; `now` is its creation
      time. */
  function SeedAdmin(now: int): (a: Account)
    ensures a.profile.role == Admin && a.profile.id == AdminId
    ensures a.profile.mobile == AdminMobile && a.password == AdminPassword
  {
    Account(User(AdminId, "System Administrator", AdminMobile, Admin,
                 Location(28.6139, 77.2090, "System", "System"), now),
            AdminPassword)
  }

  /** The four storage entries seeding touches. */
  datatype Seedable = Seedable(users: seq<Account>, products: seq<Product>, orders: seq<Order>, initialized: bool)

  /** `initializeDemoData`: nothing when the marker is present; otherwise
      exactly the administrator, no listings, no orders, and the marker. */
  function Seeded(s: Seedable, now: int): (r: Seedable)
    ensures r.initialized
    ensures s.initialized ==> r == s
    ensures !s.initialized ==> r.users == [SeedAdmin(now)] && r.products == [] && r.orders == []
  {
    if s.initialized then s else Seedable([SeedAdmin(now)], [], [], true)
  }

  /** Seeding twice, at any two times, is seeding once. */
  lemma SeedingIsIdempotent(s: Seedable, now1: int, now2: int)
    ensures Seeded(Seeded(s, now1), now2) == Seeded(s, now1)
  {
  }

  /** The screen shown: the splash first, then sign-in with nobody signed
      in, then the farmer dashboard, the admin panel or the consumer shell
      by role. */
  datatype Screen = SplashScreen | AuthScreenView | FarmerDashboardView | AdminPanelView | ConsumerMainView

  function Route(showSplash: bool, currentUser: Option<User>): (s: Screen)
    ensures showSplash <==> s == SplashScreen
    ensures !showSplash && currentUser.None? <==> s == AuthScreenView
    ensures s == FarmerDashboardView <==> !showSplash && currentUser.Some? && currentUser.value.role == Farmer
    ensures s == AdminPanelView <==> !showSplash && currentUser.Some? && currentUser.value.role == Admin
    ensures s == ConsumerMainView <==> !showSplash && currentUser.Some? && currentUser.value.role == Consumer
  {
    if showSplash then SplashScreen
    else match currentUser
      case None => AuthScreenView
      case Some(u) =>
        match u.role
        case Farmer => FarmerDashboardView
        case Admin => AdminPanelView
        case Consumer => ConsumerMainView
  }

  /** The splash taps needed before the one that hides it. */
  const SplashTapThreshold := 4

  datatype SplashState = SplashState(showSplash: bool, attempts: int)

  /** `handleSplashClick`: the counter goes up; when it already stood at four
      or more, the splash is hidden and the counter is reset to zero. */
  function SplashTap(s: SplashState): (r: SplashState)
    ensures s.attempts >= SplashTapThreshold ==> r == SplashState(false, 0)
    ensures s.attempts < SplashTapThreshold ==> r == s.(attempts := s.attempts + 1)
  {
    if s.attempts >= SplashTapThreshold then SplashState(false, 0)
    else s.(attempts := s.attempts + 1)
  }

  function Taps(s: SplashState, k: nat): SplashState
    decreases k
  {
    if k == 0 then s else Taps(SplashTap(s), k - 1)
  }

  /** From a fresh splash, the first four taps only count. */
  lemma {:induction false} FirstTapsOnlyCount(k: nat)
    requires k <= SplashTapThreshold
    ensures Taps(SplashState(true, 0), k) == SplashState(true, k)
  {
    if k > 0 {
      FirstTapsOnlyCount(k - 1);
      TapsSplit(SplashState(true, 0), k - 1);
    }
  }

  lemma {:induction false} TapsSplit(s: SplashState, k: nat)
    ensures Taps(s, k + 1) == SplashTap(Taps(s, k))
    decreases k
  {
    if k > 0 {
      TapsSplit(SplashTap(s), k - 1);
    }
  }

  /** The fifth tap hides the splash and resets the counter. */
  lemma FifthTapHidesSplash()
    ensures Taps(SplashState(true, 0), SplashTapThreshold + 1) == SplashState(false, 0)
    ensures forall k :: 0 <= k <= SplashTapThreshold ==> Taps(SplashState(true, 0), k).showSplash
  {
    FirstTapsOnlyCount(SplashTapThreshold);
    TapsSplit(SplashState(true, 0), SplashTapThreshold);
    forall k | 0 <= k <= SplashTapThreshold ensures Taps(SplashState(true, 0), k).showSplash {
      FirstTapsOnlyCount(k);
    }
  }

  /** As written, the login mobile field keeps digits only, so no login can
      return an account whose mobile has a letter in it, and the seeded
      administrator ("admin") can never sign in. */
  lemma SanitizedLoginMissesAdmin(users: seq<Account>, input: string, password: string)
    ensures var r := AuthScreen.Login(users, AuthScreen.SanitizeMobile(input), password);
            r.Some? ==> r.value.mobile != AdminMobile
  {
    var typed := AuthScreen.SanitizeMobile(input);
    if |typed| == |AdminMobile| {
      assert AuthScreen.IsDigit(typed[0]);
      assert typed != AdminMobile by { assert !AuthScreen.IsDigit(AdminMobile[0]); }
    }
  }

  /** With the corrected field, the administrator signs in on a freshly seeded
      store with the fixed credentials. */
  lemma SeededAdminCanLogIn(now: int)
    ensures AuthScreen.Login(Seeded(Seedable([], [], [], false), now).users,
                             AuthScreen.MobileFieldValue(true, AdminMobile), AdminPassword)
            == Some(SeedAdmin(now).profile)
  {
    var users := [SeedAdmin(now)];
    assert AuthScreen.Matches(users[0], AdminMobile, AdminPassword);
    assert AuthScreen.FindAccount(users, AdminMobile, AdminPassword) == Some(0);
  }

  class App {
    const store: Store
    var showSplash: bool
    var currentUser: Option<User>
    var adminAttempts: int

    function Storage(): Seedable
      reads store
    {
      Seedable(store.users, store.products, store.orders, store.initialized)
    }

    /** Mount: seed storage if needed, restore the saved user, show the
        splash with the counter at zero. */
    constructor (store: Store, now: int)
      modifies store`users, store`products, store`orders, store`initialized
      ensures this.store == store
      ensures Storage() ==
        Seeded(old(Seedable(store.users, store.products, store.orders, store.initialized)), now)
      ensures currentUser == store.savedUser && showSplash && adminAttempts == 0
    {
      this.store := store;
      showSplash, adminAttempts := true, 0;
      currentUser := store.savedUser;
      new;
      InitializeDemoData(now);
    }

    method InitializeDemoData(now: int)
      modifies store`users, store`products, store`orders, store`initialized
      ensures Storage() == Seeded(old(Storage()), now)
    {
      if !store.initialized {
        store.users := [SeedAdmin(now)];
        store.products := [];
        store.orders := [];
        store.initialized := true;
      }
    }

    /** The splash timer running out. */
    method SplashTimeout()
      modifies this`showSplash
      ensures !showSplash
    {
      showSplash := false;
    }

    method HandleSplashClick()
      modifies this`showSplash, this`adminAttempts
      ensures SplashState(showSplash, adminAttempts) == SplashTap(old(SplashState(showSplash, adminAttempts)))
    {
      var next := SplashTap(SplashState(showSplash, adminAttempts));
      showSplash, adminAttempts := next.showSplash, next.attempts;
    }

    /** `handleLogin`: the user becomes current and is saved for reloads. */
    method HandleLogin(u: User)
      modifies this`currentUser, store`savedUser
      ensures currentUser == Some(u) && store.savedUser == Some(u)
    {
      currentUser := Some(u);
      store.savedUser := Some(u);
    }

    /** `handleLogout`: nobody is current and nothing is saved. */
    method HandleLogout()
      modifies this`currentUser, store`savedUser
      ensures currentUser == None && store.savedUser == None
      ensures !showSplash ==> CurrentScreen() == AuthScreenView
    {
      currentUser := None;
      store.savedUser := None;
    }

    /** The screen App renders: the splash while it shows, then the sign-in
        screen for nobody, otherwise the screen for the user's role. */
    function CurrentScreen(): (s: Screen)
      reads this
      ensures showSplash <==> s == SplashScreen
      ensures s == AuthScreenView <==> !showSplash && currentUser == None
      ensures s == FarmerDashboardView <==> !showSplash && currentUser.Some? && currentUser.value.role == Farmer
      ensures s == AdminPanelView <==> !showSplash && currentUser.Some? && currentUser.value.role == Admin
      ensures s == ConsumerMainView <==> !showSplash && currentUser.Some? && currentUser.value.role == Consumer
    {
      Route(showSplash, currentUser)
    }
  }
}
