/** The session holder of the mobile screens (src/utils/AuthContext.tsx): at
    most one signed-in user, stamped with a simulated token on login. */
module AuthContext {
  import opened Wrappers
  import opened Domain
  import opened MockData

  datatype SessionUser = SessionUser(
    id: string,
    name: string,
    mobile: string,
    role: Role,
    location: GeoPoint,
    token: Option<string>)

  /** `jwt_<role>_<timestamp>`; the timestamp's decimal text is a parameter. */
  function Token(role: Role, stamp: string): (t: string)
    ensures |t| > 4 && t[..4] == "jwt_"
  {
    "jwt_" + RoleName(role) + "_" + stamp
  }

  /** Reads the role back from the token's prefix. */
  function TokenRole(t: string): (r: Option<Role>)
    ensures r == Some(Farmer) ==> "jwt_farmer_" <= t
    ensures r == Some(Consumer) ==> "jwt_consumer_" <= t
    ensures r == Some(Admin) ==> "jwt_admin_" <= t
  {
    if "jwt_farmer_" <= t then Some(Farmer)
    else if "jwt_consumer_" <= t then Some(Consumer)
    else if "jwt_admin_" <= t then Some(Admin)
    else None
  }

  /** Every token names the role it was made for. */
  lemma TokenNamesRole(role: Role, stamp: string)
    ensures TokenRole(Token(role, stamp)) == Some(role)
  {
    var t := Token(role, stamp);
    assert t == "jwt_" + RoleName(role) + "_" + stamp;
    match role
    case Farmer =>
      assert t[..11] == "jwt_farmer_";
    case Consumer =>
      assert t[..13] == "jwt_consumer_";
      assert t[4] == 'c';
    case Admin =>
      assert t[..10] == "jwt_admin_";
      assert t[4] == 'a';
  }

  class AuthProvider {
    var user: Option<SessionUser>

    constructor ()
      ensures user == None && !IsAuthenticated()
    {
      user := None;
    }

    /** `isAuthenticated: !!user`. */
    predicate IsAuthenticated()
      reads this
      ensures IsAuthenticated() <==> user != None
    {
      user.Some?
    }

    /** `login`: the given record unchanged except for a fresh token. */
    method Login(userData: SessionUser, stamp: string)
      modifies this
      ensures user == Some(userData.(token := Some(Token(userData.role, stamp))))
      ensures IsAuthenticated()
      ensures TokenRole(user.value.token.value) == Some(userData.role)
    {
      TokenNamesRole(userData.role, stamp);
      user := Some(userData.(token := Some(Token(userData.role, stamp))));
    }

    method Logout()
      modifies this
      ensures user == None && !IsAuthenticated()
    {
      user := None;
    }
  }

  datatype AuthError = OutsideProvider

  /** `useAuth`: the context when a provider is above the caller, an error
      otherwise. */
  function UseAuth(context: Option<AuthProvider>): (r: Result<AuthProvider, AuthError>)
    ensures r.Ok? <==> context.Some?
    ensures context.Some? ==> r.value == context.value
  {
    match context
    case Some(provider) => Ok(provider)
    case None => Err(OutsideProvider)
  }
}
