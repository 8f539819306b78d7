/**
 * The credential side of the provider: the Java classes a credential can have
 * (for `supports`), the user objects the session holds, and the mutable
 * `Auth0JWTToken` that `authenticate` fills in.
 */
module Credentials {
  import opened Wrappers

  /**
   * The runtime classes a credential handed to the provider may have.  The
   * reflective check `Class.isAssignableFrom` is modelled over this small
   * hierarchy; `Auth0JWTTokenSubclass` stands for any class an application
   * derives from `Auth0JWTToken`.
   */
  datatype JavaClass =
    | ObjectClass
    | AuthenticationInterface
    | AbstractAuthenticationTokenClass
    | Auth0JWTTokenClass
    | Auth0JWTTokenSubclass
    | UsernamePasswordAuthenticationTokenClass
    | AnonymousAuthenticationTokenClass

  /** Height of a class above the root of the hierarchy. */
  function Depth(c: JavaClass): nat
  {
    match c
    case ObjectClass => 0
    case AuthenticationInterface => 1
    case AbstractAuthenticationTokenClass => 2
    case Auth0JWTTokenClass => 3
    case Auth0JWTTokenSubclass => 4
    case UsernamePasswordAuthenticationTokenClass => 3
    case AnonymousAuthenticationTokenClass => 3
  }

  /** The superclass and the interfaces a class directly extends or implements. */
  function DirectSupertypes(c: JavaClass): (r: set<JavaClass>)
    ensures forall p :: p in r ==> Depth(p) < Depth(c)
  {
    match c
    case ObjectClass => {}
    case AuthenticationInterface => {ObjectClass}
    case AbstractAuthenticationTokenClass => {ObjectClass, AuthenticationInterface}
    case Auth0JWTTokenClass => {AbstractAuthenticationTokenClass}
    case Auth0JWTTokenSubclass => {Auth0JWTTokenClass}
    case UsernamePasswordAuthenticationTokenClass => {AbstractAuthenticationTokenClass}
    case AnonymousAuthenticationTokenClass => {AbstractAuthenticationTokenClass}
  }

  /** `sup.isAssignableFrom(sub)`: `sub` is `sup` or reaches it through its supertypes. */
  predicate IsAssignableFrom(sup: JavaClass, sub: JavaClass)
    decreases Depth(sub)
  {
    sub == sup || exists p :: p in DirectSupertypes(sub) && IsAssignableFrom(sup, p)
  }

  /** A supertype never lies below its subtype. */
  lemma {:induction false} AssignableDepth(sup: JavaClass, sub: JavaClass)
    requires IsAssignableFrom(sup, sub)
    ensures Depth(sup) <= Depth(sub)
    decreases Depth(sub)
  {
    if sub != sup {
      var p :| p in DirectSupertypes(sub) && IsAssignableFrom(sup, p);
      AssignableDepth(sup, p);
    }
  }

  /** Assignability is transitive: a subtype of a subtype is a subtype. */
  lemma {:induction false} AssignableTransitive(a: JavaClass, b: JavaClass, c: JavaClass)
    requires IsAssignableFrom(a, b) && IsAssignableFrom(b, c)
    ensures IsAssignableFrom(a, c)
    decreases Depth(c)
  {
    if c != b {
      var p :| p in DirectSupertypes(c) && IsAssignableFrom(b, p);
      AssignableTransitive(a, b, p);
    }
  }

  /** Within the modelled hierarchy, exactly two classes are `Auth0JWTToken` or below it. */
  lemma Auth0JWTTokenFamily(c: JavaClass)
    ensures IsAssignableFrom(Auth0JWTTokenClass, c)
        <==> c == Auth0JWTTokenClass || c == Auth0JWTTokenSubclass
  {
    match c
    case Auth0JWTTokenClass =>
    case Auth0JWTTokenSubclass =>
      assert Auth0JWTTokenClass in DirectSupertypes(c);
    case ObjectClass =>
      NotAboveAuth0JWTToken(c);
    case AuthenticationInterface =>
      NotAboveAuth0JWTToken(c);
    case AbstractAuthenticationTokenClass =>
      NotAboveAuth0JWTToken(c);
    case UsernamePasswordAuthenticationTokenClass =>
      NotAboveAuth0JWTToken(AbstractAuthenticationTokenClass);
    case AnonymousAuthenticationTokenClass =>
      NotAboveAuth0JWTToken(AbstractAuthenticationTokenClass);
  }

  /** No class shallower than `Auth0JWTToken` can be assigned to it. */
  lemma NotAboveAuth0JWTToken(c: JavaClass)
    requires Depth(c) < Depth(Auth0JWTTokenClass)
    ensures !IsAssignableFrom(Auth0JWTTokenClass, c)
  {
    if IsAssignableFrom(Auth0JWTTokenClass, c) {
      AssignableDepth(Auth0JWTTokenClass, c);
    }
  }

  /** The user object the login flow stores in the HTTP session (`com.auth0.web.Auth0User`). */
  datatype Auth0User = Auth0User(userId: string, profile: map<string, string>)

  /** The principal the provider builds around the session user. */
  datatype Auth0UserDetails = Auth0UserDetails(user: Auth0User)

  /** A claim value of a decoded token payload. */
  datatype ClaimValue = Text(text: string) | Number(number: int) | Flag(flag: bool) | Nested(json: string)

  /** The decoded claims of a token, claim name to value. */
  type Claims = map<string, ClaimValue>

  /** The part of a credential's state that `authenticate` can change. */
  datatype TokenState = TokenState(
    authenticated: bool,
    principal: Option<Auth0UserDetails>,
    details: Option<Claims>)

  /** One call of a credential setter, in the order it is made. */
  datatype Mutation =
    | SetAuthenticatedTo(flag: bool)
    | SetPrincipalTo(newPrincipal: Auth0UserDetails)
    | SetDetailsTo(newDetails: Claims)

  /** The effect of one setter call on a credential's state. */
  function Apply(s: TokenState, m: Mutation): (t: TokenState)
    ensures m.SetAuthenticatedTo? ==> t.principal == s.principal && t.details == s.details
    ensures m.SetPrincipalTo? ==> t.authenticated == s.authenticated && t.details == s.details
    ensures m.SetDetailsTo? ==> t.authenticated == s.authenticated && t.principal == s.principal
  {
    match m
    case SetAuthenticatedTo(b) => s.(authenticated := b)
    case SetPrincipalTo(p) => s.(principal := Some(p))
    case SetDetailsTo(d) => s.(details := Some(d))
  }

  /** The effect of a sequence of setter calls, made left to right. */
  function ApplyAll(s: TokenState, ms: seq<Mutation>): TokenState
    decreases |ms|
  {
    if ms == [] then s else ApplyAll(Apply(s, ms[0]), ms[1..])
  }

  /** Applying one setter call through `ApplyAll` is `Apply`. */
  lemma ApplyAllSingle(s: TokenState, m: Mutation)
    ensures ApplyAll(s, [m]) == Apply(s, m)
  {
    assert [m][1..] == [];
  }

  /** Applying a concatenation is applying one part after the other. */
  lemma {:induction false} ApplyAllAppend(s: TokenState, a: seq<Mutation>, b: seq<Mutation>)
    ensures ApplyAll(s, a + b) == ApplyAll(ApplyAll(s, a), b)
    decreases |a|
  {
    if a == [] {
      assert a + b == b;
    } else {
      assert (a + b)[0] == a[0];
      assert (a + b)[1..] == a[1..] + b;
      ApplyAllAppend(Apply(s, a[0]), a[1..], b);
    }
  }

  /**
   * The bearer credential `Auth0JWTToken`: the raw token string and the
   * fields that a successful authentication fills in.  `history` records
   * every setter call in order, so that callers can state the order of
   * mutations and not only the final state.
   */
  class Auth0JWTToken {
    const jwt: string
    var authenticated: bool
    var principal: Option<Auth0UserDetails>
    var details: Option<Claims>
    ghost var history: seq<Mutation>

    /** The credential's current state as a value. */
    function State(): TokenState
      reads this
    {
      TokenState(authenticated, principal, details)
    }

    /** A fresh, unauthenticated credential carrying `jwt`. */
    constructor (jwt: string)
      ensures this.jwt == jwt
      ensures State() == TokenState(false, None, None)
      ensures history == []
    {
      this.jwt := jwt;
      authenticated := false;
      principal := None;
      details := None;
      history := [];
    }

    /** `setAuthenticated(flag)`. */
    method SetAuthenticated(flag: bool)
      modifies this`authenticated, this`history
      ensures State() == Apply(old(State()), SetAuthenticatedTo(flag))
      ensures authenticated == flag
      ensures history == old(history) + [SetAuthenticatedTo(flag)]
    {
      authenticated := flag;
      history := history + [SetAuthenticatedTo(flag)];
    }

    /** `setPrincipal(p)`. */
    method SetPrincipal(p: Auth0UserDetails)
      modifies this`principal, this`history
      ensures State() == Apply(old(State()), SetPrincipalTo(p))
      ensures principal == Some(p)
      ensures history == old(history) + [SetPrincipalTo(p)]
    {
      principal := Some(p);
      history := history + [SetPrincipalTo(p)];
    }

    /** `setDetails(d)`. */
    method SetDetails(d: Claims)
      modifies this`details, this`history
      ensures State() == Apply(old(State()), SetDetailsTo(d))
      ensures details == Some(d)
      ensures history == old(history) + [SetDetailsTo(d)]
    {
      details := Some(d);
      history := history + [SetDetailsTo(d)];
    }
  }
}
