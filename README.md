# Auth0 Spring Security MVC authentication provider, modelled in Dafny

This project models `Auth0AuthenticationProvider`, the Spring Security
`AuthenticationProvider` of the Auth0 Spring Security MVC library. The
provider has three behaviours:

- **Configuration lifecycle.** Three nullable strings (`clientSecret`,
  `clientId`, `securedRoute`) are set through setters. `afterPropertiesSet`
  then either rejects the configuration with a `RuntimeException` or
  installs a `JWTVerifier` built from the decoded secret and the client id.
- **Authentication.** `authenticate` asks the installed verifier to check
  the credential's raw JWT. It then marks the credential authenticated,
  looks up the `Auth0User` in the HTTP session, sets the principal and the
  details, and returns the same credential object it was given.
- **Error collapse.** Each of the six caught exception classes is rethrown
  as one shared error, `AUTH_ERROR`, whose message is "Authentication Error".

Files:

- `wrappers.dfy` (module `Wrappers`): `Option` (stands for a Java reference
  that may be null) and `Outcome` (completes or fails).
- `credentials.dfy` (module `Credentials`): a small Java class hierarchy with
  `IsAssignableFrom`, used for `supports`. It also holds the session user and
  principal values, the decoded claims, and the mutable credential class
  `Auth0JWTToken`. That class has a ghost `history` that records each setter
  call in order.
- `provider.dfy` (module `Auth0Provider`): the verifier's outcomes, the
  errors, the configuration check `CheckConfiguration`, the specification
  function `AuthenticateEffect`, and the class `Auth0AuthenticationProvider`.

External collaborators are inputs to the model:

- The JWT library's `verify` is a parameter
  `verify: (JWTVerifier, string) -> VerifyOutcome`. It returns either the
  decoded claims or one of the exception kinds `authenticate` catches.
- The request context and session lookup are a `RequestContext` value. It is
  either no current request, or a servlet request whose session may or may
  not hold an `Auth0User`.
- The base64url decoding of the secret is kept opaque. The key is recorded
  only as "decoded from this string".

Where the code and the design description disagree, the model follows the code:

- The design says start-up rejects an *empty or absent* configuration
  field. The code rejects only `null`, so `CheckConfiguration` accepts
  `Some("")`.
- The design says no partially updated credential is ever left behind.
  The code calls `setAuthenticated(true)` before it checks the session
  user. So when the user is missing, the credential it was given stays
  marked authenticated, with its principal and details unchanged, while
  `AUTH_ERROR` is thrown. `MissingUserHalfUpdates` proves this.
- The design says `authenticate` returns a typed "unsupported" outcome for a
  foreign credential. The code casts the credential without a check. The
  model takes the cast's success as a given: the parameter has type
  `Auth0JWTToken`.

## Model

| member | source | states |
|---|---|---|
| `Auth0Provider.Auth0AuthenticationProvider.constructor` | src/main/java/com/auth0/spring/security/mvc/Auth0AuthenticationProvider.java:34-37 | A new provider has no verifier and all three configuration strings null |
| `Auth0Provider.CheckConfiguration` | src/main/java/com/auth0/spring/security/mvc/Auth0AuthenticationProvider.java:92-100 | The configuration passes if and only if all three strings are present (empty strings pass). A missing secret or client id gives the credentials message. Secret and id present but no route gives the separate route message |
| `Auth0Provider.Auth0AuthenticationProvider.AfterPropertiesSet` | src/main/java/com/auth0/spring/security/mvc/Auth0AuthenticationProvider.java:92-102 | Returns the verdict of `CheckConfiguration` on the current fields. On success it installs the verifier built from the configured secret and client id. On failure `jwtVerifier` keeps its old value |
| `Auth0Provider.BuildVerifier` | src/main/java/com/auth0/spring/security/mvc/Auth0AuthenticationProvider.java:101 | The installed verifier holds the key decoded from the configured secret and expects the configured client id as audience |
| `Auth0Provider.ErrorFor` | src/main/java/com/auth0/spring/security/mvc/Auth0AuthenticationProvider.java:61-85 | Each of the six caught exception kinds becomes the same error value `AUTH_ERROR`, whose message is "Authentication Error" |
| `Auth0Provider.SessionUser` | src/main/java/com/auth0/spring/security/mvc/Auth0AuthenticationProvider.java:51-53 | A user is found exactly when there is a current servlet request and its session holds an Auth0User |
| `Auth0Provider.AuthenticateEffect` | src/main/java/com/auth0/spring/security/mvc/Auth0AuthenticationProvider.java:45-85 | Every failure is `AUTH_ERROR`. Success happens exactly when verification passed and the session holds a user. A verifier failure makes no mutation, whatever the session holds. After a passed verification the first mutation is `setAuthenticated(true)`. A missing user stops after that mutation. Success is exactly authenticated, then the principal wrapping the user, then the claims as details |
| `Auth0Provider.FailureLeavesCredential` | src/main/java/com/auth0/spring/security/mvc/Auth0AuthenticationProvider.java:47-53 | When the verifier throws, the credential's state is unchanged |
| `Auth0Provider.MissingUserHalfUpdates` | src/main/java/com/auth0/spring/security/mvc/Auth0AuthenticationProvider.java:49-56 | Verification passed but no session user: `AUTH_ERROR` is thrown. The credential is left authenticated with its previous principal and details |
| `Auth0Provider.SuccessFillsCredential` | src/main/java/com/auth0/spring/security/mvc/Auth0AuthenticationProvider.java:49-60 | On success the credential ends authenticated, with the principal wrapping the session user and the decoded claims as details, whatever it held before |
| `Auth0Provider.Auth0AuthenticationProvider.Authenticate` | src/main/java/com/auth0/spring/security/mvc/Auth0AuthenticationProvider.java:40-86 | The call returns the very object it was given exactly when `AuthenticateEffect` says it succeeds. Otherwise it throws `AUTH_ERROR`. The credential's setter history grows by exactly the mutations `AuthenticateEffect` lists, in that order, and its state is those mutations applied to its old state. Only the credential is modified |
| `Auth0Provider.Auth0AuthenticationProvider.Supports` | src/main/java/com/auth0/spring/security/mvc/Auth0AuthenticationProvider.java:88-90 | True exactly for `Auth0JWTToken` and its subclass, and every supported class is an `Authentication` |
| `Credentials.Auth0JWTTokenFamily` | src/main/java/com/auth0/spring/security/mvc/Auth0AuthenticationProvider.java:89 | `Auth0JWTToken.class.isAssignableFrom(c)` holds exactly for `Auth0JWTToken` and its subclass |
| `Credentials.AssignableTransitive` | src/main/java/com/auth0/spring/security/mvc/Auth0AuthenticationProvider.java:89 | Assignability is transitive, so a subclass of a supported class is supported |
| `Credentials.AssignableDepth` | src/main/java/com/auth0/spring/security/mvc/Auth0AuthenticationProvider.java:89 | A class can be assigned only to classes at or above its own height in the hierarchy |
| `Credentials.Apply` | src/main/java/com/auth0/spring/security/mvc/Auth0AuthenticationProvider.java:49-59 | Each credential setter changes its own field only |
| `Credentials.Auth0JWTToken.SetAuthenticated` | src/main/java/com/auth0/spring/security/mvc/Auth0AuthenticationProvider.java:49 | Sets the authenticated flag, leaves the other fields, and appends the call to the history |
| `Credentials.Auth0JWTToken.SetPrincipal` | src/main/java/com/auth0/spring/security/mvc/Auth0AuthenticationProvider.java:58 | Sets the principal, leaves the other fields, and appends the call to the history |
| `Credentials.Auth0JWTToken.SetDetails` | src/main/java/com/auth0/spring/security/mvc/Auth0AuthenticationProvider.java:59 | Sets the details to the decoded claims, leaves the other fields, and appends the call to the history |
| `Auth0Provider.Auth0AuthenticationProvider.GetSecuredRoute` | src/main/java/com/auth0/spring/security/mvc/Auth0AuthenticationProvider.java:104-106 | Returns the stored route, and so returns exactly what the last `SetSecuredRoute` stored |
| `Auth0Provider.Auth0AuthenticationProvider.SetSecuredRoute` | src/main/java/com/auth0/spring/security/mvc/Auth0AuthenticationProvider.java:108-110 | Stores the route and changes no other field, including `jwtVerifier` |
| `Auth0Provider.Auth0AuthenticationProvider.GetClientSecret` | src/main/java/com/auth0/spring/security/mvc/Auth0AuthenticationProvider.java:112-114 | Returns the stored secret, and so returns exactly what the last `SetClientSecret` stored |
| `Auth0Provider.Auth0AuthenticationProvider.SetClientSecret` | src/main/java/com/auth0/spring/security/mvc/Auth0AuthenticationProvider.java:116-118 | Stores the secret and changes no other field, including `jwtVerifier` |
| `Auth0Provider.Auth0AuthenticationProvider.GetClientId` | src/main/java/com/auth0/spring/security/mvc/Auth0AuthenticationProvider.java:120-122 | Returns the stored client id, and so returns exactly what the last `SetClientId` stored |
| `Auth0Provider.Auth0AuthenticationProvider.SetClientId` | src/main/java/com/auth0/spring/security/mvc/Auth0AuthenticationProvider.java:124-126 | Stores the client id and changes no other field, including `jwtVerifier` |

## Left out

- The JWT checks themselves (segment splitting, base64url decoding, HMAC signature, `aud`/`exp` claims): they live in `com.auth0.jwt.JWTVerifier`, which is not part of this model. Verification is the parameter `verify`.
- The base64url decoding of the secret (commons-codec `Base64`): a foreign call. The derived key `SecretKey` is opaque.
- Spring and servlet plumbing (`RequestContextHolder`, `ServletRequestAttributes`, `HttpServletRequest`, `SessionUtils`): replaced by the `RequestContext` input. A missing request context raises `IllegalStateException`, which lands in the same catch clause as a missing user; the model treats both alike.
- Java reflection in `supports`: replaced by a fixed subtype relation over an enumeration of credential classes (`JavaClass`).
- Logging on each path: it has no effect on results.
- Exceptions the code does not catch are preconditions, not modelled behaviour. These are the `ClassCastException` from the cast of a non-`Auth0JWTToken` credential (its parameter type is `Auth0JWTToken`), the `NullPointerException` when `authenticate` runs before a successful `afterPropertiesSet` (`requires jwtVerifier.Some?`), a failed cast to `ServletRequestAttributes`, and any unchecked exception other than `IllegalStateException` thrown by the verifier.
- The definition of `Auth0JWTToken`, `Auth0User` and `Auth0UserDetails` is not part of this model. They are modelled only as far as `authenticate` uses them: the raw JWT, the authenticated flag, the principal and the details.
- Concurrency and shared-instance safety: nothing in the code addresses them.
