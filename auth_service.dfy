/** The authentication service (lib/services/auth.service.ts): the four-key
    session store in `localStorage`, the expiry check with its one-minute
    safety margin, login, token refresh, logout and the role checks.

    Every operation that writes the store is a method on the `Window`,
    proved equal to a function of the old store; the properties the service
    promises are lemmas about those functions. */
module AuthService {
  import opened Wrappers
  import opened Text
  import opened Decimal
  import opened Http
  import opened Browser

  const AuthApiUrl := "https://auth-service.pynfi.com/api/auth"

  const AccessTokenKey := "ugate_access_token"
  const RefreshTokenKey := "ugate_refresh_token"
  const UserInfoKey := "ugate_user_info"
  const TokenExpiryKey := "ugate_token_expiry"

  /** The entries a session occupies in the store. */
  const SessionKeys: set<string> := {AccessTokenKey, RefreshTokenKey, UserInfoKey, TokenExpiryKey}

  /** A token counts as expired this many milliseconds before its expiry. */
  const ExpiryMarginMs := 60000

  /** Lifetime assumed when a login response gives none (or 0). */
  const DefaultExpiresInSeconds := 3600

  const LoginFailedMessage := "Échec de la connexion"
  const NoRefreshTokenMessage := "Aucun refresh token disponible"
  const SessionExpiredMessage := "Session expirée, veuillez vous reconnecter"

  const SuperAdminRole := "SUPER_ADMIN"
  const AdminRole := "ADMIN"

  datatype UserInfo = UserInfo(
    id: string,
    email: string,
    firstName: Option<string>,
    lastName: Option<string>,
    roles: Option<seq<string>>,   // None: the parsed value has no roles array
    permissions: Option<seq<string>>)

  datatype LoginCredentials = LoginCredentials(identifier: string, password: string)

  datatype LoginResponse = LoginResponse(
    accessToken: string,
    refreshToken: string,
    tokenType: string,
    expiresIn: Option<int>,       // seconds; None: the field is absent
    user: UserInfo)

  /** The body of a successful refresh. */
  datatype TokenGrant = TokenGrant(accessToken: string, refreshToken: string, expiresIn: Option<int>)

  datatype DecodedToken = DecodedToken(sub: string, email: string, role: string, exp: int, iat: int)

  /** `JSON.stringify` and `JSON.parse` as they apply to user records. A parse
      that throws, or that yields null, is `None`. */
  datatype UserCodec = UserCodec(stringify: UserInfo -> string, parse: string -> Option<UserInfo>) {
    /** `u` is written as a non-empty text that reads back as `u`. */
    predicate RoundTrips(u: UserInfo) {
      stringify(u) != "" && parse(stringify(u)) == Some(u)
    }
  }

  /** `localStorage.getItem(key)` is a non-empty string, so `!value` is false. */
  predicate Has(st: map<string, string>, key: string) {
    key in st && st[key] != ""
  }

  /** `roles?.includes(role) || false`. */
  predicate HoldsRole(roles: Option<seq<string>>, role: string) {
    roles.Some? && role in roles.value
  }

  /** Holds SUPER_ADMIN or ADMIN, the two roles the console admits. */
  predicate IsAdminUser(u: UserInfo) {
    HoldsRole(u.roles, SuperAdminRole) || HoldsRole(u.roles, AdminRole)
  }

  // ---------------------------------------------------------------- store

  /** `data.expiresIn || 3600`. */
  function EffectiveExpiresIn(expiresIn: Option<int>): int {
    if expiresIn.None? || expiresIn.value == 0 then DefaultExpiresInSeconds else expiresIn.value
  }

  /** The store after `saveAuthData(data)` at time `now`. */
  function Saved(st: map<string, string>, data: LoginResponse, now: int, codec: UserCodec): map<string, string> {
    st[AccessTokenKey := data.accessToken]
      [RefreshTokenKey := data.refreshToken]
      [UserInfoKey := codec.stringify(data.user)]
      [TokenExpiryKey := IntToString(now + EffectiveExpiresIn(data.expiresIn) * 1000)]
  }

  /** The expiry text a refresh writes: `(now + expiresIn * 1000).toString()`,
      which is "NaN" when the field is absent. */
  function RenewedExpiry(expiresIn: Option<int>, now: int): string {
    match expiresIn
    case None => "NaN"
    case Some(seconds) => IntToString(now + seconds * 1000)
  }

  /** The store after a successful refresh: both tokens and the expiry are
      replaced, the user record is kept. */
  function Renewed(st: map<string, string>, grant: TokenGrant, now: int): map<string, string> {
    st[AccessTokenKey := grant.accessToken]
      [RefreshTokenKey := grant.refreshToken]
      [TokenExpiryKey := RenewedExpiry(grant.expiresIn, now)]
  }

  /** The store after `logout()`. */
  function Cleared(st: map<string, string>): map<string, string> {
    st - SessionKeys
  }

  // ---------------------------------------------------------------- reads

  /** `getUserInfo()`: null for a missing or empty entry or one that does not
      parse. */
  function GetUserInfo(st: map<string, string>, codec: UserCodec): (u: Option<UserInfo>)
    ensures !Has(st, UserInfoKey) ==> u.None?
  {
    if !Has(st, UserInfoKey) then None else codec.parse(st[UserInfoKey])
  }

  /** `isTokenExpired()` at time `now`. `parseInt` of a corrupt entry is NaN,
      and `now >= NaN - 60000` is false. */
  function IsTokenExpired(st: map<string, string>, now: int): bool {
    if !Has(st, TokenExpiryKey) then true
    else
      match ParseInt(st[TokenExpiryKey])
      case None => false
      case Some(expiry) => now >= expiry - ExpiryMarginMs
  }

  /** `isAuthenticated()`: `getAccessToken() !== null`, so an empty token
      counts, and the token is not expired. */
  predicate IsAuthenticated(st: map<string, string>, now: int) {
    AccessTokenKey in st && !IsTokenExpired(st, now)
  }

  /** `hasRole(role)`. */
  predicate HasRole(st: map<string, string>, codec: UserCodec, role: string) {
    var u := GetUserInfo(st, codec);
    u.Some? && HoldsRole(u.value.roles, role)
  }

  /** `isSuperAdmin()`: SUPER_ADMIN or ADMIN. */
  predicate IsSuperAdmin(st: map<string, string>, codec: UserCodec) {
    HasRole(st, codec, SuperAdminRole) || HasRole(st, codec, AdminRole)
  }

  /** `decodeToken(token)`: the token must split on '.' into exactly three
      parts (the JWS compact form of section 7.1 of RFC 7515); the middle one
      is then base64-decoded (`atob`) and parsed. Both decoders are
      parameters; no signature is checked. */
  function DecodeToken(token: string, atob: string -> Option<string>, parse: string -> Option<DecodedToken>): Option<DecodedToken> {
    var parts := Split(token, '.');
    if |parts| != 3 then None
    else
      match atob(parts[1])
      case None => None
      case Some(payload) => parse(payload)
  }

  // ---------------------------------------------------------------- exchanges

  /** What one service call does: its result, the store it leaves and the
      requests it sends. */
  datatype Step<T> = Step(result: Result<T>, storage: map<string, string>, sent: seq<Request>)

  function LoginRequest(credentials: LoginCredentials): Request {
    Request(AuthApiUrl + "/login", "POST", JsonHeaders,
            Some(map["identifier" := credentials.identifier, "password" := credentials.password]))
  }

  function RefreshRequest(refreshToken: string): Request {
    Request(AuthApiUrl + "/refresh", "POST", JsonHeaders, Some(map["refreshToken" := refreshToken]))
  }

  /** `login(credentials)` answered by `reply`. */
  function LoginStep(st: map<string, string>, credentials: LoginCredentials, reply: Reply<LoginResponse>,
                     now: int, codec: UserCodec): Step<LoginResponse> {
    var sent := [LoginRequest(credentials)];
    match reply
    case NetworkFailure(reason) => Step(Failure(reason), st, sent)
    case Received(Refused(_, body)) => Step(Failure(MessageOrError(body, LoginFailedMessage)), st, sent)
    case Received(Accepted(_, NotJson(reason))) => Step(Failure(reason), st, sent)
    case Received(Accepted(_, Json(data))) => Step(Success(data), Saved(st, data, now, codec), sent)
  }

  /** `refreshAccessToken()` answered by `reply` (unused when no refresh
      token is stored). */
  function RefreshStep(st: map<string, string>, reply: Reply<TokenGrant>, now: int): Step<TokenGrant> {
    if !Has(st, RefreshTokenKey) then Step(Failure(NoRefreshTokenMessage), st, [])
    else
      var sent := [RefreshRequest(st[RefreshTokenKey])];
      match reply
      case NetworkFailure(reason) => Step(Failure(reason), st, sent)
      case Received(Refused(_, _)) => Step(Failure(SessionExpiredMessage), Cleared(st), sent)
      case Received(Accepted(_, NotJson(reason))) => Step(Failure(reason), st, sent)
      case Received(Accepted(_, Json(grant))) => Step(Success(grant), Renewed(st, grant, now), sent)
  }

  // ---------------------------------------------------------------- methods

  /** `saveAuthData(data)`. */
  method SaveAuthData(w: Window, data: LoginResponse, now: int, codec: UserCodec)
    modifies w
    ensures w.storage == Saved(old(w.storage), data, now, codec)
    ensures w.sent == old(w.sent)
    ensures w.redirectedHome == old(w.redirectedHome) && w.reloadRequested == old(w.reloadRequested)
  {
    w.SetItem(AccessTokenKey, data.accessToken);
    w.SetItem(RefreshTokenKey, data.refreshToken);
    w.SetItem(UserInfoKey, codec.stringify(data.user));
    var expiresInSeconds := EffectiveExpiresIn(data.expiresIn);
    var expiryTime := now + expiresInSeconds * 1000;
    w.SetItem(TokenExpiryKey, IntToString(expiryTime));
  }

  /** `logout()`. */
  method Logout(w: Window)
    modifies w
    ensures w.storage == Cleared(old(w.storage))
    ensures w.sent == old(w.sent)
    ensures w.redirectedHome == old(w.redirectedHome) && w.reloadRequested == old(w.reloadRequested)
  {
    w.RemoveItem(AccessTokenKey);
    w.RemoveItem(RefreshTokenKey);
    w.RemoveItem(UserInfoKey);
    w.RemoveItem(TokenExpiryKey);
  }

  /** `login(credentials)`. */
  method Login(w: Window, credentials: LoginCredentials, reply: Reply<LoginResponse>, now: int, codec: UserCodec)
    returns (r: Result<LoginResponse>)
    modifies w
    ensures var step := LoginStep(old(w.storage), credentials, reply, now, codec);
            r == step.result && w.storage == step.storage && w.sent == old(w.sent) + step.sent
    ensures w.redirectedHome == old(w.redirectedHome) && w.reloadRequested == old(w.reloadRequested)
  {
    var response := w.Fetch(LoginRequest(credentials), reply);
    match response
    case NetworkFailure(reason) =>
      r := Failure(reason);
    case Received(Refused(_, body)) =>
      r := Failure(MessageOrError(body, LoginFailedMessage));
    case Received(Accepted(_, NotJson(reason))) =>
      r := Failure(reason);
    case Received(Accepted(_, Json(data))) =>
      SaveAuthData(w, data, now, codec);
      r := Success(data);
  }

  /** `refreshAccessToken()`. */
  method RefreshAccessToken(w: Window, reply: Reply<TokenGrant>, now: int) returns (r: Result<TokenGrant>)
    modifies w
    ensures var step := RefreshStep(old(w.storage), reply, now);
            r == step.result && w.storage == step.storage && w.sent == old(w.sent) + step.sent
    ensures w.redirectedHome == old(w.redirectedHome) && w.reloadRequested == old(w.reloadRequested)
  {
    var refreshToken := w.GetItem(RefreshTokenKey);
    if refreshToken.None? || refreshToken.value == "" {
      return Failure(NoRefreshTokenMessage);
    }
    var response := w.Fetch(RefreshRequest(refreshToken.value), reply);
    match response
    case NetworkFailure(reason) =>
      r := Failure(reason);
    case Received(Refused(_, _)) =>
      Logout(w);
      r := Failure(SessionExpiredMessage);
    case Received(Accepted(_, NotJson(reason))) =>
      r := Failure(reason);
    case Received(Accepted(_, Json(grant))) =>
      w.SetItem(AccessTokenKey, grant.accessToken);
      w.SetItem(RefreshTokenKey, grant.refreshToken);
      w.SetItem(TokenExpiryKey, RenewedExpiry(grant.expiresIn, now));
      r := Success(grant);
  }

  // ---------------------------------------------------------------- lemmas

  /** A save writes all four session entries from the response, whatever
      they held before, and no other entry. */
  lemma SavedSession(st: map<string, string>, data: LoginResponse, now: int, codec: UserCodec)
    ensures var s := Saved(st, data, now, codec);
            s.Keys == st.Keys + SessionKeys &&
            s[AccessTokenKey] == data.accessToken &&
            s[RefreshTokenKey] == data.refreshToken &&
            s[UserInfoKey] == codec.stringify(data.user) &&
            ParseInt(s[TokenExpiryKey]) == Some(now + EffectiveExpiresIn(data.expiresIn) * 1000) &&
            forall k :: k in st && k !in SessionKeys ==> s[k] == st[k]
  {
    ParseIntToString(now + EffectiveExpiresIn(data.expiresIn) * 1000);
  }

  /** Without `expiresIn`, or with 0, the session is given one hour. */
  lemma SavedDefaultLifetime(data: LoginResponse)
    ensures data.expiresIn.None? || data.expiresIn == Some(0) ==> EffectiveExpiresIn(data.expiresIn) * 1000 == 3600000
    ensures data.expiresIn.Some? && data.expiresIn.value != 0 ==> EffectiveExpiresIn(data.expiresIn) == data.expiresIn.value
  {
  }

  /** After a save at `now`, the token counts as expired at time `t` exactly
      when `t` is within a minute of (or past) `now + expiresIn * 1000`. */
  lemma SavedExpiry(st: map<string, string>, data: LoginResponse, now: int, codec: UserCodec, t: int)
    ensures IsTokenExpired(Saved(st, data, now, codec), t) <==>
            t >= now + EffectiveExpiresIn(data.expiresIn) * 1000 - ExpiryMarginMs
  {
    ParseIntToString(now + EffectiveExpiresIn(data.expiresIn) * 1000);
    assert IntToString(now + EffectiveExpiresIn(data.expiresIn) * 1000) != "";
  }

  /** Right after a save the token is already expired exactly when its
      lifetime is at most 60 seconds. */
  lemma ExpiredRightAfterSave(st: map<string, string>, data: LoginResponse, now: int, codec: UserCodec)
    ensures IsTokenExpired(Saved(st, data, now, codec), now) <==> EffectiveExpiresIn(data.expiresIn) <= 60
  {
    SavedExpiry(st, data, now, codec, now);
  }

  /** After a save the session is authenticated until a minute before it
      expires. */
  lemma AuthenticatedAfterSave(st: map<string, string>, data: LoginResponse, now: int, codec: UserCodec, t: int)
    ensures IsAuthenticated(Saved(st, data, now, codec), t) <==>
            t < now + EffectiveExpiresIn(data.expiresIn) * 1000 - ExpiryMarginMs
  {
    SavedExpiry(st, data, now, codec, t);
  }

  /** A saved user record reads back when the codec round-trips it, and the
      role checks then look at that user's roles. */
  lemma SavedUserInfo(st: map<string, string>, data: LoginResponse, now: int, codec: UserCodec)
    requires codec.RoundTrips(data.user)
    ensures GetUserInfo(Saved(st, data, now, codec), codec) == Some(data.user)
    ensures IsSuperAdmin(Saved(st, data, now, codec), codec) <==> IsAdminUser(data.user)
  {
    assert Saved(st, data, now, codec)[UserInfoKey] == codec.stringify(data.user);
  }

  /** Without an expiry entry the token counts as expired; with a corrupt one
      (no leading digits) it never does. */
  lemma ExpiryEntryCases(st: map<string, string>, now: int)
    ensures !Has(st, TokenExpiryKey) ==> IsTokenExpired(st, now)
    ensures Has(st, TokenExpiryKey) && ParseInt(st[TokenExpiryKey]).None? ==> !IsTokenExpired(st, now)
    ensures Has(st, TokenExpiryKey) && ParseInt(st[TokenExpiryKey]).Some? ==>
              (IsTokenExpired(st, now) <==> now >= ParseInt(st[TokenExpiryKey]).value - ExpiryMarginMs)
  {
  }

  /** Logout removes exactly the session entries, keeps every other one, and
      a second logout changes nothing more. */
  lemma ClearedSession(st: map<string, string>, now: int)
    ensures Cleared(st).Keys == st.Keys - SessionKeys
    ensures forall k :: k in Cleared(st) ==> Cleared(st)[k] == st[k]
    ensures Cleared(Cleared(st)) == Cleared(st)
    ensures !IsAuthenticated(Cleared(st), now) && IsTokenExpired(Cleared(st), now)
    ensures GetUserInfo(Cleared(st), UserCodec(_ => "", _ => None)).None?
  {
  }

  /** Whatever a save wrote, a logout takes back out. */
  lemma ClearedAfterSave(st: map<string, string>, data: LoginResponse, now: int, codec: UserCodec)
    ensures Cleared(Saved(st, data, now, codec)) == Cleared(st)
  {
  }

  /** The role check is true exactly for a readable user record whose roles
      include SUPER_ADMIN or ADMIN. */
  lemma SuperAdminIff(st: map<string, string>, codec: UserCodec)
    ensures IsSuperAdmin(st, codec) <==> GetUserInfo(st, codec).Some? && IsAdminUser(GetUserInfo(st, codec).value)
    ensures !Has(st, UserInfoKey) ==> !IsSuperAdmin(st, codec)
  {
  }

  /** A refresh without a stored refresh token fails at once: nothing is
      sent and the store is unchanged. */
  lemma RefreshWithoutToken(st: map<string, string>, reply: Reply<TokenGrant>, now: int)
    requires !Has(st, RefreshTokenKey)
    ensures RefreshStep(st, reply, now) == Step(Failure(NoRefreshTokenMessage), st, [])
  {
  }

  /** A refresh with a stored refresh token sends exactly one request, which
      carries that token. */
  lemma RefreshSendsOnce(st: map<string, string>, reply: Reply<TokenGrant>, now: int)
    ensures Has(st, RefreshTokenKey) <==> |RefreshStep(st, reply, now).sent| == 1
    ensures Has(st, RefreshTokenKey) ==> RefreshStep(st, reply, now).sent == [RefreshRequest(st[RefreshTokenKey])]
    ensures |RefreshStep(st, reply, now).sent| <= 1
  {
  }

  /** Only an error status clears the store; a network failure or a body that
      is not JSON leaves it as it was. */
  lemma RefreshFailureStore(st: map<string, string>, reply: Reply<TokenGrant>, now: int)
    requires RefreshStep(st, reply, now).result.Failure?
    ensures reply.Received? && reply.response.Refused? && Has(st, RefreshTokenKey) ==>
              RefreshStep(st, reply, now).storage == Cleared(st) &&
              RefreshStep(st, reply, now).result == Failure(SessionExpiredMessage)
    ensures !(reply.Received? && reply.response.Refused?) ==> RefreshStep(st, reply, now).storage == st
  {
  }

  /** A successful refresh replaces both tokens and the expiry and keeps the
      user record and every other entry. */
  lemma RefreshSuccessStore(st: map<string, string>, reply: Reply<TokenGrant>, now: int)
    requires RefreshStep(st, reply, now).result.Success?
    ensures var s := RefreshStep(st, reply, now).storage;
            var grant := RefreshStep(st, reply, now).result.value;
            reply == Received(Accepted(reply.response.okStatus, Json(grant))) &&
            s[AccessTokenKey] == grant.accessToken &&
            s[RefreshTokenKey] == grant.refreshToken &&
            s[TokenExpiryKey] == RenewedExpiry(grant.expiresIn, now) &&
            (UserInfoKey in s <==> UserInfoKey in st) &&
            (UserInfoKey in st ==> s[UserInfoKey] == st[UserInfoKey]) &&
            forall k :: k in st && k !in SessionKeys ==> k in s && s[k] == st[k]
  {
  }

  /** A refresh whose response has no `expiresIn` writes "NaN", and from then
      on the token never counts as expired. */
  lemma RefreshWithoutLifetime(st: map<string, string>, grant: TokenGrant, now: int, t: int)
    requires grant.expiresIn.None?
    ensures Renewed(st, grant, now)[TokenExpiryKey] == "NaN"
    ensures !IsTokenExpired(Renewed(st, grant, now), t)
  {
    ParseIntNaN();
  }

  /** A refresh with `expiresIn` makes the token valid until a minute before
      `now + expiresIn * 1000`. */
  lemma RefreshWithLifetime(st: map<string, string>, grant: TokenGrant, now: int, t: int)
    requires grant.expiresIn.Some?
    ensures IsAuthenticated(Renewed(st, grant, now), t) <==>
            t < now + grant.expiresIn.value * 1000 - ExpiryMarginMs
  {
    var expiry := now + grant.expiresIn.value * 1000;
    var s := Renewed(st, grant, now);
    assert s[TokenExpiryKey] == IntToString(expiry) && |IntToString(expiry)| >= 1;
    assert AccessTokenKey in s;
    ParseIntToString(expiry);
  }

  /** A failed login leaves the store as it was; an error response fails
      with the body's message, else its error, else the default text. */
  lemma LoginFailure(st: map<string, string>, credentials: LoginCredentials, reply: Reply<LoginResponse>,
                     now: int, codec: UserCodec)
    ensures LoginStep(st, credentials, reply, now, codec).result.Failure? ==>
              LoginStep(st, credentials, reply, now, codec).storage == st
    ensures reply.Received? && reply.response.Refused? ==>
              LoginStep(st, credentials, reply, now, codec).result ==
              Failure(MessageOrError(reply.response.errorBody, LoginFailedMessage))
    ensures LoginStep(st, credentials, reply, now, codec).sent == [LoginRequest(credentials)]
  {
  }

  /** A successful login returns the response body and saves it. */
  lemma LoginSuccess(st: map<string, string>, credentials: LoginCredentials, reply: Reply<LoginResponse>,
                     now: int, codec: UserCodec)
    requires LoginStep(st, credentials, reply, now, codec).result.Success?
    ensures var data := LoginStep(st, credentials, reply, now, codec).result.value;
            reply == Received(Accepted(reply.response.okStatus, Json(data))) &&
            LoginStep(st, credentials, reply, now, codec).storage == Saved(st, data, now, codec)
  {
  }

  /** A token decodes only if it has exactly two dots, i.e. three parts. */
  lemma DecodeNeedsThreeParts(token: string, atob: string -> Option<string>, parse: string -> Option<DecodedToken>)
    ensures DecodeToken(token, atob, parse).Some? ==> Count(token, '.') == 2
  {
    SplitCount(token, '.');
  }

  /** For `header.payload.signature` with dot-free parts, decoding reads the
      payload segment. */
  lemma DecodeReadsPayload(header: string, payload: string, signature: string,
                           atob: string -> Option<string>, parse: string -> Option<DecodedToken>)
    requires '.' !in header && '.' !in payload && '.' !in signature
    ensures DecodeToken(header + "." + payload + "." + signature, atob, parse) ==
            (match atob(payload) case None => None case Some(text) => parse(text))
  {
    var parts := [header, payload, signature];
    assert Join(parts, '.') == header + "." + payload + "." + signature by {
      assert Join(parts[1..], '.') == payload + "." + signature by {
        assert parts[1..][1..] == [signature];
      }
    }
    SplitJoin(parts, '.');
  }
}
