/** Direct login with pasted tokens (components/DirectLogin.tsx): both tokens
    are written to the store, `/auth/me` is asked for the user, and on
    success the user record and a fifteen-minute expiry are written and the
    page is reloaded. */
module DirectLogin {
  import opened Wrappers
  import opened Decimal
  import opened Http
  import opened Browser
  import opened AuthService
  import opened AuthContext

  const MeUrl := "https://auth-service.pynfi.com/api/auth/me"
  const BothTokensMessage := "Veuillez entrer les deux tokens"
  const InvalidTokenMessage := "Token invalide ou expiré"

  /** 15 * 60 * 1000 ms. */
  const DirectLifetimeMs := 900000

  function MeRequest(accessToken: string): Request {
    Request(MeUrl, "GET", map["Authorization" := Bearer(accessToken)], None)
  }

  /** What one submit leaves: the error shown, the store, the requests sent,
      and whether a reload was asked for. */
  datatype DirectOutcome = DirectOutcome(error: string, storage: map<string, string>, sent: seq<Request>, reload: bool)

  /** `handleDirectLogin` with the two entered tokens, `/auth/me` answered by
      `me`. */
  function DirectStep(st: map<string, string>, accessToken: string, refreshToken: string, me: Reply<UserInfo>,
                      now: int, codec: UserCodec): DirectOutcome {
    if accessToken == "" || refreshToken == "" then DirectOutcome(BothTokensMessage, st, [], false)
    else
      var withTokens := st[AccessTokenKey := accessToken][RefreshTokenKey := refreshToken];
      var sent := [MeRequest(accessToken)];
      match me
      case NetworkFailure(reason) => DirectOutcome(reason, withTokens, sent, false)
      case Received(Refused(_, _)) => DirectOutcome(InvalidTokenMessage, withTokens, sent, false)
      case Received(Accepted(_, NotJson(reason))) => DirectOutcome(reason, withTokens, sent, false)
      case Received(Accepted(_, Json(user))) =>
        DirectOutcome("", withTokens[UserInfoKey := codec.stringify(user)]
                                    [TokenExpiryKey := IntToString(now + DirectLifetimeMs)], sent, true)
  }

  class DirectLoginForm {
    var accessToken: string
    var refreshToken: string
    var error: string
    var isLoading: bool
    const window: Window
    const codec: UserCodec

    constructor (window: Window, codec: UserCodec)
      ensures accessToken == "" && refreshToken == "" && error == "" && !isLoading
      ensures this.window == window && this.codec == codec
    {
      accessToken := "";
      refreshToken := "";
      error := "";
      isLoading := false;
      this.window := window;
      this.codec := codec;
    }

    /** The two inputs' `onChange` handlers. */
    method Enter(access: string, refresh: string)
      modifies this
      ensures accessToken == access && refreshToken == refresh
      ensures error == old(error) && isLoading == old(isLoading)
    {
      accessToken := access;
      refreshToken := refresh;
    }

    /** `handleDirectLogin`, with `/auth/me` answered by `me`. */
    method HandleDirectLogin(me: Reply<UserInfo>, now: int)
      modifies this, window
      ensures var o := DirectStep(old(window.storage), accessToken, refreshToken, me, now, codec);
              error == o.error && window.storage == o.storage && window.sent == old(window.sent) + o.sent &&
              window.reloadRequested == (old(window.reloadRequested) || o.reload)
      ensures isLoading == (old(isLoading) && (accessToken == "" || refreshToken == ""))
      ensures accessToken == old(accessToken) && refreshToken == old(refreshToken)
      ensures window.redirectedHome == old(window.redirectedHome)
    {
      error := "";
      if accessToken == "" || refreshToken == "" {
        error := BothTokensMessage;
        return;
      }
      isLoading := true;
      window.SetItem(AccessTokenKey, accessToken);
      window.SetItem(RefreshTokenKey, refreshToken);
      var response := window.Fetch(MeRequest(accessToken), me);
      match response {
        case NetworkFailure(reason) =>
          error := reason;
        case Received(Refused(_, _)) =>
          error := InvalidTokenMessage;
        case Received(Accepted(_, NotJson(reason))) =>
          error := reason;
        case Received(Accepted(_, Json(userData))) =>
          window.SetItem(UserInfoKey, codec.stringify(userData));
          var expiryTime := now + DirectLifetimeMs;
          window.SetItem(TokenExpiryKey, IntToString(expiryTime));
          window.Reload();
      }
      isLoading := false;
    }
  }

  // ---------------------------------------------------------------- lemmas

  /** An empty token stops the submit with 'Veuillez entrer les deux tokens':
      nothing is written or sent. */
  lemma EmptyTokenRejected(st: map<string, string>, accessToken: string, refreshToken: string, me: Reply<UserInfo>,
                           now: int, codec: UserCodec)
    requires accessToken == "" || refreshToken == ""
    ensures DirectStep(st, accessToken, refreshToken, me, now, codec) == DirectOutcome(BothTokensMessage, st, [], false)
  {
  }

  /** With both tokens entered, both are stored whatever `/auth/me` answers,
      and exactly one request is sent, carrying the access token. */
  lemma TokensAlwaysStored(st: map<string, string>, accessToken: string, refreshToken: string, me: Reply<UserInfo>,
                           now: int, codec: UserCodec)
    requires accessToken != "" && refreshToken != ""
    ensures var o := DirectStep(st, accessToken, refreshToken, me, now, codec);
            o.storage[AccessTokenKey] == accessToken && o.storage[RefreshTokenKey] == refreshToken &&
            o.sent == [MeRequest(accessToken)] &&
            o.sent[0].headers["Authorization"] == Bearer(accessToken)
  {
  }

  /** When `/auth/me` is not OK the two tokens stay stored, the user record
      and expiry keep what they held before, and 'Token invalide ou expiré'
      is shown. */
  lemma RejectedTokenKeepsTokens(st: map<string, string>, accessToken: string, refreshToken: string, me: Reply<UserInfo>,
                                 now: int, codec: UserCodec)
    requires accessToken != "" && refreshToken != ""
    requires me.Received? && me.response.Refused?
    ensures var o := DirectStep(st, accessToken, refreshToken, me, now, codec);
            o.error == InvalidTokenMessage && !o.reload &&
            o.storage == st[AccessTokenKey := accessToken][RefreshTokenKey := refreshToken] &&
            (UserInfoKey in o.storage <==> UserInfoKey in st) &&
            (TokenExpiryKey in o.storage <==> TokenExpiryKey in st)
  {
  }

  /** On success the user record is stored, the expiry is fifteen minutes
      ahead, a reload is asked for and no error is shown. */
  lemma AcceptedTokenStored(st: map<string, string>, accessToken: string, refreshToken: string, user: UserInfo,
                            status: OkStatus, now: int, codec: UserCodec)
    requires accessToken != "" && refreshToken != ""
    ensures var o := DirectStep(st, accessToken, refreshToken, Received(Accepted(status, Json(user))), now, codec);
            o.error == "" && o.reload &&
            o.storage.Keys == st.Keys + SessionKeys &&
            o.storage[UserInfoKey] == codec.stringify(user) &&
            ParseInt(o.storage[TokenExpiryKey]) == Some(now + DirectLifetimeMs)
  {
    ParseIntToString(now + DirectLifetimeMs);
  }

  /** After a direct login the service sees a session that is valid for
      fourteen minutes (fifteen less its one-minute margin), yet the
      context's mount check, which reads 'accessToken', still does not
      restore it unless that entry was already stored. */
  lemma DirectSessionSeenByServiceOnly(st: map<string, string>, accessToken: string, refreshToken: string, user: UserInfo,
                                       status: OkStatus, now: int, codec: UserCodec, t: int)
    requires accessToken != "" && refreshToken != ""
    requires !Has(st, ContextTokenKey)
    ensures var o := DirectStep(st, accessToken, refreshToken, Received(Accepted(status, Json(user))), now, codec);
            (IsAuthenticated(o.storage, t) <==> t < now + DirectLifetimeMs - ExpiryMarginMs) &&
            !Restores(o.storage, codec)
  {
    var o := DirectStep(st, accessToken, refreshToken, Received(Accepted(status, Json(user))), now, codec);
    var text := IntToString(now + DirectLifetimeMs);
    assert o.storage[TokenExpiryKey] == text && |text| >= 1;
    assert AccessTokenKey in o.storage;
    ParseIntToString(now + DirectLifetimeMs);
    assert ContextTokenKey in o.storage <==> ContextTokenKey in st;
    assert ContextTokenKey in st ==> o.storage[ContextTokenKey] == st[ContextTokenKey];
  }
}
