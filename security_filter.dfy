/** SecurityFilter: every request is authenticated by an X-API-KEY header
    (a device) or else by an "Authorization: Bearer <token>" header (a
    user); with neither it passes on unauthenticated. A failure writes a
    StandardError JSON body with its status. The token service, the user
    and device repositories and the clock are parameters. */
module SecurityFilter {
  import opened Common
  import opened Users

  const API_KEY_HEADER: string := "X-API-KEY"
  const BEARER_PREFIX: string := "Bearer "
  const APPLICATION_JSON: string := "application/json"

  const UNAUTHORIZED: int := 401
  const FORBIDDEN: int := 403

  /** The two headers the filter reads; None is an absent header. */
  datatype Request = Request(apiKey: Option<string>, authorization: Option<string>, path: string)

  /** What validateToken does with a token: the subject it returns (null
      when the token has none), or the exception it throws. */
  datatype TokenCheck = Subject(subject: Option<string>) | InvalidToken | ExpiredToken

  /** Who the request runs as when it is passed on. */
  datatype Principal = DeviceKey(apiKey: string) | UserAccount(login: string, authorities: seq<Authority>)

  /** The StandardError body (its timestamp left out). */
  datatype ErrorBody = ErrorBody(status: int, error: string, message: string, path: string)

  /** The filter's decision: pass the request on (authenticated or not),
      reject it with an error body, or fail with the NullPointerException
      of a token without subject. */
  datatype Outcome = PassOn(principal: Option<Principal>) | Rejected(body: ErrorBody) | NullSubject

  /** recoverToken: the text after "Bearer " (case-sensitive), or null. */
  function RecoverToken(authorization: Option<string>): (token: Option<string>)
    ensures token.Some? <==> authorization.Some? && StartsWith(authorization.value, BEARER_PREFIX)
    ensures token.Some? ==> authorization.value == BEARER_PREFIX + token.value
  {
    if authorization.Some? && StartsWith(authorization.value, BEARER_PREFIX) then
      var header := authorization.value;
      assert header == header[..7] + header[7..];
      Some(header[7..])
    else None
  }

  /** A header built from a token gives the token back; any other spelling
      of the scheme gives none. */
  lemma RecoverTokenRoundTrip(token: string)
    ensures RecoverToken(Some(BEARER_PREFIX + token)) == Some(token)
    ensures RecoverToken(Some("bearer " + token)) == None
    ensures RecoverToken(None) == None
  {
    var h := BEARER_PREFIX + token;
    assert h[..7] == BEARER_PREFIX && h[7..] == token;
    assert ("bearer " + token)[0] == 'b';
  }

  /** authenticateWithApiKey: the device with this key lets the request
      through as that device; no device is 401 "Chave de API inválida". */
  function ApiKeyOutcome(apiKey: string, path: string, deviceExists: string -> bool): (o: Outcome)
    ensures o.PassOn? <==> deviceExists(apiKey)
    ensures o.Rejected? ==> o.body == ErrorBody(UNAUTHORIZED, "Access prohibited", "Chave de API inválida", path)
  {
    if deviceExists(apiKey) then PassOn(Some(DeviceKey(apiKey)))
    else Rejected(ErrorBody(UNAUTHORIZED, "Access prohibited", "Chave de API inválida", path))
  }

  /** authenticateWithToken: a token the service rejects is 403, an expired
      one 401; an empty subject is 401; a subject without a user is 401;
      otherwise the request runs as that user with the role's authorities. */
  function TokenOutcome(check: TokenCheck, path: string, findUser: string -> Option<Role>): (o: Outcome)
    ensures o.Rejected? && o.body.status == FORBIDDEN <==> check.InvalidToken?
    ensures o.Rejected? ==> o.body.status in {UNAUTHORIZED, FORBIDDEN} && o.body.path == path
    ensures o.NullSubject? <==> check == Subject(None)
    ensures o.PassOn? <==> check.Subject? && check.subject.Some? && check.subject.value != ""
                           && findUser(check.subject.value).Some?
  {
    match check
    case InvalidToken => Rejected(ErrorBody(FORBIDDEN, "Token verification error", "Token inválido", path))
    case ExpiredToken => Rejected(ErrorBody(UNAUTHORIZED, "Token expired error", "Faça login novamente para prosseguir", path))
    case Subject(None) => NullSubject
    case Subject(Some(username)) =>
      if username == "" then
        Rejected(ErrorBody(UNAUTHORIZED, "Unauthorized", "Token não fornecido ou inválido", path))
      else
        match findUser(username)
        case None => Rejected(ErrorBody(UNAUTHORIZED, "Access prohibited", "Usuário não encontrado", path))
        case Some(role) => PassOn(Some(UserAccount(username, Authorities(role))))
  }

  /** filter: an API key first, then a bearer token, else pass on
      unauthenticated. */
  function Decide(req: Request, deviceExists: string -> bool, validate: string -> TokenCheck,
                  findUser: string -> Option<Role>): Outcome
  {
    var token := RecoverToken(req.authorization);
    if req.apiKey.Some? then ApiKeyOutcome(req.apiKey.value, req.path, deviceExists)
    else if token.Some? then TokenOutcome(validate(token.value), req.path, findUser)
    else PassOn(None)
  }

  /** An API key decides alone: the Authorization header is not looked at. */
  lemma ApiKeyTakesPrecedence(req: Request, authorization: Option<string>, deviceExists: string -> bool,
                              validate: string -> TokenCheck, findUser: string -> Option<Role>)
    requires req.apiKey.Some?
    ensures Decide(req, deviceExists, validate, findUser)
            == Decide(req.(authorization := authorization), deviceExists, validate, findUser)
    ensures Decide(req, deviceExists, validate, findUser).PassOn? <==> deviceExists(req.apiKey.value)
  {
  }

  /** Without an API key and a bearer token the request passes on with no
      principal; a request is only ever rejected with 401 or 403. */
  lemma NoCredentialsPassOn(req: Request, deviceExists: string -> bool, validate: string -> TokenCheck,
                            findUser: string -> Option<Role>)
    ensures req.apiKey.None? && RecoverToken(req.authorization).None? ==>
              Decide(req, deviceExists, validate, findUser) == PassOn(None)
    ensures var o := Decide(req, deviceExists, validate, findUser);
            o.Rejected? ==> o.body.status == UNAUTHORIZED || o.body.status == FORBIDDEN
    ensures var o := Decide(req, deviceExists, validate, findUser);
            o.PassOn? && o.principal.Some? ==> req.apiKey.Some? || RecoverToken(req.authorization).Some?
  {
  }

  /** An administrator's token runs the request with ROLE_ADMIN; a user's
      with ROLE_USER only. */
  lemma UserAuthorities(login: string, path: string, findUser: string -> Option<Role>)
    requires login != "" && findUser(login).Some?
    ensures var o := TokenOutcome(Subject(Some(login)), path, findUser);
            o.PassOn? && o.principal == Some(UserAccount(login, Authorities(findUser(login).value)))
            && (RoleAdminAuthority in o.principal.value.authorities <==> findUser(login).value == RoleAdmin)
  {
  }

  /** The response of one exchange, as the filter leaves it. */
  class Exchange {
    const path: string
    var status: Option<int>
    var contentType: Option<string>
    var written: Option<ErrorBody>
    var chained: bool
    var principal: Option<Principal>

    constructor (path: string)
      ensures this.path == path && status == None && contentType == None
      ensures written == None && !chained && principal == None
    {
      this.path := path;
      status := None;
      contentType := None;
      written := None;
      chained := false;
      principal := None;
    }

    /** handleException: sets the status and the JSON content type at once,
        and returns the body whose write happens only when it is
        subscribed to. */
    method HandleException(status: int, error: string, message: string) returns (body: ErrorBody)
      modifies this
      ensures body == ErrorBody(status, error, message, path)
      ensures this.status == Some(status) && contentType == Some(APPLICATION_JSON)
      ensures written == old(written) && chained == old(chained) && principal == old(principal)
    {
      this.status := Some(status);
      contentType := Some(APPLICATION_JSON);
      body := ErrorBody(status, error, message, path);
    }

    /** Subscribing to the write of an error body. */
    method Write(body: ErrorBody)
      modifies this
      ensures written == Some(body)
      ensures status == old(status) && contentType == old(contentType)
      ensures chained == old(chained) && principal == old(principal)
    {
      written := Some(body);
    }

    /** chain.filter(exchange), with the security context it runs in. */
    method Chain(p: Option<Principal>)
      modifies this
      ensures chained && principal == p
      ensures status == old(status) && contentType == old(contentType) && written == old(written)
    {
      chained := true;
      principal := p;
    }

    /** authenticateWithApiKey as written. The argument of switchIfEmpty is
        evaluated when the pipeline is built, so the 401 status and the JSON
        content type are set before the lookup. The flatMap to the chain
        completes empty, so switchIfEmpty also subscribes to the error's
        write once the chain is done: the body is written whether or not the
        device is found. */
    method AuthenticateWithApiKeyAsWritten(apiKey: string, deviceExists: string -> bool)
      modifies this
      ensures status == Some(UNAUTHORIZED) && contentType == Some(APPLICATION_JSON)
      ensures written == Some(ErrorBody(UNAUTHORIZED, "Access prohibited", "Chave de API inválida", path))
      ensures chained == (old(chained) || deviceExists(apiKey))
      ensures principal == (if deviceExists(apiKey) then Some(DeviceKey(apiKey)) else old(principal))
    {
      var pending := HandleException(UNAUTHORIZED, "Access prohibited", "Chave de API inválida");
      if deviceExists(apiKey) {
        Chain(Some(DeviceKey(apiKey)));
      }
      Write(pending);
    }

    /** authenticateWithToken as written. For a non-empty subject the
        "Usuário não encontrado" error is built, setting 401 and the JSON
        content type, before the user lookup; the chain for a known user
        completes empty, after which that error is written as well. The
        other paths touch the response only on rejection. */
    method AuthenticateWithTokenAsWritten(check: TokenCheck, findUser: string -> Option<Role>)
      modifies this
      ensures var lookedUp := check.Subject? && check.subject.Some? && check.subject.value != "";
              lookedUp ==>
                status == Some(UNAUTHORIZED) && contentType == Some(APPLICATION_JSON)
                && written == Some(ErrorBody(UNAUTHORIZED, "Access prohibited", "Usuário não encontrado", path))
                && chained == (old(chained) || findUser(check.subject.value).Some?)
                && principal == (if findUser(check.subject.value).Some?
                                 then Some(UserAccount(check.subject.value, Authorities(findUser(check.subject.value).value)))
                                 else old(principal))
      ensures var lookedUp := check.Subject? && check.subject.Some? && check.subject.value != "";
              !lookedUp ==> Reflects(TokenOutcome(check, path, findUser))
    {
      if check.Subject? && check.subject.Some? && check.subject.value != "" {
        var username := check.subject.value;
        var pending := HandleException(UNAUTHORIZED, "Access prohibited", "Usuário não encontrado");
        match findUser(username) {
          case None =>
          case Some(role) =>
            Chain(Some(UserAccount(username, Authorities(role))));
        }
        Write(pending);
      } else {
        AuthenticateWithToken(check, findUser);
      }
    }

    /** The response an outcome calls for, against the state before. */
    twostate predicate Reflects(o: Outcome)
      reads this
    {
      match o
      case PassOn(p) =>
        chained && principal == p && status == old(status) && contentType == old(contentType)
        && written == old(written)
      case Rejected(b) =>
        status == Some(b.status) && contentType == Some(APPLICATION_JSON) && written == Some(b)
        && chained == old(chained) && principal == old(principal)
      case NullSubject =>
        status == old(status) && contentType == old(contentType) && written == old(written)
        && chained == old(chained) && principal == old(principal)
    }

    /** authenticateWithApiKey with the error deferred until the lookup comes
        back empty: the response is touched only on rejection. */
    method AuthenticateWithApiKey(apiKey: string, deviceExists: string -> bool)
      modifies this
      ensures Reflects(ApiKeyOutcome(apiKey, path, deviceExists))
    {
      if deviceExists(apiKey) {
        Chain(Some(DeviceKey(apiKey)));
      } else {
        var body := HandleException(UNAUTHORIZED, "Access prohibited", "Chave de API inválida");
        Write(body);
      }
    }

    /** authenticateWithToken, with the user-not-found error deferred in the
        same way. */
    method AuthenticateWithToken(check: TokenCheck, findUser: string -> Option<Role>)
      modifies this
      ensures Reflects(TokenOutcome(check, path, findUser))
    {
      match check {
        case InvalidToken =>
          var body := HandleException(FORBIDDEN, "Token verification error", "Token inválido");
          Write(body);
        case ExpiredToken =>
          var body := HandleException(UNAUTHORIZED, "Token expired error", "Faça login novamente para prosseguir");
          Write(body);
        case Subject(None) =>
        case Subject(Some(username)) =>
          if username == "" {
            var body := HandleException(UNAUTHORIZED, "Unauthorized", "Token não fornecido ou inválido");
            Write(body);
          } else {
            match findUser(username) {
              case None =>
                var body := HandleException(UNAUTHORIZED, "Access prohibited", "Usuário não encontrado");
                Write(body);
              case Some(role) =>
                Chain(Some(UserAccount(username, Authorities(role))));
            }
          }
      }
    }

    /** filter: dispatch on the headers of the request. */
    method Filter(req: Request, deviceExists: string -> bool, validate: string -> TokenCheck,
                  findUser: string -> Option<Role>)
      requires req.path == path
      modifies this
      ensures Reflects(Decide(req, deviceExists, validate, findUser))
    {
      var token := RecoverToken(req.authorization);
      if req.apiKey.Some? {
        AuthenticateWithApiKey(req.apiKey.value, deviceExists);
      } else if token.Some? {
        AuthenticateWithToken(validate(token.value), findUser);
      } else {
        Chain(None);
      }
    }
  }

  /** A known API key on a fresh exchange: as written, the request goes on
      with the response status already set to 401, and the "Chave de API
      inválida" body is written after the chain. */
  method EagerStatusExample() returns (status: Option<int>, chained: bool, written: Option<ErrorBody>)
    ensures chained && status == Some(UNAUTHORIZED)
    ensures written == Some(ErrorBody(UNAUTHORIZED, "Access prohibited", "Chave de API inválida", "/devices"))
  {
    var exchange := new Exchange("/devices");
    exchange.AuthenticateWithApiKeyAsWritten("key", k => true);
    status, chained, written := exchange.status, exchange.chained, exchange.written;
  }

  /** The corrected version leaves the status and the body of a fresh
      exchange untouched when the key is known. */
  method DeferredStatusExample() returns (status: Option<int>, chained: bool, written: Option<ErrorBody>)
    ensures chained && status == None && written == None
  {
    var exchange := new Exchange("/devices");
    exchange.AuthenticateWithApiKey("key", k => true);
    status, chained, written := exchange.status, exchange.chained, exchange.written;
  }

  /** A known user's token on a fresh exchange: as written, the request goes
      on with the status 401, and "Usuário não encontrado" is written after
      the chain. */
  method EagerTokenExample() returns (status: Option<int>, chained: bool, written: Option<ErrorBody>)
    ensures chained && status == Some(UNAUTHORIZED)
    ensures written == Some(ErrorBody(UNAUTHORIZED, "Access prohibited", "Usuário não encontrado", "/readings"))
  {
    var exchange := new Exchange("/readings");
    exchange.AuthenticateWithTokenAsWritten(Subject(Some("ana")), u => Some(RoleUser));
    status, chained, written := exchange.status, exchange.chained, exchange.written;
  }

  /** The corrected version passes the same request on untouched. */
  method DeferredTokenExample() returns (status: Option<int>, chained: bool, written: Option<ErrorBody>)
    ensures chained && status == None && written == None
  {
    var exchange := new Exchange("/readings");
    exchange.AuthenticateWithToken(Subject(Some("ana")), u => Some(RoleUser));
    status, chained, written := exchange.status, exchange.chained, exchange.written;
  }
}
