/**
 * The bearer-token utility: issuing a signed compact JWT for a user, parsing
 * it back into claims or into a principal, and classifying every parser
 * failure into one of the application's three token exceptions.
 *
 * The token is a structured value rather than its base64url text, and the
 * HMAC-SHA-256 signature is the symbolic value `Sign(secret, header, payload)`:
 * a signature matches only the exact secret, header and payload it was made
 * from. The current time is a parameter (milliseconds since the epoch, as in
 * `java.util.Date`).
 */
module Jwt {
  import opened Results
  import JavaLong

  // ---------------------------------------------------------------------------
  // Transport constants
  // ---------------------------------------------------------------------------

  /** Name of the request header that carries the token. */
  const AuthorizationHeader: string := "Authorization"

  /** What precedes the token in that header: the word and one space. */
  const BearerPrefix: string := "Bearer "

  /** The header value a caller sends: the prefix, then the bare token. */
  function BearerCredential(token: string): (v: string)
    ensures |v| == |token| + 7
    ensures v[..6] == "Bearer" && v[6] == ' ' && v[7..] == token
  {
    BearerPrefix + token
  }

  // ---------------------------------------------------------------------------
  // Configuration, claims, tokens
  // ---------------------------------------------------------------------------

  /** The `token` part of the application's auth properties. TTLs are in milliseconds. */
  datatype TokenProperties = TokenProperties(
    tokenSecret: string,
    authTokenExpirationTime: int,
    findPasswordTokenExpirationTime: int)

  datatype ClaimValue = Str(s: string) | Num(n: int)

  /** A JWT claim set: claim name to JSON value. */
  type Claims = map<string, ClaimValue>

  const Subject: string := "sub"
  const Id: string := "jti"
  const Issuer: string := "iss"
  const IssuedAt: string := "iat"
  const Expiration: string := "exp"
  const NotBefore: string := "nbf"
  const Username: string := "username"

  /** The fixed issuer of every token this utility creates. */
  const IssuerName: string := "Camper"

  /**
   * A date claim holds whole seconds since the epoch: the library stores
   * `date.getTime() / 1000` with Java's division, which truncates toward zero.
   */
  function EpochSeconds(millis: int): int
  {
    if millis >= 0 then millis / 1000 else -((-millis) / 1000)
  }

  /** The instant, in milliseconds, that a date claim stands for; None when absent. */
  function DateClaim(c: Claims, name: string): Option<int>
  {
    if name in c && c[name].Num? then Some(c[name].n * 1000) else None
  }

  datatype Alg = NoAlg | HS256 | OtherAlg(name: string)

  datatype Header = Header(typ: Option<string>, alg: Alg)

  datatype Payload = ClaimsSet(claims: Claims) | Plaintext(text: string)

  /** A MAC made with a secret over a header and payload, or any other bytes. */
  datatype Signature = Mac(secret: string, header: Header, payload: Payload) | Bytes(bits: string)

  /** The keyed signature over header and payload. */
  function Sign(secret: string, header: Header, payload: Payload): Signature
  {
    Mac(secret, header, payload)
  }

  /**
   * A token as the parser sees it: a blank string, text that is not three
   * decodable dot-separated segments, or a header, a payload and an optional
   * signature (absent when the third segment is empty).
   */
  datatype Token =
    | Blank
    | Garbled
    | Compact(header: Header, payload: Payload, signature: Option<Signature>)

  /** The header every issued token carries. */
  const IssuedHeader: Header := Header(Some("JWT"), HS256)

  // ---------------------------------------------------------------------------
  // Issuing
  // ---------------------------------------------------------------------------

  /** One call of the library's token builder that touches the claim set. */
  datatype BuilderCall =
    | SetId(id: string)
    | SetSubject(sub: string)
    | SetClaims(replacement: Claims)
    | SetIssuer(iss: string)
    | SetIssuedAt(date: int)
    | SetExpiration(date: int)

  function Apply(c: Claims, call: BuilderCall): Claims
  {
    match call
    case SetId(id) => c[Id := Str(id)]
    case SetSubject(sub) => c[Subject := Str(sub)]
    case SetClaims(replacement) => replacement
    case SetIssuer(iss) => c[Issuer := Str(iss)]
    case SetIssuedAt(date) => c[IssuedAt := Num(EpochSeconds(date))]
    case SetExpiration(date) => c[Expiration := Num(EpochSeconds(date))]
  }

  /** The claim set after a chain of builder calls, applied left to right. */
  function ApplyAll(c: Claims, calls: seq<BuilderCall>): Claims
    decreases |calls|
  {
    if calls == [] then c else ApplyAll(Apply(c, calls[0]), calls[1..])
  }

  /** `setClaims` throws away every claim set before it, whatever the earlier calls were. */
  lemma {:induction false} SetClaimsReplaces(c: Claims, before: seq<BuilderCall>, p: Claims, after: seq<BuilderCall>)
    ensures ApplyAll(c, before + [SetClaims(p)] + after) == ApplyAll(p, after)
    decreases |before|
  {
    var calls := before + [SetClaims(p)] + after;
    if before == [] {
      assert calls[0] == SetClaims(p) && calls[1..] == after;
    } else {
      assert calls[0] == before[0];
      assert calls[1..] == before[1..] + [SetClaims(p)] + after;
      SetClaimsReplaces(Apply(c, before[0]), before[1..], p, after);
    }
  }

  /** The builder chain of `creatToken`, in source order. */
  function CreatTokenCalls(userId: string, email: string, now: int, expiryDate: int): seq<BuilderCall>
  {
    [ SetId(userId), SetSubject(email),
      SetClaims(map[Subject := Str(userId), Username := Str(email)]),
      SetIssuer(IssuerName), SetIssuedAt(now), SetExpiration(expiryDate) ]
  }

  /** The claims an issued token carries. */
  function IssuedClaims(userId: string, email: string, now: int, expiryDate: int): Claims
  {
    map[Subject := Str(userId), Username := Str(email), Issuer := Str(IssuerName),
        IssuedAt := Num(EpochSeconds(now)), Expiration := Num(EpochSeconds(expiryDate))]
  }

  /**
   * The effective claim layout: `sub` is the user id, `username` the email, and
   * neither the id (`jti`) nor the email-as-subject set before `setClaims` survives.
   */
  lemma {:induction false} CreatTokenClaims(userId: string, email: string, now: int, expiryDate: int)
    ensures ApplyAll(map[], CreatTokenCalls(userId, email, now, expiryDate)) == IssuedClaims(userId, email, now, expiryDate)
    ensures Id !in IssuedClaims(userId, email, now, expiryDate)
    ensures IssuedClaims(userId, email, now, expiryDate)[Subject] == Str(userId)
  {
    var payloads := map[Subject := Str(userId), Username := Str(email)];
    var tail := [SetIssuer(IssuerName), SetIssuedAt(now), SetExpiration(expiryDate)];
    assert CreatTokenCalls(userId, email, now, expiryDate) == [SetId(userId), SetSubject(email)] + [SetClaims(payloads)] + tail;
    SetClaimsReplaces(map[], [SetId(userId), SetSubject(email)], payloads, tail);
    var c1 := Apply(payloads, tail[0]);
    var c2 := Apply(c1, tail[1]);
    var c3 := Apply(c2, tail[2]);
    assert tail[1..] == [SetIssuedAt(now), SetExpiration(expiryDate)];
    assert tail[1..][1..] == [SetExpiration(expiryDate)];
    assert tail[1..][1..][1..] == [];
    assert ApplyAll(c2, tail[1..][1..]) == c3;
    assert ApplyAll(c1, tail[1..]) == c3;
    assert ApplyAll(payloads, tail) == c3;
  }

  /**
   * `creatToken`: a token signed with the configured secret whose expiration
   * is `now + expiryTime` (to the second) and whose subject is the user id.
   */
  function CreatToken(props: TokenProperties, userId: string, email: string, expiryTime: int, now: int): (t: Token)
    ensures t.Compact? && t.header == IssuedHeader
    ensures t.payload == ClaimsSet(IssuedClaims(userId, email, now, now + expiryTime))
    ensures t.signature == Some(Sign(props.tokenSecret, t.header, t.payload))
  {
    var expiryDate := now + expiryTime;
    var claims := ApplyAll(map[], CreatTokenCalls(userId, email, now, expiryDate));
    CreatTokenClaims(userId, email, now, expiryDate);
    Compact(IssuedHeader, ClaimsSet(claims), Some(Sign(props.tokenSecret, IssuedHeader, ClaimsSet(claims))))
  }

  /** `creatAuthToken`: the principal's name and username, with the auth-token TTL. */
  function CreatAuthToken(props: TokenProperties, name: string, username: string, now: int): (t: Token)
    ensures t.Compact? && t.payload.ClaimsSet?
    ensures ClaimOf(t.payload.claims, Expiration) == Some(Num(EpochSeconds(now + props.authTokenExpirationTime)))
    ensures ClaimOf(t.payload.claims, Subject) == Some(Str(name))
    ensures ClaimOf(t.payload.claims, Username) == Some(Str(username))
  {
    CreatToken(props, name, username, props.authTokenExpirationTime, now)
  }

  /** `creatFindPasswordToken`: the same claim shape, with the find-password TTL. */
  function CreatFindPasswordToken(props: TokenProperties, userId: string, email: string, now: int): (t: Token)
    ensures t.Compact? && t.payload.ClaimsSet?
    ensures ClaimOf(t.payload.claims, Expiration) == Some(Num(EpochSeconds(now + props.findPasswordTokenExpirationTime)))
    ensures ClaimOf(t.payload.claims, Subject) == Some(Str(userId))
    ensures ClaimOf(t.payload.claims, Username) == Some(Str(email))
  {
    CreatToken(props, userId, email, props.findPasswordTokenExpirationTime, now)
  }

  /** The two purposes differ in the expiration claim alone. */
  lemma PurposeIsolation(props: TokenProperties, userId: string, email: string, now: int)
    ensures var auth := CreatAuthToken(props, userId, email, now).payload.claims;
            var reset := CreatFindPasswordToken(props, userId, email, now).payload.claims;
            && auth.Keys == reset.Keys
            && auth - {Expiration} == reset - {Expiration}
  {
  }

  /** The instant an issued token stops being accepted: now + TTL, cut to whole seconds. */
  function ExpiryInstant(now: int, expiryTime: int): (e: int)
    ensures now + expiryTime >= 0 ==> now + expiryTime - 1000 < e <= now + expiryTime
    ensures now + expiryTime < 0 ==> now + expiryTime <= e < now + expiryTime + 1000
  {
    EpochSeconds(now + expiryTime) * 1000
  }

  // ---------------------------------------------------------------------------
  // The library parser and the classification of its exceptions
  // ---------------------------------------------------------------------------

  /** The exceptions the library parser throws. */
  datatype JwtException =
    | IllegalArgument     // null or blank input
    | MalformedJwt        // wrong shape, undecodable segment, or signed with algorithm "none"
    | SignatureMismatch   // the signature does not match header and payload
    | ExpiredJwt          // the exp claim lies before now
    | PrematureJwt        // the nbf claim lies after now
    | UnsupportedJwt      // an unsigned token, or a payload that is not a claim set

  predicate ExpiredAt(c: Claims, now: int)
  {
    DateClaim(c, Expiration).Some? && now > DateClaim(c, Expiration).value
  }

  predicate PrematureAt(c: Claims, now: int)
  {
    DateClaim(c, NotBefore).Some? && now < DateClaim(c, NotBefore).value
  }

  /** A token that carries a matching signature made with the secret over its own header and payload. */
  predicate Authentic(secret: string, token: Token)
  {
    token.Compact? && token.header.alg != NoAlg && token.signature == Some(Sign(secret, token.header, token.payload))
  }

  /**
   * `Jwts.parser().setSigningKey(secret).parseClaimsJws(token)`, in the order
   * the library checks: input, shape, algorithm, signature, expiration,
   * not-before, and finally that the token is a signed claim set.
   */
  function ParseClaimsJws(secret: string, token: Token, now: int): (r: Result<Claims, JwtException>)
    ensures r.Ok? <==> Authentic(secret, token) && token.payload.ClaimsSet?
                       && !ExpiredAt(token.payload.claims, now) && !PrematureAt(token.payload.claims, now)
    ensures r.Ok? ==> r.value == token.payload.claims
    ensures r == Err(SignatureMismatch) ==> token.Compact? && token.signature.Some? && !Authentic(secret, token)
    ensures r == Err(ExpiredJwt) ==> token.Compact? && token.payload.ClaimsSet? && ExpiredAt(token.payload.claims, now)
  {
    match token
    case Blank => Err(IllegalArgument)
    case Garbled => Err(MalformedJwt)
    case Compact(header, payload, signature) =>
      if signature.Some? && header.alg == NoAlg then Err(MalformedJwt)
      else if signature.Some? && signature.value != Sign(secret, header, payload) then Err(SignatureMismatch)
      else if payload.ClaimsSet? && ExpiredAt(payload.claims, now) then Err(ExpiredJwt)
      else if payload.ClaimsSet? && PrematureAt(payload.claims, now) then Err(PrematureJwt)
      else if signature.None? || payload.Plaintext? then Err(UnsupportedJwt)
      else Ok(payload.claims)
  }

  /** What a caller of the token utility can see thrown. */
  datatype Thrown =
    | NotValidToken               // NotValidTokenException
    | ExpiredToken                // ExpiredTokenException
    | UnsupportedToken            // UnsupportedTokenException
    | Uncaught(cause: JwtException)  // a library exception that passes through unmapped
    | NumberFormat                // NumberFormatException from reading the subject as a long

  /** The catch list of `validateToken` as written: two library exceptions are not caught. */
  function CatchAsWritten(e: JwtException): (t: Thrown)
    ensures t.Uncaught? <==> e == SignatureMismatch || e == PrematureJwt
    ensures t.Uncaught? ==> t.cause == e
    ensures t == NotValidToken <==> e == IllegalArgument || e == MalformedJwt
    ensures t == ExpiredToken <==> e == ExpiredJwt
    ensures t == UnsupportedToken <==> e == UnsupportedJwt
  {
    match e
    case IllegalArgument => NotValidToken
    case MalformedJwt => NotValidToken
    case ExpiredJwt => ExpiredToken
    case UnsupportedJwt => UnsupportedToken
    case SignatureMismatch => Uncaught(e)
    case PrematureJwt => Uncaught(e)
  }

  /** The catch list made total: every failure that is not expiry or an unsupported token is "not valid". */
  function Catch(e: JwtException): (t: Thrown)
    ensures t == NotValidToken || t == ExpiredToken || t == UnsupportedToken
    ensures t == ExpiredToken <==> e == ExpiredJwt
    ensures t == UnsupportedToken <==> e == UnsupportedJwt
  {
    match e
    case ExpiredJwt => ExpiredToken
    case UnsupportedJwt => UnsupportedToken
    case _ => NotValidToken
  }

  /** `validateToken` as written: true, or one of the mapped exceptions, or an unmapped one. */
  function ValidateTokenAsWritten(props: TokenProperties, token: Token, now: int): (r: Result<bool, Thrown>)
    ensures r != Ok(false)
    ensures r == Ok(true) <==> ParseClaimsJws(props.tokenSecret, token, now).Ok?
    ensures r.Err? && r.error.Uncaught? ==> r.error.cause == SignatureMismatch || r.error.cause == PrematureJwt
    ensures ParseClaimsJws(props.tokenSecret, token, now).Err? ==>
              r == Err(CatchAsWritten(ParseClaimsJws(props.tokenSecret, token, now).error))
  {
    match ParseClaimsJws(props.tokenSecret, token, now)
    case Ok(_) => Ok(true)
    case Err(e) => Err(CatchAsWritten(e))
  }

  /**
   * `validateToken`: returns true or throws one of the three token exceptions,
   * never returns false, and never turns one kind of failure into another.
   */
  function ValidateToken(props: TokenProperties, token: Token, now: int): (r: Result<bool, Thrown>)
    ensures r == Ok(true) || r == Err(NotValidToken) || r == Err(ExpiredToken) || r == Err(UnsupportedToken)
    ensures r == Ok(true) <==> ParseClaimsJws(props.tokenSecret, token, now).Ok?
    ensures r == Err(ExpiredToken) <==> ParseClaimsJws(props.tokenSecret, token, now) == Err(ExpiredJwt)
    ensures r == Err(UnsupportedToken) <==> ParseClaimsJws(props.tokenSecret, token, now) == Err(UnsupportedJwt)
  {
    match ParseClaimsJws(props.tokenSecret, token, now)
    case Ok(_) => Ok(true)
    case Err(e) => Err(Catch(e))
  }

  // ---------------------------------------------------------------------------
  // Reading a token
  // ---------------------------------------------------------------------------

  /**
   * `getBody`: validate at `now`, then parse again at `readAt` and return the
   * claims. The second parse reads the clock anew and sits outside any try,
   * so its exception reaches the caller unmapped.
   */
  function GetBody(props: TokenProperties, token: Token, now: int, readAt: int): (r: Result<Claims, Thrown>)
    requires now <= readAt
    ensures ValidateToken(props, token, now).Err? ==> r == Err(ValidateToken(props, token, now).error)
    ensures r.Ok? ==> ValidateToken(props, token, now) == Ok(true)
                      && Authentic(props.tokenSecret, token) && token.payload == ClaimsSet(r.value)
    ensures ValidateToken(props, token, now) == Ok(true) ==>
              && token.Compact? && token.payload.ClaimsSet?
              && (r.Ok? <==> !ExpiredAt(token.payload.claims, readAt))
              && (r.Err? ==> r == Err(Uncaught(ExpiredJwt)))
  {
    match ValidateToken(props, token, now)
    case Err(e) => Err(e)
    case Ok(_) =>
      match ParseClaimsJws(props.tokenSecret, token, readAt)
      case Ok(claims) => Ok(claims)
      case Err(e) => Err(Uncaught(e))
  }

  /** `String.valueOf` of a claim read with `get`: "null" when the claim is absent. */
  function StringValueOf(v: Option<ClaimValue>): string
  {
    match v
    case None => "null"
    case Some(Str(s)) => s
    case Some(Num(n)) => JavaLong.ShowInt(n)
  }

  function ClaimOf(c: Claims, name: string): Option<ClaimValue>
  {
    if name in c then Some(c[name]) else None
  }

  /** `claims.getSubject()`: the `sub` claim as a string, or null. */
  function SubjectOf(c: Claims): Option<string>
  {
    if Subject in c then Some(StringValueOf(Some(c[Subject]))) else None
  }

  /** The principal a token authenticates. */
  datatype UserPrincipal = UserPrincipal(id: int, email: string)

  /** A subject that `Long.parseLong` accepts. */
  predicate NumericSubject(c: Claims)
  {
    SubjectOf(c).Some? && JavaLong.ParseLong(SubjectOf(c).value).Some?
  }

  /** `getPrincipal`: the claims `getBody` returns, `sub` read as a long and `username` as the email. */
  function GetPrincipal(props: TokenProperties, token: Token, now: int, readAt: int): (r: Result<UserPrincipal, Thrown>)
    requires now <= readAt
    ensures ValidateToken(props, token, now).Err? ==> r == Err(ValidateToken(props, token, now).error)
    ensures r.Ok? || r == Err(NumberFormat) ==> ValidateToken(props, token, now) == Ok(true)
    ensures r.Err? && r.error.Uncaught? ==> r == Err(Uncaught(ExpiredJwt))
    ensures r.Ok? ==> JavaLong.MinLong <= r.value.id <= JavaLong.MaxLong
    ensures r.Ok? ==> token.Compact? && token.payload.ClaimsSet?
                      && SubjectOf(token.payload.claims).Some?
                      && JavaLong.ParseLong(SubjectOf(token.payload.claims).value) == Some(r.value.id)
                      && r.value.email == StringValueOf(ClaimOf(token.payload.claims, Username))
    ensures ValidateToken(props, token, now) == Ok(true) ==>
              (r.Ok? <==> !ExpiredAt(token.payload.claims, readAt) && NumericSubject(token.payload.claims))
    ensures ValidateToken(props, token, now) == Ok(true) && ExpiredAt(token.payload.claims, readAt) ==>
              r == Err(Uncaught(ExpiredJwt))
    ensures (ValidateToken(props, token, now) == Ok(true) && !ExpiredAt(token.payload.claims, readAt)
             && !NumericSubject(token.payload.claims)) ==> r == Err(NumberFormat)
  {
    match GetBody(props, token, now, readAt)
    case Err(e) => Err(e)
    case Ok(claims) =>
      match SubjectOf(claims)
      case None => Err(NumberFormat)
      case Some(sub) =>
        match JavaLong.ParseLong(sub)
        case None => Err(NumberFormat)
        case Some(id) => Ok(UserPrincipal(id, StringValueOf(ClaimOf(claims, Username))))
  }

  /** `getExpiredDate`: the `exp` claim of the claims `getBody` returns; it never lies before the read. */
  function GetExpiredDate(props: TokenProperties, token: Token, now: int, readAt: int): (r: Result<Option<int>, Thrown>)
    requires now <= readAt
    ensures ValidateToken(props, token, now).Err? ==> r == Err(ValidateToken(props, token, now).error)
    ensures r.Ok? <==> ValidateToken(props, token, now) == Ok(true) && !ExpiredAt(token.payload.claims, readAt)
    ensures r.Err? && r.error.Uncaught? ==> r == Err(Uncaught(ExpiredJwt))
    ensures ValidateToken(props, token, now) == Ok(true) && ExpiredAt(token.payload.claims, readAt) ==>
              r == Err(Uncaught(ExpiredJwt))
    ensures r.Ok? ==> token.Compact? && token.payload.ClaimsSet? && r.value == DateClaim(token.payload.claims, Expiration)
    ensures r.Ok? && r.value.Some? ==> readAt <= r.value.value
  {
    match GetBody(props, token, now, readAt)
    case Err(e) => Err(e)
    case Ok(claims) => Ok(DateClaim(claims, Expiration))
  }

  // ---------------------------------------------------------------------------
  // Properties of issued tokens
  // ---------------------------------------------------------------------------

  /** An issued token is accepted up to and including its expiry instant and expired after it. */
  lemma IssuedTokenValidity(props: TokenProperties, userId: string, email: string, expiryTime: int, now: int, later: int)
    ensures ValidateToken(props, CreatToken(props, userId, email, expiryTime, now), later)
            == if later <= ExpiryInstant(now, expiryTime) then Ok(true) else Err(ExpiredToken)
  {
    var t := CreatToken(props, userId, email, expiryTime, now);
    assert DateClaim(t.payload.claims, Expiration) == Some(ExpiryInstant(now, expiryTime));
    assert NotBefore !in t.payload.claims;
  }

  /**
   * Round trip: the principal read back from an issued token is the one it was
   * issued for, as long as both parses happen before the token expires.
   */
  lemma IssueThenGetPrincipal(props: TokenProperties, id: int, email: string, expiryTime: int, now: int, later: int, readAt: int)
    requires JavaLong.MinLong <= id <= JavaLong.MaxLong
    requires later <= readAt <= ExpiryInstant(now, expiryTime)
    ensures GetPrincipal(props, CreatToken(props, JavaLong.ShowInt(id), email, expiryTime, now), later, readAt)
            == Ok(UserPrincipal(id, email))
  {
    var t := CreatToken(props, JavaLong.ShowInt(id), email, expiryTime, now);
    IssuedTokenValidity(props, JavaLong.ShowInt(id), email, expiryTime, now, later);
    IssuedTokenValidity(props, JavaLong.ShowInt(id), email, expiryTime, now, readAt);
    assert GetBody(props, t, later, readAt) == Ok(t.payload.claims);
    JavaLong.ParseShowInt(id);
  }

  /** The expiration read back from a live issued token is its expiry instant. */
  lemma IssuedExpiredDate(props: TokenProperties, userId: string, email: string, expiryTime: int, now: int, later: int, readAt: int)
    requires later <= readAt <= ExpiryInstant(now, expiryTime)
    ensures GetExpiredDate(props, CreatToken(props, userId, email, expiryTime, now), later, readAt)
            == Ok(Some(ExpiryInstant(now, expiryTime)))
  {
    IssuedTokenValidity(props, userId, email, expiryTime, now, later);
  }

  /** Past its expiry, nothing can be read from an issued token: every reader throws ExpiredToken. */
  lemma ExpiredTokenUnreadable(props: TokenProperties, userId: string, email: string, expiryTime: int, now: int, later: int, readAt: int)
    requires ExpiryInstant(now, expiryTime) < later <= readAt
    ensures var t := CreatToken(props, userId, email, expiryTime, now);
            && GetBody(props, t, later, readAt) == Err(ExpiredToken)
            && GetPrincipal(props, t, later, readAt) == Err(ExpiredToken)
            && GetExpiredDate(props, t, later, readAt) == Err(ExpiredToken)
  {
    IssuedTokenValidity(props, userId, email, expiryTime, now, later);
  }

  /**
   * A token that expires between the validating parse and the reading parse:
   * the reading parse's ExpiredJwtException reaches the caller of every reader
   * as it is, not as ExpiredTokenException.
   */
  lemma ExpiryBetweenParsesEscapes(props: TokenProperties, userId: string, email: string, expiryTime: int, now: int, later: int, readAt: int)
    requires later <= ExpiryInstant(now, expiryTime) < readAt
    ensures var t := CreatToken(props, userId, email, expiryTime, now);
            && GetBody(props, t, later, readAt) == Err(Uncaught(ExpiredJwt))
            && GetPrincipal(props, t, later, readAt) == Err(Uncaught(ExpiredJwt))
            && GetExpiredDate(props, t, later, readAt) == Err(Uncaught(ExpiredJwt))
  {
    IssuedTokenValidity(props, userId, email, expiryTime, now, later);
    var t := CreatToken(props, userId, email, expiryTime, now);
    assert DateClaim(t.payload.claims, Expiration) == Some(ExpiryInstant(now, expiryTime));
  }

  /** A live token whose user id is not a decimal long yields NumberFormatException from getPrincipal. */
  lemma NonNumericSubjectFails(props: TokenProperties, userId: string, email: string, expiryTime: int, now: int, later: int, readAt: int)
    requires JavaLong.ParseLong(userId).None?
    requires later <= readAt <= ExpiryInstant(now, expiryTime)
    ensures GetPrincipal(props, CreatToken(props, userId, email, expiryTime, now), later, readAt) == Err(NumberFormat)
  {
    IssuedTokenValidity(props, userId, email, expiryTime, now, later);
  }

  /** Input that is blank, garbled, or signed under algorithm "none" is not valid. */
  lemma MalformedInputIsNotValid(props: TokenProperties, h: Header, p: Payload, s: Signature, now: int)
    requires h.alg == NoAlg
    ensures ValidateToken(props, Blank, now) == Err(NotValidToken)
    ensures ValidateToken(props, Garbled, now) == Err(NotValidToken)
    ensures ValidateToken(props, Compact(h, p, Some(s)), now) == Err(NotValidToken)
  {
  }

  /**
   * Tamper detection: any change to the payload of a signed token, or any
   * other signature, makes it not valid, whatever the time.
   */
  lemma TamperedTokenIsNotValid(props: TokenProperties, t: Token, p: Payload, s: Signature, now: int)
    requires Authentic(props.tokenSecret, t)
    requires p != t.payload
    requires s != t.signature.value
    ensures ValidateToken(props, t.(payload := p), now) == Err(NotValidToken)
    ensures ValidateToken(props, t.(signature := Some(s)), now) == Err(NotValidToken)
  {
  }

  /** An unsigned claim set is unsupported unless its own dates already rule it out. */
  lemma UnsignedTokenIsUnsupported(props: TokenProperties, h: Header, c: Claims, now: int)
    requires !ExpiredAt(c, now) && !PrematureAt(c, now)
    ensures ValidateToken(props, Compact(h, ClaimsSet(c), None), now) == Err(UnsupportedToken)
  {
  }

  // ---------------------------------------------------------------------------
  // The uncaught exceptions of validateToken as written
  // ---------------------------------------------------------------------------

  /**
   * An issued token whose subject was changed after signing: as written the
   * library's signature exception escapes `validateToken` unmapped; the total
   * catch list reports it as not valid.
   */
  lemma AlteredSubjectEscapesAsWritten(props: TokenProperties, userId: string, forged: string, email: string, expiryTime: int, now: int, later: int)
    requires forged != userId
    ensures var t := CreatToken(props, userId, email, expiryTime, now);
            var altered := t.(payload := ClaimsSet(t.payload.claims[Subject := Str(forged)]));
            && ValidateTokenAsWritten(props, altered, later) == Err(Uncaught(SignatureMismatch))
            && ValidateToken(props, altered, later) == Err(NotValidToken)
  {
    var t := CreatToken(props, userId, email, expiryTime, now);
    var altered := t.(payload := ClaimsSet(t.payload.claims[Subject := Str(forged)]));
    assert altered.payload.claims[Subject] != t.payload.claims[Subject];
    assert altered.payload != t.payload;
  }

  /**
   * A correctly signed token whose `nbf` lies in the future: as written the
   * library's premature-token exception escapes `validateToken` unmapped; the
   * total catch list reports it as not valid.
   */
  lemma FutureNotBeforeEscapesAsWritten(props: TokenProperties, c: Claims, notBefore: int, now: int)
    requires now < notBefore * 1000 && !ExpiredAt(c, now)
    ensures var t := Compact(IssuedHeader, ClaimsSet(c[NotBefore := Num(notBefore)]),
                             Some(Sign(props.tokenSecret, IssuedHeader, ClaimsSet(c[NotBefore := Num(notBefore)]))));
            && ValidateTokenAsWritten(props, t, now) == Err(Uncaught(PrematureJwt))
            && ValidateToken(props, t, now) == Err(NotValidToken)
  {
    var c' := c[NotBefore := Num(notBefore)];
    assert DateClaim(c', Expiration) == DateClaim(c, Expiration);
  }
}
