/**
 * The bearer-credential gate of middleware/auth.go: header classification,
 * the cached key validation behind `RequireAuth`, and the root-key check of
 * `RequireRoot`. HTTP plumbing is replaced by a result carrying the status
 * code and the reason; JWT verification and the datastore are inputs.
 */
module Middleware {
  import opened Wrappers
  import opened Strings
  import opened ObjectIds

  /** The role a root token must reach to authorise administrative calls. */
  const RootRole: int := 100

  const BearerPrefix: string := "Bearer "
  const KeySeparator: char := '|'
  const PublicDbPrefix: string := "/db/pub_"
  const PublicQueryPrefix: string := "/query/pub_"

  const StatusBadRequest: int := 400
  const StatusUnauthorized: int := 401

  /** An authenticated user, as attached to the request context. */
  datatype Auth = Auth(accountId: ObjectId, userId: ObjectId, email: string, role: int)

  /** A stored token record, as the datastore returns it. */
  datatype Token = Token(id: ObjectId, accountId: ObjectId, token: string, email: string, role: int)

  /** The `Auth` both gates build from a found token: the token's ID becomes the user ID. */
  function AuthOf(t: Token): (a: Auth)
    ensures a.accountId == t.accountId && a.userId == t.id && a.email == t.email && a.role == t.role
  {
    Auth(t.accountId, t.id, t.email, t.role)
  }

  /** The base (tenant database) already resolved from the public key. */
  datatype BaseConfig = BaseConfig(name: string)

  /** Arguments of `internal.FindToken(db, id, token)`. */
  datatype TokenKey = TokenKey(db: string, id: ObjectId, token: string)

  /** Arguments of `internal.FindRootToken(db, id, accountID, token)`. */
  datatype RootTokenKey = RootTokenKey(db: string, id: ObjectId, accountId: ObjectId, token: string)

  /**
   * What a request meets besides its header. `payloads` holds the keys
   * whose signature verifies, mapped to the `Token` field of their payload;
   * `base` is the request's base config, if any; `tokens` and `rootTokens`
   * answer the two datastore lookups (a missing key is a lookup error).
   */
  datatype Env = Env(
    payloads: map<string, string>,
    base: Option<BaseConfig>,
    tokens: map<TokenKey, Token>,
    rootTokens: map<RootTokenKey, Token>)

  /** Why `ValidateAuthKey` refused a key. */
  datatype KeyError = Unverified | NoBaseConfig | BadPartCount | BadKeyFormat | TokenNotFound

  /** Why a gate refused a request. */
  datatype Reason =
    | MissingHeader
    | MalformedHeader
    | KeyRejected(cause: KeyError)
    | InvalidRootToken
    | InvalidPublicKey
    | RootTokenNotFound
    | NotEnoughPermission

  /** A refused request: the HTTP status and the reason. */
  datatype Denied = Denied(status: int, reason: Reason)

  /** The three shapes of an `Authorization` header. */
  datatype Header = NoHeader | NotBearer | Bearer(key: string)

  /** Both gates: empty, without the `Bearer ` prefix, or the key with every `Bearer ` removed. */
  function ClassifyHeader(header: string): (h: Header)
    ensures h.NoHeader? <==> |header| == 0
    ensures h.NotBearer? <==> |header| > 0 && !HasPrefix(header, BearerPrefix)
    ensures h.Bearer? ==> h.key == ReplaceAll(header, BearerPrefix, "") && |h.key| <= |header| - |BearerPrefix|
  {
    if |header| == 0 then NoHeader
    else if !HasPrefix(header, BearerPrefix) then NotBearer
    else
      assert header == BearerPrefix + header[|BearerPrefix|..];
      ReplaceAllAtPrefix(BearerPrefix, header[|BearerPrefix|..], "");
      Bearer(ReplaceAll(header, BearerPrefix, ""))
  }

  /** A key that does not itself contain `Bearer ` is recovered from its header. */
  lemma BearerKeyRecovered(v: string)
    requires !Contains(v, BearerPrefix)
    ensures ClassifyHeader(BearerPrefix + v) == Bearer(v)
  {
    ReplaceAllAtPrefix(BearerPrefix, v, "");
    assert HasPrefix(BearerPrefix + v, BearerPrefix) by {
      assert (BearerPrefix + v)[..|BearerPrefix|] == BearerPrefix;
    }
  }

  /**
   * Stripping removes every `Bearer `, not only the prefix: a second one
   * after the `|` of a key disappears as well.
   */
  lemma EveryBearerStripped(v: string, w: string)
    requires !Contains(v, BearerPrefix) && !Contains(w, BearerPrefix)
    ensures ClassifyHeader(BearerPrefix + (v + ([KeySeparator] + (BearerPrefix + w)))) == Bearer(v + ([KeySeparator] + w))
  {
    PrefixOfConcat(BearerPrefix, v + ([KeySeparator] + (BearerPrefix + w)));
    ReplaceAllAroundChar(BearerPrefix, v, KeySeparator, w, "");
    assert "" + w == w;
    assert "" + (v + ([KeySeparator] + w)) == v + ([KeySeparator] + w);
  }

  /** Tables whose name starts with `pub_` are public; every other table is not. */
  lemma PublicPaths(name: string)
    ensures IsPublicPath(PublicDbPrefix + name) && IsPublicPath(PublicQueryPrefix + name)
    ensures !HasPrefix(name, "pub_") ==> !IsPublicPath("/db/" + name) && !IsPublicPath("/query/" + name)
  {
    assert (PublicDbPrefix + name)[..|PublicDbPrefix|] == PublicDbPrefix;
    assert (PublicQueryPrefix + name)[..|PublicQueryPrefix|] == PublicQueryPrefix;
    var d, q := "/db/" + name, "/query/" + name;
    assert |PublicQueryPrefix| <= |d| ==> d[..|PublicQueryPrefix|][1] == 'd';
    assert |PublicDbPrefix| <= |d| ==> d[..|PublicDbPrefix|][4..] == name[..4];
    assert |PublicDbPrefix| <= |q| ==> q[..|PublicDbPrefix|][1] == 'q';
    assert |PublicQueryPrefix| <= |q| ==> q[..|PublicQueryPrefix|][7..] == name[..4];
  }

  /** The public-resource convention of `RequireAuth`. */
  predicate IsPublicPath(path: string)
  {
    HasPrefix(path, PublicDbPrefix) || HasPrefix(path, PublicQueryPrefix)
  }

  /**
   * The cache-miss path of `ValidateAuthKey`: split `apiKey` on `|` into
   * exactly two parts, parse part 0 as an ObjectID and look the token up
   * with part 1 as the secret.
   */
  function ResolveApiKey(db: string, tokens: map<TokenKey, Token>, apiKey: string): (r: Result<Auth, KeyError>)
    ensures |Split(apiKey, KeySeparator)| != 2 ==> r == Failure(BadPartCount)
    ensures |Split(apiKey, KeySeparator)| == 2 && !IsObjectIdHex(Split(apiKey, KeySeparator)[0]) ==>
              r == Failure(BadKeyFormat)
    ensures |Split(apiKey, KeySeparator)| == 2 && IsObjectIdHex(Split(apiKey, KeySeparator)[0]) ==>
              var parts := Split(apiKey, KeySeparator);
              var k := TokenKey(db, ObjectIdFromHex(parts[0]).value, parts[1]);
              r == if k in tokens then Success(AuthOf(tokens[k])) else Failure(TokenNotFound)
  {
    var parts := Split(apiKey, KeySeparator);
    if |parts| != 2 then Failure(BadPartCount)
    else
      match ObjectIdFromHex(parts[0])
      case None => Failure(BadKeyFormat)
      case Some(id) =>
        var k := TokenKey(db, id, parts[1]);
        if k in tokens then Success(AuthOf(tokens[k])) else Failure(TokenNotFound)
  }

  /** An API key `hex(id)|secret` resolves to the token stored for it. */
  lemma ApiKeyResolves(db: string, tokens: map<TokenKey, Token>, id: ObjectId, secret: string)
    requires |id.bytes| == ObjectIdBytes && KeySeparator !in secret
    requires TokenKey(db, id, secret) in tokens
    ensures ResolveApiKey(db, tokens, Hex(id) + [KeySeparator] + secret)
            == Success(AuthOf(tokens[TokenKey(db, id, secret)]))
  {
    HexHasNoBar(Hex(id));
    SplitAtFirstSeparator(Hex(id), KeySeparator, secret);
    SplitWithoutSeparator(secret, KeySeparator);
    FromHexOfHex(id);
  }

  /** Which string a cache miss splits: the code splits the raw key, the payload token is intended. */
  datatype MissSubject = RawKey | PayloadToken

  /**
   * One `ValidateAuthKey` call, given the cache before it: the result and
   * the cache after it. Verification and the base-config check come first,
   * then the cache keyed by the payload token, then the lookup.
   */
  function ValidateOn(cache: map<string, Auth>, env: Env, key: string, subject: MissSubject)
    : (out: (Result<Auth, KeyError>, map<string, Auth>))
    ensures key !in env.payloads ==> out == (Failure(Unverified), cache)
    ensures key in env.payloads && env.base.None? ==> out == (Failure(NoBaseConfig), cache)
    ensures key in env.payloads && env.base.Some? && env.payloads[key] in cache ==>
              out == (Success(cache[env.payloads[key]]), cache)
    ensures out.0.Failure? ==> out.1 == cache
    ensures out.0.Success? ==> key in env.payloads && out.1 == cache[env.payloads[key] := out.0.value]
  {
    if key !in env.payloads then (Failure(Unverified), cache)
    else if env.base.None? then (Failure(NoBaseConfig), cache)
    else
      var plToken := env.payloads[key];
      if plToken in cache then
        assert cache[plToken := cache[plToken]] == cache;
        (Success(cache[plToken]), cache)
      else
        var apiKey := if subject == RawKey then key else plToken;
        match ResolveApiKey(env.base.value.name, env.tokens, apiKey)
        case Failure(e) => (Failure(e), cache)
        case Success(a) => (Success(a), cache[plToken := a])
  }

  /** `ValidateAuthKey` as written: a miss splits the raw bearer key. */
  function ValidateAsWritten(cache: map<string, Auth>, env: Env, key: string): (out: (Result<Auth, KeyError>, map<string, Auth>))
    ensures key in env.payloads && env.base.Some? && env.payloads[key] !in cache ==>
              out.0 == ResolveApiKey(env.base.value.name, env.tokens, key)
  {
    ValidateOn(cache, env, key, RawKey)
  }

  /** `ValidateAuthKey` as intended: a miss splits the payload's `id|secret` token. */
  function Validate(cache: map<string, Auth>, env: Env, key: string): (out: (Result<Auth, KeyError>, map<string, Auth>))
    ensures key in env.payloads && env.base.Some? && env.payloads[key] !in cache ==>
              out.0 == ResolveApiKey(env.base.value.name, env.tokens, env.payloads[key])
  {
    ValidateOn(cache, env, key, PayloadToken)
  }

  /** A base64url character (section 5 of RFC 4648). */
  predicate IsBase64UrlChar(c: char)
  {
    'A' <= c <= 'Z' || 'a' <= c <= 'z' || '0' <= c <= '9' || c == '-' || c == '_'
  }

  /** The compact serialization of a signed JWT (section 7.1 of RFC 7515): three base64url segments joined by dots. */
  predicate IsCompactJws(key: string)
  {
    |Split(key, '.')| == 3 && forall i :: 0 <= i < |key| ==> IsBase64UrlChar(key[i]) || key[i] == '.'
  }

  /** As written, a key that is a signed JWT never survives a cache miss. */
  lemma AsWrittenMissAlwaysRejected(cache: map<string, Auth>, env: Env, key: string)
    requires IsCompactJws(key)
    requires key in env.payloads && env.base.Some? && env.payloads[key] !in cache
    ensures ValidateAsWritten(cache, env, key) == (Failure(BadPartCount), cache)
  {
    SplitWithoutSeparator(key, KeySeparator);
  }

  /** As intended, a miss on a payload token `hex(id)|secret` resolves and caches that token. */
  lemma IntendedMissResolves(cache: map<string, Auth>, env: Env, key: string, id: ObjectId, secret: string)
    requires key in env.payloads && env.base.Some?
    requires env.payloads[key] == Hex(id) + [KeySeparator] + secret && env.payloads[key] !in cache
    requires |id.bytes| == ObjectIdBytes && KeySeparator !in secret
    requires TokenKey(env.base.value.name, id, secret) in env.tokens
    ensures var a := AuthOf(env.tokens[TokenKey(env.base.value.name, id, secret)]);
            Validate(cache, env, key) == (Success(a), cache[env.payloads[key] := a])
  {
    ApiKeyResolves(env.base.value.name, env.tokens, id, secret);
  }

  /**
   * A key validated once is answered from the cache afterwards, whatever the
   * datastore then holds: the second call consults no lookup.
   */
  lemma SecondValidationHitsCache(cache: map<string, Auth>, env: Env, key: string, tokens': map<TokenKey, Token>)
    requires Validate(cache, env, key).0.Success?
    ensures var (r, cache') := Validate(cache, env, key);
            Validate(cache', env.(tokens := tokens'), key) == (r, cache')
  {
  }

  /** The process-wide `tokens` cache and the two operations that use it. */
  class TokenCache {
    /** Payload token to the `Auth` resolved for it; entries are never evicted. */
    var tokens: map<string, Auth>

    constructor ()
      ensures tokens == map[]
    {
      tokens := map[];
    }

    /** `ValidateAuthKey`, reading and updating the cache in place. */
    method ValidateAuthKey(env: Env, key: string) returns (r: Result<Auth, KeyError>)
      modifies this
      ensures (r, tokens) == Validate(old(tokens), env, key)
      ensures r.Failure? ==> tokens == old(tokens)
      ensures r.Success? ==> tokens == old(tokens)[env.payloads[key] := r.value]
    {
      if key !in env.payloads {
        return Failure(Unverified);
      }
      var plToken := env.payloads[key];
      if env.base.None? {
        return Failure(NoBaseConfig);
      }
      if plToken in tokens {
        r := Success(tokens[plToken]);
        assert tokens[plToken := r.value] == tokens;
        return;
      }
      r := ResolveApiKey(env.base.value.name, env.tokens, plToken);
      if r.Success? {
        tokens := tokens[plToken := r.value];
      }
    }

    /**
     * The `RequireAuth` handler: `freshIds` stands for the two
     * `primitive.NewObjectID()` values of the public case.
     */
    method RequireAuth(header: string, path: string, freshIds: (ObjectId, ObjectId), env: Env)
      returns (r: Result<Auth, Denied>)
      modifies this
      ensures |header| == 0 && IsPublicPath(path) ==>
                r == Success(Auth(freshIds.0, freshIds.1, "", 0)) && tokens == old(tokens)
      ensures |header| == 0 && !IsPublicPath(path) ==>
                r == Failure(Denied(StatusUnauthorized, MissingHeader)) && tokens == old(tokens)
      ensures |header| > 0 && !HasPrefix(header, BearerPrefix) ==>
                r == Failure(Denied(StatusBadRequest, MalformedHeader)) && tokens == old(tokens)
      ensures HasPrefix(header, BearerPrefix) ==>
                var (v, cache') := Validate(old(tokens), env, ReplaceAll(header, BearerPrefix, ""));
                tokens == cache' &&
                r == (if v.Success? then Success(v.value) else Failure(Denied(StatusBadRequest, KeyRejected(v.error))))
    {
      match ClassifyHeader(header)
      case NoHeader =>
        if IsPublicPath(path) {
          r := Success(Auth(freshIds.0, freshIds.1, "", 0));
        } else {
          r := Failure(Denied(StatusUnauthorized, MissingHeader));
        }
      case NotBearer =>
        r := Failure(Denied(StatusBadRequest, MalformedHeader));
      case Bearer(key) =>
        var v := ValidateAuthKey(env, key);
        if v.Failure? {
          r := Failure(Denied(StatusBadRequest, KeyRejected(v.error)));
        } else {
          r := Success(v.value);
        }
    }
  }

  /** A root key `id|accountID|secret` with both identifiers parsed. */
  datatype RootKey = RootKey(id: ObjectId, accountId: ObjectId, secret: string)

  /** The shape checks of `RequireRoot`: exactly three parts, parts 0 and 1 ObjectIDs. */
  function ParseRootKey(key: string): (r: Option<RootKey>)
    ensures r.Some? <==> |Split(key, KeySeparator)| == 3 &&
                         IsObjectIdHex(Split(key, KeySeparator)[0]) && IsObjectIdHex(Split(key, KeySeparator)[1])
    ensures r.Some? ==> r.value.secret == Split(key, KeySeparator)[2]
  {
    var parts := Split(key, KeySeparator);
    if |parts| != 3 then None
    else
      match ObjectIdFromHex(parts[0])
      case None => None
      case Some(id) =>
        match ObjectIdFromHex(parts[1])
        case None => None
        case Some(acctId) => Some(RootKey(id, acctId, parts[2]))
  }

  /** The rendering `hex(id)|hex(accountID)|secret` parses back to its components. */
  lemma ParseRootKeyOfRendered(id: ObjectId, acctId: ObjectId, secret: string)
    requires |id.bytes| == ObjectIdBytes && |acctId.bytes| == ObjectIdBytes
    requires KeySeparator !in secret
    ensures ParseRootKey(Hex(id) + [KeySeparator] + Hex(acctId) + [KeySeparator] + secret)
            == Some(RootKey(id, acctId, secret))
  {
    var a, b := Hex(id), Hex(acctId);
    HexHasNoBar(a);
    HexHasNoBar(b);
    ChainAssoc(a, [KeySeparator], b, [KeySeparator], secret);
    SplitAtFirstSeparator(a, KeySeparator, b + [KeySeparator] + secret);
    SplitAtFirstSeparator(b, KeySeparator, secret);
    SplitWithoutSeparator(secret, KeySeparator);
    FromHexOfHex(id);
    FromHexOfHex(acctId);
  }

  /**
   * The `RequireRoot` handler. Shape checks come before the base config and
   * the lookup; the `tokens` cache plays no part.
   */
  function RequireRoot(header: string, env: Env): (r: Result<Auth, Denied>)
    ensures |header| == 0 ==> r == Failure(Denied(StatusUnauthorized, MissingHeader))
    ensures |header| > 0 && !HasPrefix(header, BearerPrefix) ==> r == Failure(Denied(StatusBadRequest, MalformedHeader))
    ensures HasPrefix(header, BearerPrefix) && ParseRootKey(ReplaceAll(header, BearerPrefix, "")).None? ==>
              r == Failure(Denied(StatusBadRequest, InvalidRootToken))
    ensures HasPrefix(header, BearerPrefix) && ParseRootKey(ReplaceAll(header, BearerPrefix, "")).Some? ==>
              var rk := ParseRootKey(ReplaceAll(header, BearerPrefix, "")).value;
              && (env.base.None? ==> r == Failure(Denied(StatusUnauthorized, InvalidPublicKey)))
              && (env.base.Some? ==>
                    var k := RootTokenKey(env.base.value.name, rk.id, rk.accountId, rk.secret);
                    && (k !in env.rootTokens ==> r == Failure(Denied(StatusUnauthorized, RootTokenNotFound)))
                    && (k in env.rootTokens && env.rootTokens[k].role < RootRole ==>
                          r == Failure(Denied(StatusUnauthorized, NotEnoughPermission)))
                    && (k in env.rootTokens && env.rootTokens[k].role >= RootRole ==>
                          r == Success(AuthOf(env.rootTokens[k]))))
    ensures r.Success? ==> r.value.role >= RootRole
  {
    match ClassifyHeader(header)
    case NoHeader => Failure(Denied(StatusUnauthorized, MissingHeader))
    case NotBearer => Failure(Denied(StatusBadRequest, MalformedHeader))
    case Bearer(key) =>
      match ParseRootKey(key)
      case None => Failure(Denied(StatusBadRequest, InvalidRootToken))
      case Some(rk) =>
        if env.base.None? then Failure(Denied(StatusUnauthorized, InvalidPublicKey))
        else
          var k := RootTokenKey(env.base.value.name, rk.id, rk.accountId, rk.secret);
          if k !in env.rootTokens then Failure(Denied(StatusUnauthorized, RootTokenNotFound))
          else if env.rootTokens[k].role < RootRole then Failure(Denied(StatusUnauthorized, NotEnoughPermission))
          else Success(AuthOf(env.rootTokens[k]))
  }

  /**
   * For a well-formed root key whose token is found, the role alone decides:
   * the token's `Auth` when the role reaches `RootRole`, "not enough
   * permission" below it.
   */
  lemma RootRoleThreshold(env: Env, id: ObjectId, acctId: ObjectId, secret: string)
    requires |id.bytes| == ObjectIdBytes && |acctId.bytes| == ObjectIdBytes
    requires KeySeparator !in secret && !Contains(secret, BearerPrefix)
    requires env.base.Some?
    requires RootTokenKey(env.base.value.name, id, acctId, secret) in env.rootTokens
    ensures var t := env.rootTokens[RootTokenKey(env.base.value.name, id, acctId, secret)];
            RequireRoot(BearerPrefix + Hex(id) + [KeySeparator] + Hex(acctId) + [KeySeparator] + secret, env)
            == if t.role >= RootRole then Success(AuthOf(t)) else Failure(Denied(StatusUnauthorized, NotEnoughPermission))
  {
    RenderedRootHeaderParses(id, acctId, secret);
  }

  /** A rendered root token not stored for the base is refused as not found (401). */
  lemma UnknownRootTokenRejected(env: Env, id: ObjectId, acctId: ObjectId, secret: string)
    requires |id.bytes| == ObjectIdBytes && |acctId.bytes| == ObjectIdBytes
    requires KeySeparator !in secret && !Contains(secret, BearerPrefix)
    requires env.base.Some?
    requires RootTokenKey(env.base.value.name, id, acctId, secret) !in env.rootTokens
    ensures RequireRoot(BearerPrefix + Hex(id) + [KeySeparator] + Hex(acctId) + [KeySeparator] + secret, env)
            == Failure(Denied(StatusUnauthorized, RootTokenNotFound))
  {
    RenderedRootHeaderParses(id, acctId, secret);
  }

  /** The header `Bearer hex(id)|hex(accountID)|secret` is stripped and parsed back to its components. */
  lemma RenderedRootHeaderParses(id: ObjectId, acctId: ObjectId, secret: string)
    requires |id.bytes| == ObjectIdBytes && |acctId.bytes| == ObjectIdBytes
    requires KeySeparator !in secret && !Contains(secret, BearerPrefix)
    ensures var header := BearerPrefix + Hex(id) + [KeySeparator] + Hex(acctId) + [KeySeparator] + secret;
            HasPrefix(header, BearerPrefix) &&
            ParseRootKey(ReplaceAll(header, BearerPrefix, "")) == Some(RootKey(id, acctId, secret))
  {
    var key := Hex(id) + [KeySeparator] + Hex(acctId) + [KeySeparator] + secret;
    RenderedRootKeyHasNoBearer(Hex(id), Hex(acctId), secret);
    PrefixChainAssoc(BearerPrefix, Hex(id), [KeySeparator], Hex(acctId), [KeySeparator], secret);
    BearerKeyRecovered(key);
    ParseRootKeyOfRendered(id, acctId, secret);
  }

  /** A rendered root key holds `Bearer ` only if its secret does. */
  lemma RenderedRootKeyHasNoBearer(a: string, b: string, secret: string)
    requires IsHex(a) && IsHex(b) && !Contains(secret, BearerPrefix)
    ensures !Contains(a + [KeySeparator] + b + [KeySeparator] + secret, BearerPrefix)
  {
    HexHasNoBearer(a);
    HexHasNoBearer(b);
    NoOccurrenceAcross(b, KeySeparator, secret, BearerPrefix);
    ChainAssoc(a, [KeySeparator], b, [KeySeparator], secret);
    NoOccurrenceAcross(a, KeySeparator, b + [KeySeparator] + secret, BearerPrefix);
  }

  /** Hex digits never spell `Bearer ` (they hold no space). */
  lemma {:induction false} HexHasNoBearer(s: string)
    requires IsHex(s)
    ensures !Contains(s, BearerPrefix)
    decreases |s|
  {
    if |s| >= |BearerPrefix| {
      assert s[..|BearerPrefix|][6] == s[6] && IsHexDigit(s[6]);
    }
    if |s| > 0 {
      HexHasNoBearer(s[1..]);
    }
  }
}
