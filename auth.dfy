/**
 * internal/auth/auth.go: session-key derivation, admin login, the admin
 * session, the two guards and the context helpers.
 *
 * A wrapped handler cannot be passed around as a value here, so each guard
 * returns a GuardState: `Authenticated(ctx)` means "call the wrapped handler
 * once with ctx", `Rejected(response)` means the guard answered and the
 * handler is never called. The routes in module Server do the calling.
 */
module Auth {
  import opened Results
  import opened Strings
  import opened Hex
  import opened Models
  import opened Http
  import opened Storage

  // ---- session key ----

  /** The bytes a session secret stands for before they are fitted to 32. */
  function KeyMaterial(secret: string): (r: seq<byte>)
    ensures !(ByteLen(secret) % 2 == 0 && ByteLen(secret) >= 32) ==> r == Utf8(secret)
    ensures ByteLen(secret) % 2 == 0 && ByteLen(secret) >= 32 && HexDecode(secret).Some? ==>
              r == HexDecode(secret).value
    ensures HexDecode(secret).None? ==> r == Utf8(secret)
  {
    if ByteLen(secret) % 2 == 0 && ByteLen(secret) >= 32 then
      match HexDecode(secret)
      case Some(decoded) => decoded
      case None => Utf8(secret)
    else
      Utf8(secret)
  }

  /** The AES-256 key: the first 32 bytes, zero-padded when there are fewer. */
  function FitKey(material: seq<byte>): (key: seq<byte>)
    ensures |key| == 32
    ensures forall i :: 0 <= i < 32 ==> key[i] == if i < |material| then material[i] else 0
  {
    if |material| >= 32 then material[..32] else material + seq(32 - |material|, _ => 0)
  }

  /** NewAuthService's key bytes, built in a fresh zeroed buffer when the material is short. */
  method DeriveSessionKey(secret: string) returns (key: seq<byte>)
    ensures key == FitKey(KeyMaterial(secret))
  {
    var keyBytes: seq<byte>;
    if ByteLen(secret) % 2 == 0 && ByteLen(secret) >= 32 {
      var decoded := HexDecode(secret);
      if decoded.Some? {
        keyBytes := decoded.value;
      } else {
        keyBytes := Utf8(secret);
      }
    } else {
      keyBytes := Utf8(secret);
    }
    if |keyBytes| > 32 {
      keyBytes := keyBytes[..32];
    } else if |keyBytes| < 32 {
      var padded := new byte[32](_ => 0);
      var i := 0;
      while i < |keyBytes|
        invariant 0 <= i <= |keyBytes|
        invariant forall j :: 0 <= j < i ==> padded[j] == keyBytes[j]
        invariant forall j :: i <= j < 32 ==> padded[j] == 0
      {
        padded[i] := keyBytes[i];
        i := i + 1;
      }
      keyBytes := padded[..];
    }
    key := keyBytes;
  }

  /** A secret generated as 32 random bytes in hex gives back exactly those bytes as the key. */
  lemma GeneratedSecretKey(random: seq<byte>)
    requires |random| == 32
    ensures FitKey(KeyMaterial(HexEncode(random))) == random
  {
    DecodeEncode(random);
    EncodeIsAscii(random);
  }

  /** A secret that is not valid hex is used as its own UTF-8 bytes, cut or padded to 32. */
  lemma PlainSecretKey(secret: string)
    requires HexDecode(secret).None?
    ensures forall i :: 0 <= i < 32 ==>
              FitKey(KeyMaterial(secret))[i] == if i < ByteLen(secret) then Utf8(secret)[i] else 0
  {
  }

  // ---- sessions ----

  const SessionUserIdKey := "user_id"
  const SessionUsernameKey := "username"
  /** The cookie lifetime in seconds, 24 hours. */
  const SessionMaxAge := 24 * 60 * 60

  /** A value stored in a session; only the dynamic types the code tests for are told apart. */
  datatype SessionValue = IntValue(i: int) | StringValue(s: string) | OtherValue

  /**
   * The "shufflr-session" of one request as the cookie store returns it.
   * `loadFailed` is the store's error on reading the cookie.
   */
  class Session {
    const loadFailed: bool
    var values: map<string, SessionValue>
    var maxAge: int

    constructor (loadFailed: bool, values: map<string, SessionValue>)
      ensures this.loadFailed == loadFailed && this.values == values && maxAge == SessionMaxAge
    {
      this.loadFailed := loadFailed;
      this.values := values;
      maxAge := SessionMaxAge;
    }
  }

  /** The admin identity in the session values: present only with an int user_id and a string username. */
  function SessionAdmin(values: map<string, SessionValue>): (r: Option<AdminUser>)
    ensures r.Some? <==>
              && SessionUserIdKey in values && values[SessionUserIdKey].IntValue?
              && SessionUsernameKey in values && values[SessionUsernameKey].StringValue?
    ensures r.Some? ==> r.value == AdminUser(values[SessionUserIdKey].i, values[SessionUsernameKey].s, "")
  {
    if SessionUserIdKey in values && values[SessionUserIdKey].IntValue?
       && SessionUsernameKey in values && values[SessionUsernameKey].StringValue?
    then Some(AdminUser(values[SessionUserIdKey].i, values[SessionUsernameKey].s, ""))
    else None
  }

  /** GetAdminFromSession: the store error, or the identity the session holds. */
  function GetAdminFromSession(session: Session): (r: Result<Option<AdminUser>>)
    reads session
    ensures r.Err? <==> session.loadFailed
    ensures r.Ok? ==> r.value == SessionAdmin(session.values)
  {
    if session.loadFailed then Err("failed to read session") else Ok(SessionAdmin(session.values))
  }

  /** The session values after SetAdminSession writes `user`. */
  function WithAdmin(values: map<string, SessionValue>, user: AdminUser): map<string, SessionValue> {
    values[SessionUserIdKey := IntValue(user.id)][SessionUsernameKey := StringValue(user.username)]
  }

  /** Reading back a written identity returns its id and username, whatever the session held before. */
  lemma SetThenGet(values: map<string, SessionValue>, user: AdminUser)
    ensures SessionAdmin(WithAdmin(values, user)) == Some(AdminUser(user.id, user.username, ""))
  {
  }

  /** Writing an identity changes only the two identity values. */
  lemma SetKeepsOthers(values: map<string, SessionValue>, user: AdminUser, name: string)
    requires name != SessionUserIdKey && name != SessionUsernameKey
    ensures name in WithAdmin(values, user) <==> name in values
    ensures name in values ==> WithAdmin(values, user)[name] == values[name]
  {
  }

  method SetAdminSession(session: Session, user: AdminUser) returns (r: Status)
    modifies session`values
    ensures r.Err? <==> session.loadFailed
    ensures session.values == if r.Ok? then WithAdmin(old(session.values), user) else old(session.values)
    ensures r.Ok? ==> GetAdminFromSession(session) == Ok(Some(AdminUser(user.id, user.username, "")))
  {
    if session.loadFailed {
      return Err("failed to read session");
    }
    session.values := session.values[SessionUserIdKey := IntValue(user.id)];
    session.values := session.values[SessionUsernameKey := StringValue(user.username)];
    SetThenGet(old(session.values), user);
    r := Done;
  }

  method ClearAdminSession(session: Session) returns (r: Status)
    modifies session`values, session`maxAge
    ensures r.Err? <==> session.loadFailed
    ensures r.Ok? ==> session.values == map[] && session.maxAge == -1
    ensures r.Ok? ==> GetAdminFromSession(session) == Ok(None)
    ensures r.Err? ==> session.values == old(session.values) && session.maxAge == old(session.maxAge)
  {
    if session.loadFailed {
      return Err("failed to read session");
    }
    session.values := map[];
    session.maxAge := -1;
    r := Done;
  }

  // ---- request context ----

  /** Context keys: the package's own two, and keys of other packages, which never equal them. */
  datatype ContextKey = AdminUserKey | APIKeyKey | ForeignKey(name: string)
  datatype ContextValue = AdminEntry(user: AdminUser) | APIKeyEntry(key: ApiKey) | ForeignValue
  type Context = map<ContextKey, ContextValue>

  /** GetAdminFromContext: the attached admin, None when nothing of that type is under its key. */
  function GetAdminFromContext(ctx: Context): (r: Option<AdminUser>)
    ensures r.Some? <==> AdminUserKey in ctx && ctx[AdminUserKey].AdminEntry?
    ensures r.Some? ==> ctx[AdminUserKey] == AdminEntry(r.value)
  {
    if AdminUserKey in ctx && ctx[AdminUserKey].AdminEntry? then Some(ctx[AdminUserKey].user) else None
  }

  /** GetAPIKeyFromContext: the attached key, None when nothing of that type is under its key. */
  function GetAPIKeyFromContext(ctx: Context): (r: Option<ApiKey>)
    ensures r.Some? <==> APIKeyKey in ctx && ctx[APIKeyKey].APIKeyEntry?
    ensures r.Some? ==> ctx[APIKeyKey] == APIKeyEntry(r.value)
  {
    if APIKeyKey in ctx && ctx[APIKeyKey].APIKeyEntry? then Some(ctx[APIKeyKey].key) else None
  }

  /** What one guard attaches the other does not disturb; each reads back what it attached. */
  lemma ContextRoundTrip(ctx: Context, user: AdminUser, key: ApiKey)
    ensures GetAdminFromContext(ctx[AdminUserKey := AdminEntry(user)]) == Some(user)
    ensures GetAPIKeyFromContext(ctx[APIKeyKey := APIKeyEntry(key)]) == Some(key)
    ensures GetAPIKeyFromContext(ctx[AdminUserKey := AdminEntry(user)]) == GetAPIKeyFromContext(ctx)
    ensures GetAdminFromContext(ctx[APIKeyKey := APIKeyEntry(key)]) == GetAdminFromContext(ctx)
    ensures GetAdminFromContext(map[]) == None && GetAPIKeyFromContext(map[]) == None
  {
  }

  // ---- guards ----

  /** Where a request stands once a guard has run. */
  datatype GuardState = Authenticated(ctx: Context) | Rejected(response: Response)

  /** A key sent in X-API-Key, else in `Authorization: Bearer <key>`, else "". */
  function GuardKey(header: map<string, string>): (key: string)
    ensures Lookup(header, "X-API-Key") != "" ==> key == Lookup(header, "X-API-Key")
    ensures Lookup(header, "X-API-Key") == "" && HasPrefix(Lookup(header, "Authorization"), "Bearer ") ==>
              "Bearer " + key == Lookup(header, "Authorization")
    ensures Lookup(header, "X-API-Key") == "" && !HasPrefix(Lookup(header, "Authorization"), "Bearer ") ==>
              key == ""
  {
    var apiKey := Lookup(header, "X-API-Key");
    if apiKey != "" then apiKey
    else
      var auth := Lookup(header, "Authorization");
      if HasPrefix(auth, "Bearer ") then TrimPrefix(auth, "Bearer ") else ""
  }

  class AuthService {
    const db: DB
    const sessionKey: seq<byte>

    /** NewAuthService. */
    constructor (db: DB, sessionSecret: string)
      ensures this.db == db && sessionKey == FitKey(KeyMaterial(sessionSecret)) && |sessionKey| == 32
    {
      this.db := db;
      var key := DeriveSessionKey(sessionSecret);
      sessionKey := key;
    }

    /**
     * The stored admin when the username exists and the password hashes to
     * its stored hash; None for an unknown name or a wrong password; the
     * store's error otherwise.
     */
    method LoginAdmin(username: string, password: string) returns (r: Result<Option<AdminUser>>)
      requires db.Valid()
      ensures r.Err? <==> !db.online
      ensures r.Ok? ==> (r.value.Some? <==>
                exists i :: 0 <= i < |db.admins| && db.admins[i].username == username
                            && db.admins[i].passwordHash == db.passwordHash(password))
      ensures r.Ok? && r.value.Some? ==>
                r.value.value in db.admins && r.value.value.username == username
                && r.value.value.passwordHash == db.passwordHash(password)
    {
      var found := db.GetAdminUserByUsername(username);
      if found.Err? {
        return Err(found.message);
      }
      if found.value.None? {
        return Ok(None);
      }
      var user := found.value.value;
      if user.passwordHash != db.passwordHash(password) {
        return Ok(None);
      }
      r := Ok(Some(user));
    }

    /** RequireAdminAuth: redirect to the login page unless the session holds an identity. */
    function RequireAdminAuth(session: Session, ctx: Context): (g: GuardState)
      reads session
      ensures g.Rejected? <==> !(GetAdminFromSession(session).Ok? && GetAdminFromSession(session).value.Some?)
      ensures g.Rejected? ==> g.response == Redirect("/admin/login")
      ensures g.Authenticated? ==>
                var user := GetAdminFromSession(session).value.value;
                g.ctx == ctx[AdminUserKey := AdminEntry(user)] && GetAdminFromContext(g.ctx) == Some(user)
    {
      match GetAdminFromSession(session)
      case Err(_) => Rejected(Redirect("/admin/login"))
      case Ok(None) => Rejected(Redirect("/admin/login"))
      case Ok(Some(user)) => Authenticated(ctx[AdminUserKey := AdminEntry(user)])
    }

    /**
     * RequireAPIKey: 401 without a key, 500 when the lookup fails, 401 when
     * no enabled key matches; on a match, stamps the key's last use at `now`
     * (ignoring a failure to) and attaches the key.
     */
    method RequireAPIKey(request: Request, ctx: Context, now: int) returns (g: GuardState)
      requires db.Valid()
      modifies db`apiKeys
      ensures db.Valid()
      ensures var key := GuardKey(request.header);
              && (key == "" ==> g == Rejected(MissingKey))
              && (key != "" && !db.online ==> g == Rejected(InternalError))
              && (key != "" && db.online && !EnabledKeyWithHash(old(db.apiKeys), db.keyDigest(key)) ==>
                    g == Rejected(InvalidKey))
              && (key != "" && db.online && EnabledKeyWithHash(old(db.apiKeys), db.keyDigest(key)) ==>
                    && g.Authenticated? && GetAPIKeyFromContext(g.ctx).Some?
                    && var k := GetAPIKeyFromContext(g.ctx).value;
                       && g.ctx == ctx[APIKeyKey := APIKeyEntry(k)]
                       && k.id in old(db.apiKeys) && old(db.apiKeys)[k.id] == k
                       && k.enabled && k.keyHash == db.keyDigest(key)
                       && db.apiKeys == TouchKey(old(db.apiKeys), k.id, now))
      ensures g.Rejected? ==> db.apiKeys == old(db.apiKeys)
    {
      var apiKey := Lookup(request.header, "X-API-Key");
      if apiKey == "" {
        var auth := Lookup(request.header, "Authorization");
        if HasPrefix(auth, "Bearer ") {
          apiKey := TrimPrefix(auth, "Bearer ");
        }
      }
      if apiKey == "" {
        return Rejected(MissingKey);
      }
      var found := db.GetAPIKeyByKey(apiKey);
      if found.Err? {
        return Rejected(InternalError);
      }
      if found.value.None? {
        return Rejected(InvalidKey);
      }
      var key := found.value.value;
      var _ := db.UpdateAPIKeyLastUsed(key.id, now);
      g := Authenticated(ctx[APIKeyKey := APIKeyEntry(key)]);
    }
  }
}
