/** The application settings of project/db/corn.py: class-level constants, the two path fields
    normalised to forward slashes, the secret key, and the two database URLs built from them.

    Environment reads (dotenv) and the random part of `uuid7()` are not performed here: the
    environment is an `Environment` value and the generated UUID a `Uuid` value, both given by the caller. */
module Corn {
  import opened Text

  /** The ordered list that defines which methods are safe (its first four) and unsafe (the rest). */
  const ALLOWED_METHODS: seq<string> := ["HEAD", "OPTIONS", "TRACE", "GET", "PUT", "DELETE", "PATCH", "POST"]

  const SESSIONS_LIVE_TIME: int := 60 * 60  // seconds
  const CSRF_COOKIE_HTTPONLY: bool := false
  const CSRF_COOKIE_SAMESITE: string := "lax"
  const CSRF_COOKIE_MAX_AGE: int := 40

  /** Where a request method falls in ALLOWED_METHODS. */
  datatype MethodClass = Safe | Unsafe | Other

  /** `verb in ALLOWED_METHODS[:4]`, else `verb in ALLOWED_METHODS[4:]`, else neither. */
  function Classify(verb: string): (c: MethodClass)
    ensures c == Safe <==> verb in {"HEAD", "OPTIONS", "TRACE", "GET"}
    ensures c == Unsafe <==> verb in {"PUT", "DELETE", "PATCH", "POST"}
    ensures c == Other <==> verb !in ALLOWED_METHODS
  {
    assert ALLOWED_METHODS[..4] == ["HEAD", "OPTIONS", "TRACE", "GET"];
    assert ALLOWED_METHODS[4..] == ["PUT", "DELETE", "PATCH", "POST"];
    if verb in ALLOWED_METHODS[..4] then Safe
    else if verb in ALLOWED_METHODS[4..] then Unsafe
    else Other
  }

  /** The two slices are disjoint and together hold exactly the allowed methods. */
  lemma MethodSplitIsPartition()
    ensures multiset(ALLOWED_METHODS[..4]) * multiset(ALLOWED_METHODS[4..]) == multiset{}
    ensures ALLOWED_METHODS[..4] + ALLOWED_METHODS[4..] == ALLOWED_METHODS
    ensures |ALLOWED_METHODS[..4]| == 4 && |ALLOWED_METHODS[4..]| == 4
  {
    assert ALLOWED_METHODS[..4] == ["HEAD", "OPTIONS", "TRACE", "GET"];
    assert ALLOWED_METHODS[4..] == ["PUT", "DELETE", "PATCH", "POST"];
  }

  predicate IsLowerHex(c: char) {
    '0' <= c <= '9' || 'a' <= c <= 'f'
  }

  predicate AllLowerHex(s: string) {
    forall i :: 0 <= i < |s| ==> IsLowerHex(s[i])
  }

  /** The five hexadecimal groups of a UUID as `str()` writes them (section 4 of RFC 9562). */
  datatype Uuid = Uuid(timeLow: string, timeMid: string, timeHighAndVersion: string, clockSeq: string, node: string)

  /** A version-7 UUID (section 5.7 of RFC 9562): groups of 8, 4, 4, 4 and 12 lower-case hexadecimal
      digits, the version digit 7 opening the third group and a variant digit 8, 9, a or b opening the fourth. */
  predicate IsUuid7(u: Uuid) {
    && |u.timeLow| == 8 && |u.timeMid| == 4 && |u.timeHighAndVersion| == 4 && |u.clockSeq| == 4 && |u.node| == 12
    && AllLowerHex(u.timeLow) && AllLowerHex(u.timeMid) && AllLowerHex(u.timeHighAndVersion)
    && AllLowerHex(u.clockSeq) && AllLowerHex(u.node)
    && u.timeHighAndVersion[0] == '7' && u.clockSeq[0] in "89ab"
  }

  /** `str(uuid)`: the groups joined by hyphens. */
  function UuidText(u: Uuid): (t: string)
    ensures IsUuid7(u) ==> |t| == 36 && t[8] == '-' && t[13] == '-' && t[18] == '-' && t[23] == '-'
    ensures IsUuid7(u) ==> t[..8] == u.timeLow && t[24..] == u.node
  {
    u.timeLow + "-" + u.timeMid + "-" + u.timeHighAndVersion + "-" + u.clockSeq + "-" + u.node
  }

  /** The process environment the settings read (dotenv_.py); `debug` is the parsed DEBUG flag. */
  datatype Environment = Environment(
    baseDir: string,
    postgresPort: string,
    postgresDb: string,
    postgresPassword: string,
    postgresUser: string,
    postgresHost: string,
    debug: bool)

  datatype Settings = Settings(
    secretKey: string,
    sqliteDbPath: string,
    postgresPort: string,
    postgresDb: string,
    postgresPassword: string,
    postgresUser: string,
    postgresHost: string,
    templatesDir: string,
    csrfCookieSecure: bool)

  /** `os.path.join(dir, name)` as the POSIX implementation computes it. */
  function PathJoin(dir: string, name: string): (p: string)
    ensures |name| <= |p| && p[|p| - |name|..] == name
    ensures (|name| > 0 && name[0] == '/') || (|dir| <= |p| && p[..|dir|] == dir)
    ensures |name| > 0 && name[0] == '/' ==> p == name
  {
    if |name| > 0 && name[0] == '/' then name
    else if dir == [] || dir[|dir| - 1] == '/' then dir + name
    else dir + "/" + name
  }

  /** `Settings()` with the literal defaults of its fields; `key` is the UUID `uuid7()` produced. */
  function LoadSettings(env: Environment, key: Uuid): (s: Settings)
    ensures s.secretKey == UuidText(key) && s.csrfCookieSecure == !env.debug
    ensures s.postgresPort == env.postgresPort && s.postgresDb == env.postgresDb
    ensures s.postgresPassword == env.postgresPassword && s.postgresUser == env.postgresUser
    ensures s.postgresHost == env.postgresHost
    ensures |s.sqliteDbPath| == |PathJoin(env.baseDir, env.postgresDb + "_db.sqlite3")|
    ensures |s.templatesDir| == |PathJoin(env.baseDir, "truckdriver_db.sqlite3")|
  {
    Settings(
      secretKey := UuidText(key),
      sqliteDbPath := ReplaceChar(PathJoin(env.baseDir, env.postgresDb + "_db.sqlite3"), '\\', '/'),
      postgresPort := env.postgresPort,
      postgresDb := env.postgresDb,
      postgresPassword := env.postgresPassword,
      postgresUser := env.postgresUser,
      postgresHost := env.postgresHost,
      templatesDir := ReplaceChar(PathJoin(env.baseDir, "truckdriver_db.sqlite3"), '\\', '/'),
      csrfCookieSecure := !env.debug)
  }

  /** The cookie policy defaults, the session lifetime of one hour, and a cookie that is secure
      exactly when the application is not in debug mode. */
  lemma SettingsDefaults(env: Environment, key: Uuid)
    ensures !CSRF_COOKIE_HTTPONLY && CSRF_COOKIE_SAMESITE == "lax" && CSRF_COOKIE_MAX_AGE == 40
    ensures SESSIONS_LIVE_TIME == 3600
    ensures LoadSettings(env, key).csrfCookieSecure <==> !env.debug
  {
  }

  /** The `DATABASE_URL_PS` property. */
  function DatabaseUrlPs(s: Settings): (u: string)
    ensures var scheme := "postgresql+asyncpg://"; |scheme| <= |u| && u[..|scheme|] == scheme
    ensures var tail := "/" + s.postgresDb; |tail| <= |u| && u[|u| - |tail|..] == tail
  {
    "postgresql+asyncpg://" + s.postgresUser + ":" + s.postgresPassword + "@" + s.postgresHost + s.postgresPort
      + "/" + s.postgresDb
  }

  /** The `DATABASE_URL_SQLITE` property. */
  function DatabaseUrlSqlite(s: Settings): (u: string)
    ensures var scheme := "sqlite+aiosqlite:///"; |scheme| <= |u| && u[..|scheme|] == scheme
    ensures |s.sqliteDbPath| <= |u| && u[|u| - |s.sqliteDbPath|..] == s.sqliteDbPath
  {
    "sqlite+aiosqlite:///" + s.sqliteDbPath
  }

  /** `.replace("\\", "/")` on both paths: each keeps the joined path's length, every backslash
      becomes a forward slash, every other character is kept, and so no backslash remains. */
  lemma PathsUseForwardSlashes(env: Environment, key: Uuid)
    ensures '\\' !in LoadSettings(env, key).sqliteDbPath && '\\' !in LoadSettings(env, key).templatesDir
    ensures var joined := PathJoin(env.baseDir, env.postgresDb + "_db.sqlite3");
      var path := LoadSettings(env, key).sqliteDbPath;
      && |path| == |joined|
      && forall i :: 0 <= i < |joined| ==> path[i] == (if joined[i] == '\\' then '/' else joined[i])
    ensures var joined := PathJoin(env.baseDir, "truckdriver_db.sqlite3");
      var path := LoadSettings(env, key).templatesDir;
      && |path| == |joined|
      && forall i :: 0 <= i < |joined| ==> path[i] == (if joined[i] == '\\' then '/' else joined[i])
  {
  }

  /** No separator is written between host and port, so a host and port pair is determined only
      up to where the boundary falls: every split of the same text gives the same URL. */
  lemma HostAndPortRunTogether(s: Settings, t: Settings)
    requires s.postgresUser == t.postgresUser && s.postgresPassword == t.postgresPassword
    requires s.postgresDb == t.postgresDb
    requires s.postgresHost + s.postgresPort == t.postgresHost + t.postgresPort
    ensures DatabaseUrlPs(s) == DatabaseUrlPs(t)
  {
    var prefix := "postgresql+asyncpg://" + s.postgresUser + ":" + s.postgresPassword + "@";
    assert DatabaseUrlPs(s) == prefix + (s.postgresHost + s.postgresPort) + "/" + s.postgresDb;
    assert DatabaseUrlPs(t) == prefix + (t.postgresHost + t.postgresPort) + "/" + t.postgresDb;
  }

  /** With its hyphens removed the secret key is its 32 hexadecimal digits, and holds no "Bearer". */
  lemma StrippedSecretKey(u: Uuid)
    requires IsUuid7(u)
    ensures RemoveChar(UuidText(u), '-') == u.timeLow + u.timeMid + u.timeHighAndVersion + u.clockSeq + u.node
    ensures |RemoveChar(UuidText(u), '-')| == 32
    ensures AllLowerHex(RemoveChar(UuidText(u), '-'))
    ensures !Contains(RemoveChar(UuidText(u), '-'), "Bearer")
  {
    var p2 := u.timeLow + "-" + u.timeMid;
    var p3 := p2 + "-" + u.timeHighAndVersion;
    var p4 := p3 + "-" + u.clockSeq;
    assert UuidText(u) == p4 + "-" + u.node;
    RemoveHyphenAtJoin(u.timeLow, u.timeMid);
    RemoveHyphenAtJoin(p2, u.timeHighAndVersion);
    RemoveHyphenAtJoin(p3, u.clockSeq);
    RemoveHyphenAtJoin(p4, u.node);
    var digits := u.timeLow + u.timeMid + u.timeHighAndVersion + u.clockSeq + u.node;
    HexConcat(u.timeLow, u.timeMid);
    HexConcat(u.timeLow + u.timeMid, u.timeHighAndVersion);
    HexConcat(u.timeLow + u.timeMid + u.timeHighAndVersion, u.clockSeq);
    HexConcat(u.timeLow + u.timeMid + u.timeHighAndVersion + u.clockSeq, u.node);
    HexHasNoMarker(digits);
  }

  /** Removing hyphens from two hyphen-joined hexadecimal groups leaves the groups side by side. */
  lemma RemoveHyphenAtJoin(a: string, b: string)
    requires AllLowerHex(b)
    ensures RemoveChar(a + "-" + b, '-') == RemoveChar(a, '-') + b
  {
    var hyphen: string := "-";
    assert hyphen[0] == '-' && hyphen[1..] == [];
    assert RemoveChar(hyphen, '-') == [];
    RemoveCharAppend(a + hyphen, b, '-');
    RemoveCharAppend(a, hyphen, '-');
    HexHasNoHyphen(b);
  }

  lemma HexConcat(a: string, b: string)
    requires AllLowerHex(a) && AllLowerHex(b)
    ensures AllLowerHex(a + b)
  {
    forall i | 0 <= i < |a + b| ensures IsLowerHex((a + b)[i]) {
      if i >= |a| { assert (a + b)[i] == b[i - |a|]; }
    }
  }

  lemma HexHasNoHyphen(s: string)
    requires AllLowerHex(s)
    ensures '-' !in s
  {
  }

  lemma HexHasNoMarker(s: string)
    requires AllLowerHex(s)
    ensures !Contains(s, "Bearer")
  {
    forall i: nat | i <= |s| ensures !OccursAt(s, "Bearer", i) {
      if i + 6 <= |s| {
        assert s[i..i + 6][0] == s[i];
      }
    }
  }
}
