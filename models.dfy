/** The session record of project/db/models.py (`SessionUserModel`: its session-id validator, its
    column defaults, `is_expired` and `replace`) and the state `Database.__init__` sets up, with
    the URL classifier `_check_async_url`.

    The clock is a parameter everywhere: `Timestamp` is a count of microseconds, `DateTime` the
    broken-down reading that `strftime` formats. */
module Models {
  import opened Wrappers
  import opened Text
  import opened Regex
  import opened Corn

  // ---------------------------------------------------------------------------------------------
  // The session-id validator

  /** The bracket `[a-zA-A0-9]` as written: lower-case letters, the single upper-case letter A, digits. */
  const EDGE_CLASS: seq<(char, char)> := [('a', 'z'), ('A', 'A'), ('0', '9')]

  /** The bracket `[a-zA-A0-9-]`: the same with the hyphen. */
  const INNER_CLASS: seq<(char, char)> := [('a', 'z'), ('A', 'A'), ('0', '9'), ('-', '-')]

  /** `([a-zA-A0-9][a-zA-A0-9-]*[a-zA-A0-9]$)`; the group captures only and the trailing `$`
      adds nothing under a full match. */
  const SESSION_ID_REGEX: Regex := Concat(Class(EDGE_CLASS), Concat(Star(Class(INNER_CLASS)), Class(EDGE_CLASS)))

  const MIN_SESSION_ID_LENGTH: nat := 30
  const MAX_SESSION_ID_LENGTH: nat := 40

  predicate IsEdgeChar(c: char) {
    'a' <= c <= 'z' || c == 'A' || '0' <= c <= '9'
  }

  predicate IsInnerChar(c: char) {
    IsEdgeChar(c) || c == '-'
  }

  /** Character by character: at least two characters, the first and the last an edge character,
      every one in between an edge character or a hyphen. */
  predicate MatchesSessionIdPattern(s: string) {
    && |s| >= 2
    && IsEdgeChar(s[0]) && IsEdgeChar(s[|s| - 1])
    && forall i :: 0 < i < |s| - 1 ==> IsInnerChar(s[i])
  }

  lemma EdgeClassMembers(c: char)
    ensures InClass(EDGE_CLASS, c) <==> IsEdgeChar(c)
  {
    if 'a' <= c <= 'z' { assert EDGE_CLASS[0].0 <= c <= EDGE_CLASS[0].1; }
    if c == 'A' { assert EDGE_CLASS[1].0 <= c <= EDGE_CLASS[1].1; }
    if '0' <= c <= '9' { assert EDGE_CLASS[2].0 <= c <= EDGE_CLASS[2].1; }
  }

  lemma InnerClassMembers(c: char)
    ensures InClass(INNER_CLASS, c) <==> IsInnerChar(c)
  {
    if 'a' <= c <= 'z' { assert INNER_CLASS[0].0 <= c <= INNER_CLASS[0].1; }
    if c == 'A' { assert INNER_CLASS[1].0 <= c <= INNER_CLASS[1].1; }
    if '0' <= c <= '9' { assert INNER_CLASS[2].0 <= c <= INNER_CLASS[2].1; }
    if c == '-' { assert INNER_CLASS[3].0 <= c <= INNER_CLASS[3].1; }
  }

  /** `re.fullmatch` of the session-id regex accepts exactly the strings of the character-by-character pattern. */
  lemma RegexMeansPattern(s: string)
    ensures FullMatch(SESSION_ID_REGEX, s) <==> MatchesSessionIdPattern(s)
  {
    EdgeStarEdge(EDGE_CLASS, INNER_CLASS, s);
    forall c: char ensures (InClass(EDGE_CLASS, c) <==> IsEdgeChar(c)) && (InClass(INNER_CLASS, c) <==> IsInnerChar(c)) {
      EdgeClassMembers(c);
      InnerClassMembers(c);
    }
  }

  /** `validate_session_id_regex`: the pattern is checked first, then too short, then too long;
      an accepted id is returned unchanged. */
  function ValidateSessionId(s: string): (r: Result<string>)
    ensures r.Ok? <==> MatchesSessionIdPattern(s) && MIN_SESSION_ID_LENGTH <= |s| <= MAX_SESSION_ID_LENGTH
    ensures r.Ok? ==> r.value == s
    ensures r == Err(PatternMismatch) <==> !MatchesSessionIdPattern(s)
    ensures r == Err(TooShort) <==> MatchesSessionIdPattern(s) && |s| < MIN_SESSION_ID_LENGTH
    ensures r == Err(TooLong) <==> MatchesSessionIdPattern(s) && |s| > MAX_SESSION_ID_LENGTH
  {
    RegexMeansPattern(s);
    if !FullMatch(SESSION_ID_REGEX, s) then Err(PatternMismatch)
    else if |s| < MIN_SESSION_ID_LENGTH then Err(TooShort)
    else if |s| > MAX_SESSION_ID_LENGTH then Err(TooLong)
    else Ok(s)
  }

  /** Of the upper-case letters the class admits only A: a UUID written in capitals is refused. */
  lemma UpperCaseOnlyA(c: char)
    requires 'A' <= c <= 'Z'
    ensures IsInnerChar(c) <==> c == 'A'
  {
  }

  /** The version-7 UUID text the valid-model test module declares, 36 characters, is accepted. */
  lemma SuiteValidExample()
    ensures ValidateSessionId("061cb8fe-0f0b-7c39-8003-d44a7ee0bdf6") == Ok("061cb8fe-0f0b-7c39-8003-d44a7ee0bdf6")
  {
  }

  /** The 47-character identifier of the test suite matches the pattern and is refused as too long. */
  lemma SuiteTooLongExample()
    ensures ValidateSessionId("061cb8fe-0f0b-7c39-8003-d44a7ee0bdf6" + "-d44a7ee025") == Err(TooLong)
  {
    var uuid, tail := "061cb8fe-0f0b-7c39-8003-d44a7ee0bdf6", "-d44a7ee025";
    var long := uuid + tail;
    assert MatchesSessionIdPattern(uuid);
    forall i | 0 < i < |long| - 1 ensures IsInnerChar(long[i]) {
      if i < |uuid| { assert long[i] == uuid[i]; } else { assert long[i] == tail[i - |uuid|]; }
    }
  }

  /** A space inside an otherwise valid identifier is refused on the pattern. */
  lemma SuiteInnerSpaceExample()
    ensures ValidateSessionId("061cb8fe-0f0b-7c39-8003 d44a7ee0bdf6") == Err(PatternMismatch)
  {
    assert "061cb8fe-0f0b-7c39-8003 d44a7ee0bdf6"[23] == ' ';
  }

  /** The 32-digit identifier the test suite lists among the refused ones is in fact accepted: that
      test asserts only when an exception is raised. */
  lemma SuiteHexOnlyExample()
    ensures ValidateSessionId("061cb8fe0f0b7c398003d44a7ee0bdf6") == Ok("061cb8fe0f0b7c398003d44a7ee0bdf6")
  {
  }

  /** A lone space is refused on the pattern. */
  lemma SuiteSpaceExample()
    ensures ValidateSessionId(" ") == Err(PatternMismatch)
  {
  }

  /** A 13-character identifier matches the pattern and is refused as too short. */
  lemma SuiteTooShortExample()
    ensures ValidateSessionId("061cb8fe-0f0b") == Err(TooShort)
  {
  }

  /** A percent sign or a space at either end is refused on the pattern, before any length check. */
  lemma SuiteBoundaryExamples()
    ensures ValidateSessionId("061cb8fe-0f0b-7c39-8003-d44a7ee0bdf6%") == Err(PatternMismatch)
    ensures ValidateSessionId("%061cb8fe-0f0b-7c39-8003-d44a7ee0bdf6") == Err(PatternMismatch)
    ensures ValidateSessionId("061cb8fe-0f0b-7c39-8003-d44a7ee0bdf6 ") == Err(PatternMismatch)
    ensures ValidateSessionId(" 061cb8fe-0f0b-7c39-8003-d44a7ee0bdf6") == Err(PatternMismatch)
    ensures ValidateSessionId("061CB8FE-0F0B-7C39-8003-D44A7EE0BDF6") == Err(PatternMismatch)
  {
    assert "061CB8FE-0F0B-7C39-8003-D44A7EE0BDF6"[3] == 'C';
  }

  /** The application's secret key, a version-7 UUID in text, passes the validator. */
  lemma SecretKeyIsValidSessionId(u: Uuid)
    requires IsUuid7(u)
    ensures ValidateSessionId(UuidText(u)) == Ok(UuidText(u))
  {
    var s := UuidText(u);
    assert |s| == 36;
    assert s[0] == u.timeLow[0];
    assert s[35] == u.node[11];
    forall i | 0 < i < |s| - 1 ensures IsInnerChar(s[i]) {
      if i < 8 { assert s[i] == u.timeLow[i]; }
      else if 8 < i < 13 { assert s[i] == u.timeMid[i - 9]; }
      else if 13 < i < 18 { assert s[i] == u.timeHighAndVersion[i - 14]; }
      else if 18 < i < 23 { assert s[i] == u.clockSeq[i - 19]; }
      else if 23 < i { assert s[i] == u.node[i - 24]; }
    }
  }

  // ---------------------------------------------------------------------------------------------
  // Clock readings and the text `replace` assigns

  /** Microseconds on the clock `datetime.now()` reads. */
  type Timestamp = int

  /** `timedelta(hours=1)`. */
  const ONE_HOUR: Timestamp := 3_600_000_000

  /** A broken-down clock reading, as `strftime` sees it. */
  datatype DateTime = DateTime(year: nat, month: nat, day: nat, hour: nat, minute: nat, second: nat, microsecond: nat)

  function DigitChar(d: nat): char
    requires d < 10
  {
    "0123456789"[d]
  }

  /** The decimal digits of n. */
  function Decimal(n: nat): (r: string)
    ensures |r| >= 1
    decreases n
  {
    if n < 10 then [DigitChar(n)] else Decimal(n / 10) + [DigitChar(n % 10)]
  }

  /** n in decimal, left-padded with zeros to `width` characters. */
  function ZeroPad(n: nat, width: nat): (r: string)
    ensures |r| >= width && |r| >= 1
  {
    var digits := Decimal(n);
    if |digits| >= width then digits else seq(width - |digits|, _ => '0') + digits
  }

  /** `now.strftime("%F::%T.%f")`: year-month-day, two colons, hours:minutes:seconds, a dot, microseconds. */
  function FallbackStamp(now: DateTime): (r: string)
    ensures |r| >= 27
    ensures DatePart(now) <= r
  {
    DatePart(now) + "::" + ZeroPad(now.hour, 2) + ":" + ZeroPad(now.minute, 2) + ":" + ZeroPad(now.second, 2)
      + "." + ZeroPad(now.microsecond, 6)
  }

  function DatePart(now: DateTime): (r: string)
    ensures |r| >= 10
  {
    ZeroPad(now.year, 4) + "-" + ZeroPad(now.month, 2) + "-" + ZeroPad(now.day, 2)
  }

  /** Whatever the clock reads, the text `replace` falls back to holds a colon inside it, which
      neither bracket of the pattern admits, so the validator refuses it on the pattern. */
  lemma FallbackStampRejected(now: DateTime)
    ensures ValidateSessionId(FallbackStamp(now)) == Err(PatternMismatch)
  {
    var s := FallbackStamp(now);
    var d := DatePart(now);
    assert s[|d|] == ':';
    assert 0 < |d| < |s| - 1;
  }

  // ---------------------------------------------------------------------------------------------
  // Expiry and the column defaults

  /** The `expires_at` column default, evaluated when the row is inserted: one hour later. */
  function ExpiresAtDefault(insertedAt: Timestamp): (r: Timestamp)
    ensures r > insertedAt && r - insertedAt == ONE_HOUR
  {
    insertedAt + ONE_HOUR
  }

  /** Once expired a session stays expired. */
  lemma ExpiryIsMonotone(row: SessionUserModel, now: Timestamp, later: Timestamp)
    requires row.IsExpired(now) && now <= later
    ensures row.IsExpired(later)
  {
  }

  /** A row whose `expires_at` is the default for insertion at `insertedAt` is live for exactly the
      hour that follows. */
  lemma DefaultExpiryWindow(row: SessionUserModel, insertedAt: Timestamp, now: Timestamp)
    requires row.expiresAt == ExpiresAtDefault(insertedAt)
    ensures row.IsExpired(now) <==> now >= insertedAt + ONE_HOUR
    ensures insertedAt <= now < insertedAt + ONE_HOUR ==> !row.IsExpired(now)
  {
  }

  // ---------------------------------------------------------------------------------------------
  // The session record

  /** The argument `replace` receives. */
  datatype Candidate = NoneValue | Descriptor(session: BaseSession) | OtherValue

  /** `BaseSession`: every field defaults to None. */
  datatype BaseSession = BaseSession(sessionId: Option<string>, createdAt: Option<Timestamp>, expiresAt: Option<Timestamp>)

  /** The outcome `replace` has for each argument and clock reading. */
  function ReplaceOutcome(candidate: Candidate, now: DateTime): (r: Outcome)
    ensures r == Pass <==> candidate.NoneValue? && ValidateSessionId(FallbackStamp(now)).Ok?
    ensures !candidate.NoneValue? ==> r == Fail(NoneGuard)
    ensures candidate.NoneValue? && r.Fail? ==> r == Fail(ValidateSessionId(FallbackStamp(now)).error)
  {
    if !candidate.NoneValue? then Fail(NoneGuard)
    else match ValidateSessionId(FallbackStamp(now))
      case Err(e) => Fail(e)
      case Ok(_) => Pass
  }

  /** `replace` raises for every argument: the inverted None guard refuses every real argument, and
      for None the fallback assignment is refused by the validator. */
  lemma ReplaceAlwaysRaises(candidate: Candidate, now: DateTime)
    ensures ReplaceOutcome(candidate, now) == Fail(if candidate.NoneValue? then PatternMismatch else NoneGuard)
  {
    FallbackStampRejected(now);
  }

  class SessionUserModel {
    var sessionId: string
    var createdAt: Timestamp
    var expiresAt: Timestamp

    /** The validator has accepted the stored session id. */
    predicate Valid()
      reads this
    {
      ValidateSessionId(sessionId).Ok?
    }

    /** The row as stored once `sessionId` has passed the validator and the row has been inserted at
        `insertedAt`. `created_at`'s default was evaluated once, when the class was defined at
        `classDefinedAt`, so it is the same for every row; `expires_at`'s is evaluated per insertion. */
    constructor (sessionId: string, classDefinedAt: Timestamp, insertedAt: Timestamp)
      requires ValidateSessionId(sessionId).Ok?
      ensures Valid() && this.sessionId == sessionId
      ensures createdAt == classDefinedAt && expiresAt == ExpiresAtDefault(insertedAt)
    {
      this.sessionId := sessionId;
      createdAt := classDefinedAt;
      expiresAt := ExpiresAtDefault(insertedAt);
    }

    /** `SessionUserModel(session_id=...)` followed by an insertion: the validator runs on the
        assignment, and a refused id raises before any row exists. */
    static method Insert(sessionId: string, classDefinedAt: Timestamp, insertedAt: Timestamp) returns (r: Result<SessionUserModel>)
      ensures r.Ok? <==> ValidateSessionId(sessionId).Ok?
      ensures r.Err? ==> r == Err(ValidateSessionId(sessionId).error)
      ensures r.Ok? ==> fresh(r.value) && r.value.Valid() && r.value.sessionId == sessionId
      ensures r.Ok? ==> r.value.createdAt == classDefinedAt && r.value.expiresAt == ExpiresAtDefault(insertedAt)
      ensures r.Ok? ==> !r.value.IsExpired(insertedAt) && r.value.IsExpired(insertedAt + ONE_HOUR)
    {
      var checked := ValidateSessionId(sessionId);
      if checked.Err? {
        return Err(checked.error);
      }
      var row := new SessionUserModel(sessionId, classDefinedAt, insertedAt);
      r := Ok(row);
    }

    /** The `is_expired` property at clock reading `now`: the expiry instant itself already counts
        as expired, with no grace period. */
    function IsExpired(now: Timestamp): (r: bool)
      reads this
      ensures r <==> expiresAt <= now
      ensures !r ==> expiresAt - now > 0
    {
      now >= expiresAt
    }

    /** `replace(new_session)` as written. `now` is what the clock reads for the fallback id and
        `clock` what it reads for the fallback `created_at`. The guard raises for every argument that
        is not None; for None the argument is not a `BaseSession`, so the fallback runs, and the
        assignment of the fallback id goes through the validator. The `BaseSession` branch cannot
        be reached and is not written out. */
    method Replace(candidate: Candidate, now: DateTime, clock: Timestamp) returns (r: Outcome)
      modifies this
      ensures old(Valid()) ==> Valid()
      ensures r == ReplaceOutcome(candidate, now)
      ensures r.Fail? ==> unchanged(this)
      ensures r.Pass? ==> sessionId == FallbackStamp(now) && createdAt == clock + ONE_HOUR && expiresAt == old(expiresAt)
    {
      if !candidate.NoneValue? {
        return Fail(NoneGuard);
      }
      var stamp := FallbackStamp(now);
      var checked := ValidateSessionId(stamp);
      if checked.Err? {
        return Fail(checked.error);
      }
      sessionId := stamp;
      createdAt := clock + ONE_HOUR;
      r := Pass;
    }
  }

  // ---------------------------------------------------------------------------------------------
  // The database handle

  /** The driver markers `_check_async_url` searches for (each pattern's `\+` is a literal `+`). */
  const ASYNC_DRIVER_MARKERS: seq<string> := ["+aiosqlite", "+asyncpg", "+asyncmy"]

  /** `_check_async_url`: does any of the async driver markers occur in the URL? */
  function CheckAsyncUrl(url: string): (r: bool)
    ensures r <==> Contains(url, "+aiosqlite") || Contains(url, "+asyncpg") || Contains(url, "+asyncmy")
  {
    assert ASYNC_DRIVER_MARKERS[0] == "+aiosqlite" && ASYNC_DRIVER_MARKERS[1] == "+asyncpg";
    assert ASYNC_DRIVER_MARKERS[2] == "+asyncmy";
    exists i :: 0 <= i < |ASYNC_DRIVER_MARKERS| && Contains(url, ASYNC_DRIVER_MARKERS[i])
  }

  /** `DATABASE_URL_SQLITE` names the aiosqlite driver, so the database it opens is asynchronous. */
  lemma SqliteUrlIsAsync(s: Settings)
    ensures CheckAsyncUrl(DatabaseUrlSqlite(s))
  {
    var url := DatabaseUrlSqlite(s);
    assert url[6..16] == "+aiosqlite";
    assert OccursAt(url, "+aiosqlite", 6);
  }

  /** `DATABASE_URL_PS` names the asyncpg driver, so the database it opens is asynchronous. */
  lemma PostgresUrlIsAsync(s: Settings)
    ensures CheckAsyncUrl(DatabaseUrlPs(s))
  {
    var url := DatabaseUrlPs(s);
    assert url[10..18] == "+asyncpg";
    assert OccursAt(url, "+asyncpg", 10);
  }

  /** An object SQLAlchemy creates in `init_engine`, which is not part of this model. */
  datatype Handle = Handle(url: string)

  class Database {
    var pathInDb: string
    var isAsync: bool
    var engine: Option<Handle>
    var sessionFactory: Option<Handle>

    /** `Database(path_in_db)`: records the URL and whether it names an async driver; no engine yet. */
    constructor (pathInDb: string)
      ensures this.pathInDb == pathInDb && isAsync == CheckAsyncUrl(pathInDb)
      ensures engine == None && sessionFactory == None
    {
      this.pathInDb := pathInDb;
      isAsync := CheckAsyncUrl(pathInDb);
      engine := None;
      sessionFactory := None;
    }
  }
}
