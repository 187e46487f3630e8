/**
 * The API server: the two SQLite tables as in-memory rows, the header-based
 * authentication, the profile, login and history queries, and the license
 * gate of diagnosis submission. Handlers run one at a time and each runs to
 * completion before the next.
 */
module Server {
  import opened Wrappers
  import opened JsValues
  import opened Sequences

  /** A row of the `users` table. */
  datatype UserRow = UserRow(id: int, username: string, password: string, licenseLimit: int, diagnosesCount: int)

  /** The columns of a diagnosis that the client sends; `data` and `report` are already JSON text. */
  datatype DiagnosisBody = DiagnosisBody(
    companyName: string, sector: string, activity: string, companySize: string,
    contactName: string, contactEmail: string, yearConstituted: int, responsible: string,
    periodType: string, data: string, report: string)

  /** A row of the `diagnoses` table; `createdAt` is the insertion timestamp. */
  datatype DiagnosisRow = DiagnosisRow(id: int, userId: int, body: DiagnosisBody, createdAt: int)

  /** What the server reveals about a user: every column but the password. */
  datatype UserView = UserView(id: int, username: string, licenseLimit: int, diagnosesCount: int)

  /** An HTTP error answer: status code and the `error` text of its JSON body. */
  datatype HttpError = HttpError(status: int, message: string)

  /** Both tables and the next AUTOINCREMENT key of each. */
  datatype Tables = Tables(users: seq<UserRow>, diagnoses: seq<DiagnosisRow>, nextUserId: int, nextDiagnosisId: int)

  const DefaultLicenseLimit := 5

  /** The license gate: no more submissions once the counter reaches the limit. */
  predicate AtLimit(u: UserRow) {
    u.diagnosesCount >= u.licenseLimit
  }

  function ViewOf(u: UserRow): UserView {
    UserView(u.id, u.username, u.licenseLimit, u.diagnosesCount)
  }

  predicate HasUser(users: seq<UserRow>, id: int) {
    exists i :: 0 <= i < |users| && users[i].id == id
  }

  /**
   * What the tables always satisfy: user keys and usernames unique, keys
   * below the next AUTOINCREMENT value, and every diagnosis owned by an
   * existing user.
   */
  ghost predicate WellFormed(t: Tables) {
    1 <= t.nextUserId && 1 <= t.nextDiagnosisId &&
    (forall i :: 0 <= i < |t.users| ==> 1 <= t.users[i].id < t.nextUserId) &&
    (forall i, j :: 0 <= i < j < |t.users| ==> t.users[i].id != t.users[j].id) &&
    (forall i, j :: 0 <= i < j < |t.users| ==> t.users[i].username != t.users[j].username) &&
    (forall i :: 0 <= i < |t.diagnoses| ==> 1 <= t.diagnoses[i].id < t.nextDiagnosisId) &&
    (forall i, j :: 0 <= i < j < |t.diagnoses| ==> t.diagnoses[i].id != t.diagnoses[j].id) &&
    (forall i :: 0 <= i < |t.diagnoses| ==> HasUser(t.users, t.diagnoses[i].userId))
  }

  /** Every user is within their license. */
  ghost predicate WithinLimits(t: Tables) {
    forall i :: 0 <= i < |t.users| ==> t.users[i].diagnosesCount <= t.users[i].licenseLimit
  }

  // ---------------------------------------------------------------------
  // Authentication

  /**
   * The auth middleware: no `x-user-id` header (or an empty one) is 401
   * "Unauthorized", one that `parseInt` reads as NaN is 401 "Invalid User ID",
   * otherwise the request runs as the parsed user id.
   */
  function Authenticate(header: Option<string>): (r: Result<int, HttpError>)
    ensures (header.None? || header.value == "") ==> r == Err(HttpError(401, "Unauthorized"))
    ensures header.Some? && header.value != "" && ParseInt(header.value).None? ==>
              r == Err(HttpError(401, "Invalid User ID"))
    ensures header.Some? && header.value != "" && ParseInt(header.value).Some? ==>
              r == Ok(ParseInt(header.value).value)
    ensures r.Ok? ==> header.Some? && ParseInt(header.value) == Some(r.value)
  {
    if header.None? || header.value == "" then Err(HttpError(401, "Unauthorized"))
    else
      match ParseInt(header.value)
      case None => Err(HttpError(401, "Invalid User ID"))
      case Some(id) => Ok(id)
  }

  /** The header the client sends, `user.id.toString()`, authenticates as that id. */
  lemma AuthenticateClientHeader(id: int)
    ensures Authenticate(Some(IntToString(id))) == Ok(id)
  {
    ParseIntOfToString(id);
  }

  // ---------------------------------------------------------------------
  // Queries

  /** `SELECT ... FROM users WHERE id = ?`, first row. */
  function FindUserById(users: seq<UserRow>, id: int): (r: Option<UserRow>)
    ensures r.Some? ==> r.value in users && r.value.id == id
    ensures r.None? <==> !HasUser(users, id)
  {
    if users == [] then None
    else if users[0].id == id then Some(users[0])
    else
      var rest := FindUserById(users[1..], id);
      assert HasUser(users[1..], id) ==> HasUser(users, id) by {
        if HasUser(users[1..], id) {
          var i :| 0 <= i < |users[1..]| && users[1..][i].id == id;
          assert users[i + 1].id == id;
        }
      }
      rest
  }

  /** `SELECT * FROM users WHERE username = ? AND password = ?`, first row. */
  function FindUserByCredentials(users: seq<UserRow>, username: string, password: string): (r: Option<UserRow>)
    ensures r.Some? ==> r.value in users && r.value.username == username && r.value.password == password
    ensures r.None? ==> forall u :: u in users ==> !(u.username == username && u.password == password)
  {
    if users == [] then None
    else if users[0].username == username && users[0].password == password then Some(users[0])
    else FindUserByCredentials(users[1..], username, password)
  }

  /** With unique keys, the row found for a key is the row that has it. */
  lemma FindUserByUniqueId(t: Tables, k: int)
    requires WellFormed(t) && 0 <= k < |t.users|
    ensures FindUserById(t.users, t.users[k].id) == Some(t.users[k])
  {
    var r := FindUserById(t.users, t.users[k].id);
    var j :| 0 <= j < |t.users| && t.users[j] == r.value;
    assert j == k;
  }

  /**
   * GET /api/users/:id: 403 "Forbidden" unless the path id parses to the
   * authenticated id, 404 "User not found" when no row has it, otherwise the
   * row without its password.
   */
  function GetUser(t: Tables, userId: int, pathId: string): (r: Result<UserView, HttpError>)
    ensures ParseInt(pathId) != Some(userId) ==> r == Err(HttpError(403, "Forbidden"))
    ensures ParseInt(pathId) == Some(userId) && !HasUser(t.users, userId) ==> r == Err(HttpError(404, "User not found"))
    ensures ParseInt(pathId) == Some(userId) && HasUser(t.users, userId) ==> r.Ok?
    ensures r.Ok? ==> exists u :: u in t.users && u.id == userId && r.value == ViewOf(u)
  {
    if ParseInt(pathId) != Some(userId) then Err(HttpError(403, "Forbidden"))
    else
      match FindUserById(t.users, userId)
      case None => Err(HttpError(404, "User not found"))
      case Some(u) => Ok(ViewOf(u))
  }

  /** The whole request: authentication first, then GetUser. */
  function GetUserRequest(t: Tables, header: Option<string>, pathId: string): (r: Result<UserView, HttpError>)
    ensures Authenticate(header).Err? ==> r == Err(Authenticate(header).error)
    ensures Authenticate(header).Ok? ==> r == GetUser(t, Authenticate(header).value, pathId)
  {
    match Authenticate(header)
    case Err(e) => Err(e)
    case Ok(userId) => GetUser(t, userId, pathId)
  }

  /** The client asking for its own profile with its own id gets its row. */
  lemma GetOwnProfile(t: Tables, k: int)
    requires WellFormed(t) && 0 <= k < |t.users|
    ensures GetUserRequest(t, Some(IntToString(t.users[k].id)), IntToString(t.users[k].id)) == Ok(ViewOf(t.users[k]))
  {
    AuthenticateClientHeader(t.users[k].id);
    ParseIntOfToString(t.users[k].id);
    FindUserByUniqueId(t, k);
  }

  /**
   * POST /api/login: the row matching both username and password, without
   * its password; 401 "Invalid credentials" when there is none.
   */
  function Login(t: Tables, username: string, password: string): (r: Result<UserView, HttpError>)
    ensures r.Ok? ==> exists u :: u in t.users && u.username == username && u.password == password && r.value == ViewOf(u)
    ensures r.Err? ==> r.error == HttpError(401, "Invalid credentials") &&
                       forall u :: u in t.users ==> !(u.username == username && u.password == password)
  {
    match FindUserByCredentials(t.users, username, password)
    case None => Err(HttpError(401, "Invalid credentials"))
    case Some(u) => Ok(ViewOf(u))
  }

  /** Since usernames are unique, a user logging in with their own password gets their own row. */
  lemma LoginOfRegisteredUser(t: Tables, k: int)
    requires WellFormed(t) && 0 <= k < |t.users|
    ensures Login(t, t.users[k].username, t.users[k].password) == Ok(ViewOf(t.users[k]))
  {
    var u := t.users[k];
    var r := FindUserByCredentials(t.users, u.username, u.password);
    assert u in t.users;
    var j :| 0 <= j < |t.users| && t.users[j] == r.value;
    assert j == k;
  }

  /** `WHERE user_id = ?`: the diagnoses owned by `userId`, each as often as in the table, in table order. */
  function Owned(diagnoses: seq<DiagnosisRow>, userId: int): (r: seq<DiagnosisRow>)
    ensures forall d :: d in r <==> d in diagnoses && d.userId == userId
  {
    Filter(diagnoses, (d: DiagnosisRow) => d.userId == userId)
  }
  /** Each row of the user is kept as often as it occurs, the others dropped, in table order. */
  lemma OwnedKeepsCountsAndOrder(diagnoses: seq<DiagnosisRow>, userId: int)
    ensures forall d :: multiset(Owned(diagnoses, userId))[d] == if d.userId == userId then multiset(diagnoses)[d] else 0
    ensures IsSubsequence(Owned(diagnoses, userId), diagnoses)
  {
    FilterKeepsCountsAndOrder(diagnoses, (d: DiagnosisRow) => d.userId == userId);
  }


  predicate NewestFirst(rows: seq<DiagnosisRow>) {
    forall i, j :: 0 <= i < j < |rows| ==> rows[i].createdAt >= rows[j].createdAt
  }

  /** A row no older than any row of a newest-first list can go in front of it. */
  lemma NewestFirstCons(row: DiagnosisRow, rows: seq<DiagnosisRow>)
    requires NewestFirst(rows)
    requires forall d :: d in rows ==> d.createdAt <= row.createdAt
    ensures NewestFirst([row] + rows)
  {
    var r := [row] + rows;
    forall i, j | 0 <= i < j < |r| ensures r[i].createdAt >= r[j].createdAt {
      assert r[j] == rows[j - 1];
      assert rows[j - 1] in rows;
      if i > 0 {
        assert r[i] == rows[i - 1];
      }
    }
  }

  /** No row after the head of a newest-first list is newer than the head. */
  lemma NewestFirstHeadBounds(rows: seq<DiagnosisRow>)
    requires NewestFirst(rows) && rows != []
    ensures forall d :: d in rows[1..] ==> d.createdAt <= rows[0].createdAt
  {
    forall d | d in rows[1..] ensures d.createdAt <= rows[0].createdAt {
      var k :| 0 <= k < |rows[1..]| && rows[1..][k] == d;
      assert rows[1..][k] == rows[k + 1];
    }
  }

  /** `row` placed before the first row that is not newer than it. */
  function InsertNewestFirst(row: DiagnosisRow, sorted: seq<DiagnosisRow>): (r: seq<DiagnosisRow>)
    requires NewestFirst(sorted)
    ensures NewestFirst(r)
    ensures multiset(r) == multiset(sorted) + multiset{row}
    ensures forall d :: d in r ==> d == row || d in sorted
  {
    if sorted == [] || sorted[0].createdAt <= row.createdAt then
      NewestFirstCons(row, sorted);
      [row] + sorted
    else
      var rest := InsertNewestFirst(row, sorted[1..]);
      assert sorted == [sorted[0]] + sorted[1..];
      NewestFirstHeadBounds(sorted);
      NewestFirstCons(sorted[0], rest);
      [sorted[0]] + rest
  }

  /** `ORDER BY created_at DESC`; rows with equal timestamps keep table order. */
  function SortNewestFirst(rows: seq<DiagnosisRow>): (r: seq<DiagnosisRow>)
    ensures NewestFirst(r)
    ensures multiset(r) == multiset(rows)
  {
    if rows == [] then []
    else
      assert rows == [rows[0]] + rows[1..];
      InsertNewestFirst(rows[0], SortNewestFirst(rows[1..]))
  }

  /**
   * GET /api/diagnoses: the authenticated user's diagnoses, newest first,
   * each exactly as often as it is in the table, and nobody else's.
   */
  function ListDiagnoses(t: Tables, userId: int): (r: seq<DiagnosisRow>)
    ensures forall d :: d in r ==> d.userId == userId
    ensures multiset(r) == multiset(Owned(t.diagnoses, userId))
    ensures NewestFirst(r)
  {
    var r := SortNewestFirst(Owned(t.diagnoses, userId));
    assert forall d :: d in r ==> d in multiset(Owned(t.diagnoses, userId));
    r
  }

  /** The whole request: authentication first, then ListDiagnoses. */
  function ListDiagnosesRequest(t: Tables, header: Option<string>): (r: Result<seq<DiagnosisRow>, HttpError>)
    ensures Authenticate(header).Err? ==> r == Err(Authenticate(header).error)
    ensures Authenticate(header).Ok? ==> r == Ok(ListDiagnoses(t, Authenticate(header).value))
    ensures r.Ok? ==>
              (header.Some? && ParseInt(header.value).Some? &&
               forall d :: d in r.value ==> d.userId == ParseInt(header.value).value)
  {
    match Authenticate(header)
    case Err(e) => Err(e)
    case Ok(userId) => Ok(ListDiagnoses(t, userId))
  }

  // ---------------------------------------------------------------------
  // State changes, as functions of the tables before

  /** `INSERT OR IGNORE INTO users (username, password, license_limit)`: ignored when the name is taken. */
  function InsertOrIgnore(t: Tables, username: string, password: string, limit: int): (r: Tables)
    ensures NameTaken(t.users, username) ==> r == t
    ensures !NameTaken(t.users, username) ==>
              r == t.(users := t.users + [UserRow(t.nextUserId, username, password, limit, 0)], nextUserId := t.nextUserId + 1)
  {
    if NameTaken(t.users, username) then t
    else t.(users := t.users + [UserRow(t.nextUserId, username, password, limit, 0)], nextUserId := t.nextUserId + 1)
  }

  /** `UPDATE users SET license_limit = ?` on every row. */
  function ResetLimits(users: seq<UserRow>, limit: int): (r: seq<UserRow>)
    ensures |r| == |users|
    ensures forall i :: 0 <= i < |users| ==> r[i] == users[i].(licenseLimit := limit)
  {
    seq(|users|, i requires 0 <= i < |users| => users[i].(licenseLimit := limit))
  }

  /** Start-up seeding: the three default accounts, then every limit reset to 5. */
  function Seeded(t: Tables): (r: Tables)
    ensures r.diagnoses == t.diagnoses && r.nextDiagnosisId == t.nextDiagnosisId
    ensures |t.users| <= |r.users| <= |t.users| + 3
    ensures forall i :: 0 <= i < |t.users| ==> r.users[i] == t.users[i].(licenseLimit := DefaultLicenseLimit)
    ensures forall i :: 0 <= i < |r.users| ==> r.users[i].licenseLimit == DefaultLicenseLimit
  {
    var t1 := InsertOrIgnore(t, "admin", "admin123", DefaultLicenseLimit);
    var t2 := InsertOrIgnore(t1, "workfix", "workfix2026", DefaultLicenseLimit);
    var t3 := InsertOrIgnore(t2, "administrador123", "workfix2026", DefaultLicenseLimit);
    t3.(users := ResetLimits(t3.users, DefaultLicenseLimit))
  }

  /** `UPDATE users SET diagnoses_count = diagnoses_count + 1 WHERE id = ?`. */
  function IncrementCount(users: seq<UserRow>, userId: int): (r: seq<UserRow>)
    ensures |r| == |users|
    ensures forall i :: 0 <= i < |users| ==>
              r[i] == if users[i].id == userId then users[i].(diagnosesCount := users[i].diagnosesCount + 1) else users[i]
  {
    seq(|users|, i requires 0 <= i < |users| =>
      if users[i].id == userId then users[i].(diagnosesCount := users[i].diagnosesCount + 1) else users[i])
  }

  /**
   * POST /api/diagnoses once authenticated: the new tables and the answer.
   * A missing user row makes the handler throw, which the error middleware
   * turns into 500; a user at the limit gets 403 and nothing changes;
   * otherwise one row is inserted and the counter is incremented.
   */
  function PostDiagnosisAs(t: Tables, userId: int, body: DiagnosisBody, now: int): (r: (Tables, Result<int, HttpError>))
    ensures !HasUser(t.users, userId) ==> r == (t, Err(HttpError(500, "Internal Server Error")))
    ensures HasUser(t.users, userId) && AtLimit(FindUserById(t.users, userId).value) ==>
              r == (t, Err(HttpError(403, "License limit reached")))
    ensures r.1.Ok? <==> (HasUser(t.users, userId) && !AtLimit(FindUserById(t.users, userId).value))
    ensures r.1.Ok? ==>
              (r.1.value == t.nextDiagnosisId &&
               r.0 == Tables(IncrementCount(t.users, userId),
                             t.diagnoses + [DiagnosisRow(t.nextDiagnosisId, userId, body, now)],
                             t.nextUserId, t.nextDiagnosisId + 1))
  {
    match FindUserById(t.users, userId)
    case None => (t, Err(HttpError(500, "Internal Server Error")))
    case Some(u) =>
      if u.diagnosesCount >= u.licenseLimit then (t, Err(HttpError(403, "License limit reached")))
      else
        (Tables(IncrementCount(t.users, userId),
                t.diagnoses + [DiagnosisRow(t.nextDiagnosisId, userId, body, now)],
                t.nextUserId, t.nextDiagnosisId + 1),
         Ok(t.nextDiagnosisId))
  }

  /** The whole request: authentication first, then PostDiagnosis. */
  function PostDiagnosisRequest(t: Tables, header: Option<string>, body: DiagnosisBody, now: int): (r: (Tables, Result<int, HttpError>))
    ensures Authenticate(header).Err? ==> r == (t, Err(Authenticate(header).error))
    ensures Authenticate(header).Ok? ==> r == PostDiagnosisAs(t, Authenticate(header).value, body, now)
  {
    match Authenticate(header)
    case Err(e) => (t, Err(e))
    case Ok(userId) => PostDiagnosisAs(t, userId, body, now)
  }

  // ---------------------------------------------------------------------
  // Properties of the state changes

  /**
   * An accepted submission in well-formed tables: the submitting user's
   * counter grows by exactly one, every other row is untouched, and exactly
   * one diagnosis, owned by the submitter, is added.
   */
  lemma PostChangesOnlyTheSubmitter(t: Tables, userId: int, body: DiagnosisBody, now: int, k: int)
    requires WellFormed(t) && 0 <= k < |t.users|
    requires PostDiagnosisAs(t, userId, body, now).1.Ok?
    ensures var t' := PostDiagnosisAs(t, userId, body, now).0;
            |t'.users| == |t.users| &&
            (t.users[k].id == userId ==> t'.users[k] == t.users[k].(diagnosesCount := t.users[k].diagnosesCount + 1)) &&
            (t.users[k].id != userId ==> t'.users[k] == t.users[k]) &&
            |t'.diagnoses| == |t.diagnoses| + 1 && t'.diagnoses[..|t.diagnoses|] == t.diagnoses &&
            t'.diagnoses[|t.diagnoses|].userId == userId
  {
    var t' := PostDiagnosisAs(t, userId, body, now).0;
    assert t'.diagnoses[..|t.diagnoses|] == t.diagnoses;
  }

  /** Replacing the user rows by rows with the same keys and names keeps the tables well-formed. */
  lemma UsersWithSameKeys(t: Tables, users': seq<UserRow>)
    requires WellFormed(t) && |users'| == |t.users|
    requires forall i :: 0 <= i < |users'| ==> users'[i].id == t.users[i].id && users'[i].username == t.users[i].username
    ensures WellFormed(t.(users := users'))
    ensures forall id :: HasUser(t.users, id) ==> HasUser(users', id)
  {
    forall id | HasUser(t.users, id) ensures HasUser(users', id) {
      var j :| 0 <= j < |t.users| && t.users[j].id == id;
      assert users'[j].id == id;
    }
  }

  /** Appending a diagnosis with the next key, owned by an existing user, keeps the tables well-formed. */
  lemma AppendDiagnosisKeepsWellFormed(t: Tables, row: DiagnosisRow)
    requires WellFormed(t) && row.id == t.nextDiagnosisId && HasUser(t.users, row.userId)
    ensures WellFormed(t.(diagnoses := t.diagnoses + [row], nextDiagnosisId := t.nextDiagnosisId + 1))
  {
    var ds := t.diagnoses + [row];
    assert forall i :: 0 <= i < |t.diagnoses| ==> ds[i] == t.diagnoses[i];
  }

  /** A submission keeps the tables well-formed. */
  lemma PostKeepsWellFormed(t: Tables, userId: int, body: DiagnosisBody, now: int)
    requires WellFormed(t)
    ensures WellFormed(PostDiagnosisAs(t, userId, body, now).0)
  {
    if PostDiagnosisAs(t, userId, body, now).1.Ok? {
      var t1 := t.(users := IncrementCount(t.users, userId));
      UsersWithSameKeys(t, t1.users);
      var row := DiagnosisRow(t.nextDiagnosisId, userId, body, now);
      AppendDiagnosisKeepsWellFormed(t1, row);
      assert PostDiagnosisAs(t, userId, body, now).0 ==
             t1.(diagnoses := t1.diagnoses + [row], nextDiagnosisId := t1.nextDiagnosisId + 1);
    }
  }

  /** When every user is within the license, all are still within it after any one submission. */
  lemma PostKeepsWithinLimits(t: Tables, userId: int, body: DiagnosisBody, now: int)
    requires WellFormed(t) && WithinLimits(t)
    ensures WithinLimits(PostDiagnosisAs(t, userId, body, now).0)
  {
    var t' := PostDiagnosisAs(t, userId, body, now).0;
    if PostDiagnosisAs(t, userId, body, now).1.Ok? {
      forall i | 0 <= i < |t'.users| ensures t'.users[i].diagnosesCount <= t'.users[i].licenseLimit {
        if t.users[i].id == userId {
          FindUserByUniqueId(t, i);
        }
      }
    }
  }

  /** A submission request as the client sends it. */
  datatype PostRequest = PostRequest(header: Option<string>, body: DiagnosisBody, now: int)

  /** `after` has the accounts of `before`, keys, names, passwords and limits alike; only counters may have grown. */
  predicate SameAccounts(before: seq<UserRow>, after: seq<UserRow>) {
    |after| == |before| &&
    forall i :: 0 <= i < |before| ==>
      after[i] == before[i].(diagnosesCount := after[i].diagnosesCount) &&
      before[i].diagnosesCount <= after[i].diagnosesCount
  }

  /** One submission request adds no account and changes none but the submitter's counter. */
  lemma PostRequestKeepsAccounts(t: Tables, header: Option<string>, body: DiagnosisBody, now: int)
    ensures SameAccounts(t.users, PostDiagnosisRequest(t, header, body, now).0.users)
  {
    if Authenticate(header).Ok? && PostDiagnosisAs(t, Authenticate(header).value, body, now).1.Ok? {
      var users' := IncrementCount(t.users, Authenticate(header).value);
      assert PostDiagnosisRequest(t, header, body, now).0.users == users';
    }
  }

  lemma SameAccountsTransitive(a: seq<UserRow>, b: seq<UserRow>, c: seq<UserRow>)
    requires SameAccounts(a, b) && SameAccounts(b, c)
    ensures SameAccounts(a, c)
  {
  }

  /** The tables after serving the requests one after the other; no account is added or altered but for its counter. */
  function ServePosts(t: Tables, requests: seq<PostRequest>): (r: Tables)
    ensures SameAccounts(t.users, r.users)
    decreases |requests|
  {
    if requests == [] then t
    else
      var r := requests[0];
      var t1 := PostDiagnosisRequest(t, r.header, r.body, r.now).0;
      PostRequestKeepsAccounts(t, r.header, r.body, r.now);
      var rest := ServePosts(t1, requests[1..]);
      SameAccountsTransitive(t.users, t1.users, rest.users);
      rest
  }


  /** A submission request, authentication included, keeps the tables well-formed and within limits. */
  lemma PostRequestKeepsInvariants(t: Tables, header: Option<string>, body: DiagnosisBody, now: int)
    requires WellFormed(t) && WithinLimits(t)
    ensures WellFormed(PostDiagnosisRequest(t, header, body, now).0)
    ensures WithinLimits(PostDiagnosisRequest(t, header, body, now).0)
  {
    if Authenticate(header).Ok? {
      PostKeepsWellFormed(t, Authenticate(header).value, body, now);
      PostKeepsWithinLimits(t, Authenticate(header).value, body, now);
    }
  }

  /** When every user is within the license, no sequence of submissions takes any of them beyond it. */
  lemma {:induction false} ServePostsKeepsWithinLimits(t: Tables, requests: seq<PostRequest>)
    requires WellFormed(t) && WithinLimits(t)
    ensures WellFormed(ServePosts(t, requests)) && WithinLimits(ServePosts(t, requests))
    decreases |requests|
  {
    if requests != [] {
      var r := requests[0];
      PostRequestKeepsInvariants(t, r.header, r.body, r.now);
      ServePostsKeepsWithinLimits(PostDiagnosisRequest(t, r.header, r.body, r.now).0, requests[1..]);
    }
  }
  /** One user within the license stays within it after any one submission, whatever the other users' counters. */
  lemma PostKeepsUserWithinLimit(t: Tables, userId: int, body: DiagnosisBody, now: int, k: int)
    requires WellFormed(t) && 0 <= k < |t.users| && t.users[k].diagnosesCount <= t.users[k].licenseLimit
    ensures var t' := PostDiagnosisAs(t, userId, body, now).0;
            |t'.users| == |t.users| && t'.users[k].id == t.users[k].id &&
            t'.users[k].licenseLimit == t.users[k].licenseLimit &&
            t'.users[k].diagnosesCount <= t'.users[k].licenseLimit
  {
    if PostDiagnosisAs(t, userId, body, now).1.Ok? && t.users[k].id == userId {
      FindUserByUniqueId(t, k);
    }
  }

  /** No sequence of submissions takes a user who is within the license beyond it, whatever the other users' counters. */
  lemma {:induction false} ServePostsKeepsUserWithinLimit(t: Tables, requests: seq<PostRequest>, k: int)
    requires WellFormed(t) && 0 <= k < |t.users| && t.users[k].diagnosesCount <= t.users[k].licenseLimit
    ensures ServePosts(t, requests).users[k].diagnosesCount <= ServePosts(t, requests).users[k].licenseLimit
    decreases |requests|
  {
    if requests != [] {
      var r := requests[0];
      if Authenticate(r.header).Ok? {
        PostKeepsWellFormed(t, Authenticate(r.header).value, r.body, r.now);
        PostKeepsUserWithinLimit(t, Authenticate(r.header).value, r.body, r.now, k);
      }
      ServePostsKeepsUserWithinLimit(PostDiagnosisRequest(t, r.header, r.body, r.now).0, requests[1..], k);
    }
  }


  /** Some row has this user name. */
  predicate NameTaken(users: seq<UserRow>, username: string) {
    exists i :: 0 <= i < |users| && users[i].username == username
  }

  /** Every user's counter equals the number of diagnoses the table holds for them. */
  ghost predicate CountsMatchRows(t: Tables) {
    forall i :: 0 <= i < |t.users| ==> t.users[i].diagnosesCount == |Owned(t.diagnoses, t.users[i].id)|
  }

  /** Appending one row adds it to its owner's diagnoses only. */
  lemma OwnedAfterAppend(diagnoses: seq<DiagnosisRow>, d: DiagnosisRow, userId: int)
    ensures Owned(diagnoses + [d], userId) == Owned(diagnoses, userId) + (if d.userId == userId then [d] else [])
  {
    assert (diagnoses + [d])[..|diagnoses|] == diagnoses;
  }

  /** A user that owns no row has no diagnoses. */
  lemma {:induction false} OwnedOfStranger(diagnoses: seq<DiagnosisRow>, userId: int)
    requires forall i :: 0 <= i < |diagnoses| ==> diagnoses[i].userId != userId
    ensures Owned(diagnoses, userId) == []
  {
    if diagnoses != [] {
      OwnedOfStranger(diagnoses[..|diagnoses| - 1], userId);
    }
  }

  /** An accepted submission adds one to the submitter's counter and one row to their diagnoses. */
  lemma PostKeepsCountsMatchingRows(t: Tables, userId: int, body: DiagnosisBody, now: int)
    requires WellFormed(t) && CountsMatchRows(t)
    ensures CountsMatchRows(PostDiagnosisAs(t, userId, body, now).0)
  {
    var t' := PostDiagnosisAs(t, userId, body, now).0;
    if PostDiagnosisAs(t, userId, body, now).1.Ok? {
      var d := DiagnosisRow(t.nextDiagnosisId, userId, body, now);
      forall i | 0 <= i < |t'.users| ensures t'.users[i].diagnosesCount == |Owned(t'.diagnoses, t'.users[i].id)| {
        OwnedAfterAppend(t.diagnoses, d, t.users[i].id);
      }
    }
  }

  /** A new user starts at 0 and owns no diagnosis, since every row belongs to an older key. */
  lemma InsertOrIgnoreKeepsCountsMatchingRows(t: Tables, username: string, password: string, limit: int)
    requires WellFormed(t) && CountsMatchRows(t)
    ensures CountsMatchRows(InsertOrIgnore(t, username, password, limit))
  {
    if !NameTaken(t.users, username) {
      forall i | 0 <= i < |t.diagnoses| ensures t.diagnoses[i].userId != t.nextUserId {
        assert HasUser(t.users, t.diagnoses[i].userId);
        var j :| 0 <= j < |t.users| && t.users[j].id == t.diagnoses[i].userId;
      }
      OwnedOfStranger(t.diagnoses, t.nextUserId);
    }
  }

  /** Inserting a user keeps user names unique and the tables well-formed. */
  lemma InsertOrIgnoreKeepsWellFormed(t: Tables, username: string, password: string, limit: int)
    requires WellFormed(t)
    ensures WellFormed(InsertOrIgnore(t, username, password, limit))
  {
    var t' := InsertOrIgnore(t, username, password, limit);
    forall i | 0 <= i < |t'.diagnoses| ensures HasUser(t'.users, t'.diagnoses[i].userId) {
      var id := t'.diagnoses[i].userId;
      assert HasUser(t.users, id);
      var j :| 0 <= j < |t.users| && t.users[j].id == id;
      assert t'.users[j].id == id;
    }
  }

  /** After an insert the name is taken, and names taken before still are. */
  lemma InsertOrIgnoreTakesName(t: Tables, username: string, password: string, limit: int, other: string)
    requires NameTaken(t.users, other) || other == username
    ensures NameTaken(InsertOrIgnore(t, username, password, limit).users, other)
  {
    var t' := InsertOrIgnore(t, username, password, limit);
    if NameTaken(t.users, other) {
      var j :| 0 <= j < |t.users| && t.users[j].username == other;
      assert t'.users[j].username == other;
    } else if !NameTaken(t.users, username) {
      assert t'.users[|t.users|].username == other;
    }
  }

  /** Resetting the limits changes no key, no name and no diagnosis. */
  lemma ResetLimitsKeepsWellFormed(t: Tables, limit: int)
    requires WellFormed(t)
    ensures WellFormed(t.(users := ResetLimits(t.users, limit)))
    ensures forall name :: NameTaken(t.users, name) ==> NameTaken(ResetLimits(t.users, limit), name)
  {
    var users := ResetLimits(t.users, limit);
    UsersWithSameKeys(t, users);
    forall name | NameTaken(t.users, name) ensures NameTaken(users, name) {
      var j :| 0 <= j < |t.users| && t.users[j].username == name;
      assert users[j].username == name;
    }
  }

  /** Seeding keeps the tables well-formed: the default accounts never duplicate a user name. */
  lemma SeedKeepsWellFormed(t: Tables)
    requires WellFormed(t)
    ensures WellFormed(Seeded(t))
  {
    var t1 := InsertOrIgnore(t, "admin", "admin123", DefaultLicenseLimit);
    var t2 := InsertOrIgnore(t1, "workfix", "workfix2026", DefaultLicenseLimit);
    var t3 := InsertOrIgnore(t2, "administrador123", "workfix2026", DefaultLicenseLimit);
    InsertOrIgnoreKeepsWellFormed(t, "admin", "admin123", DefaultLicenseLimit);
    InsertOrIgnoreKeepsWellFormed(t1, "workfix", "workfix2026", DefaultLicenseLimit);
    InsertOrIgnoreKeepsWellFormed(t2, "administrador123", "workfix2026", DefaultLicenseLimit);
    ResetLimitsKeepsWellFormed(t3, DefaultLicenseLimit);
  }

  /** Starting the server again on the same tables seeds nothing new. */
  lemma SeedIsIdempotent(t: Tables)
    ensures Seeded(Seeded(t)) == Seeded(t)
  {
    var s := Seeded(t);
    assert NameTaken(s.users, "admin") && NameTaken(s.users, "workfix") && NameTaken(s.users, "administrador123") by {
      var t1 := InsertOrIgnore(t, "admin", "admin123", DefaultLicenseLimit);
      var t2 := InsertOrIgnore(t1, "workfix", "workfix2026", DefaultLicenseLimit);
      var t3 := InsertOrIgnore(t2, "administrador123", "workfix2026", DefaultLicenseLimit);
      InsertOrIgnoreTakesName(t, "admin", "admin123", DefaultLicenseLimit, "admin");
      InsertOrIgnoreTakesName(t1, "workfix", "workfix2026", DefaultLicenseLimit, "admin");
      InsertOrIgnoreTakesName(t1, "workfix", "workfix2026", DefaultLicenseLimit, "workfix");
      InsertOrIgnoreTakesName(t2, "administrador123", "workfix2026", DefaultLicenseLimit, "admin");
      InsertOrIgnoreTakesName(t2, "administrador123", "workfix2026", DefaultLicenseLimit, "workfix");
      InsertOrIgnoreTakesName(t2, "administrador123", "workfix2026", DefaultLicenseLimit, "administrador123");
      assert s == t3.(users := ResetLimits(t3.users, DefaultLicenseLimit));
      var us := ResetLimits(t3.users, DefaultLicenseLimit);
      forall name | NameTaken(t3.users, name) ensures NameTaken(us, name) {
        var j :| 0 <= j < |t3.users| && t3.users[j].username == name;
        assert us[j].username == name;
      }
    }
    assert InsertOrIgnore(s, "admin", "admin123", DefaultLicenseLimit) == s;
    assert InsertOrIgnore(s, "workfix", "workfix2026", DefaultLicenseLimit) == s;
    assert InsertOrIgnore(s, "administrador123", "workfix2026", DefaultLicenseLimit) == s;
    assert ResetLimits(s.users, DefaultLicenseLimit) == s.users;
  }

  /** Seeding an empty database gives exactly the three default accounts, keys 1 to 3. */
  lemma SeedOfEmptyDatabase()
    ensures Seeded(Tables([], [], 1, 1)).users == [
              UserRow(1, "admin", "admin123", 5, 0),
              UserRow(2, "workfix", "workfix2026", 5, 0),
              UserRow(3, "administrador123", "workfix2026", 5, 0)]
  {
    var t1 := InsertOrIgnore(Tables([], [], 1, 1), "admin", "admin123", DefaultLicenseLimit);
    assert t1.users == [UserRow(1, "admin", "admin123", 5, 0)];
    var t2 := InsertOrIgnore(t1, "workfix", "workfix2026", DefaultLicenseLimit);
    assert t2.users == t1.users + [UserRow(2, "workfix", "workfix2026", 5, 0)];
    var t3 := InsertOrIgnore(t2, "administrador123", "workfix2026", DefaultLicenseLimit);
    assert t3.users == t2.users + [UserRow(3, "administrador123", "workfix2026", 5, 0)];
  }

  /**
   * The limit reset at start-up applies to users already over 5: a user with
   * 6 diagnoses under a limit of 20 is over the limit after seeding. Only
   * submissions are gated, so WithinLimits is a property of the POST handler,
   * not of start-up.
   */
  lemma SeedCanLeaveUserOverLimit()
    ensures var t := Tables([UserRow(1, "pro", "secret", 20, 6)], [], 2, 1);
            WithinLimits(t) && !WithinLimits(Seeded(t))
  {
    var t := Tables([UserRow(1, "pro", "secret", 20, 6)], [], 2, 1);
    assert !NameTaken(t.users, "admin");
    var t1 := InsertOrIgnore(t, "admin", "admin123", DefaultLicenseLimit);
    assert t1.users[0] == t.users[0];
    var t2 := InsertOrIgnore(t1, "workfix", "workfix2026", DefaultLicenseLimit);
    assert t2.users[0] == t.users[0];
    var t3 := InsertOrIgnore(t2, "administrador123", "workfix2026", DefaultLicenseLimit);
    assert t3.users[0] == t.users[0];
    assert Seeded(t).users[0] == t.users[0].(licenseLimit := 5);
  }

  // ---------------------------------------------------------------------
  // The database object the handlers update in place

  class Database {
    var users: seq<UserRow>
    var diagnoses: seq<DiagnosisRow>
    var nextUserId: int
    var nextDiagnosisId: int

    function Snapshot(): Tables
      reads this
    {
      Tables(users, diagnoses, nextUserId, nextDiagnosisId)
    }

    ghost predicate Valid()
      reads this
    {
      WellFormed(Snapshot())
    }

    /** A new database file: `CREATE TABLE IF NOT EXISTS` on nothing gives two empty tables. */
    constructor ()
      ensures Valid() && WithinLimits(Snapshot())
      ensures Snapshot() == Tables([], [], 1, 1)
    {
      users, diagnoses := [], [];
      nextUserId, nextDiagnosisId := 1, 1;
    }

    method InsertOrIgnoreUser(username: string, password: string, limit: int)
      requires Valid()
      modifies this
      ensures Valid()
      ensures Snapshot() == InsertOrIgnore(old(Snapshot()), username, password, limit)
    {
      InsertOrIgnoreKeepsWellFormed(Snapshot(), username, password, limit);
      var i := 0;
      var taken := false;
      while i < |users| && !taken
        invariant 0 <= i <= |users|
        invariant taken <==> exists k :: 0 <= k < i && users[k].username == username
      {
        taken := users[i].username == username;
        i := i + 1;
      }
      if !taken {
        users := users + [UserRow(nextUserId, username, password, limit, 0)];
        nextUserId := nextUserId + 1;
      }
    }

    method SetAllLimits(limit: int)
      requires Valid()
      modifies this
      ensures Valid()
      ensures Snapshot() == old(Snapshot()).(users := ResetLimits(old(users), limit))
    {
      var i := 0;
      while i < |users|
        invariant 0 <= i <= |users| == |old(users)|
        invariant forall k :: 0 <= k < i ==> users[k] == old(users)[k].(licenseLimit := limit)
        invariant forall k :: i <= k < |users| ==> users[k] == old(users)[k]
        invariant diagnoses == old(diagnoses) && nextUserId == old(nextUserId) && nextDiagnosisId == old(nextDiagnosisId)
      {
        users := users[i := users[i].(licenseLimit := limit)];
        i := i + 1;
      }
      assert users == ResetLimits(old(users), limit);
      forall k | 0 <= k < |diagnoses| ensures HasUser(users, diagnoses[k].userId) {
        var id := diagnoses[k].userId;
        assert HasUser(old(users), id);
        var j :| 0 <= j < |old(users)| && old(users)[j].id == id;
        assert users[j].id == id;
      }
    }

    /** The start-up seeding of server.ts. */
    method Seed()
      requires Valid()
      modifies this
      ensures Valid()
      ensures Snapshot() == Seeded(old(Snapshot()))
    {
      InsertOrIgnoreUser("admin", "admin123", DefaultLicenseLimit);
      InsertOrIgnoreUser("workfix", "workfix2026", DefaultLicenseLimit);
      InsertOrIgnoreUser("administrador123", "workfix2026", DefaultLicenseLimit);
      SetAllLimits(DefaultLicenseLimit);
    }

    /** `INSERT INTO diagnoses ...`: the new row gets the next key, which is returned. */
    method InsertDiagnosis(userId: int, body: DiagnosisBody, now: int) returns (id: int)
      modifies this
      ensures id == old(nextDiagnosisId) && nextDiagnosisId == id + 1
      ensures diagnoses == old(diagnoses) + [DiagnosisRow(id, userId, body, now)]
      ensures users == old(users) && nextUserId == old(nextUserId)
    {
      id := nextDiagnosisId;
      diagnoses := diagnoses + [DiagnosisRow(id, userId, body, now)];
      nextDiagnosisId := nextDiagnosisId + 1;
    }

    /** `UPDATE users SET diagnoses_count = diagnoses_count + 1 WHERE id = ?`. */
    method IncrementDiagnosesCount(userId: int)
      modifies this
      ensures users == IncrementCount(old(users), userId)
      ensures diagnoses == old(diagnoses) && nextUserId == old(nextUserId) && nextDiagnosisId == old(nextDiagnosisId)
    {
      var i := 0;
      while i < |users|
        invariant 0 <= i <= |users| == |old(users)|
        invariant forall k :: 0 <= k < i ==> users[k] == IncrementCount(old(users), userId)[k]
        invariant forall k :: i <= k < |users| ==> users[k] == old(users)[k]
        invariant diagnoses == old(diagnoses) && nextUserId == old(nextUserId) && nextDiagnosisId == old(nextDiagnosisId)
      {
        if users[i].id == userId {
          users := users[i := users[i].(diagnosesCount := users[i].diagnosesCount + 1)];
        }
        i := i + 1;
      }
    }

    /**
     * The POST /api/diagnoses handler behind the auth middleware: read the
     * user row, refuse at the limit, insert the diagnosis, increment the
     * counter.
     */
    method PostDiagnosis(header: Option<string>, body: DiagnosisBody, now: int) returns (res: Result<int, HttpError>)
      requires Valid()
      modifies this
      ensures (Snapshot(), res) == PostDiagnosisRequest(old(Snapshot()), header, body, now)
      ensures Valid()
      ensures WithinLimits(old(Snapshot())) ==> WithinLimits(Snapshot())
      ensures CountsMatchRows(old(Snapshot())) ==> CountsMatchRows(Snapshot())
    {
      ghost var before := Snapshot();
      var auth := Authenticate(header);
      if auth.Err? {
        assert PostDiagnosisRequest(before, header, body, now) == (before, Err(auth.error));
        return Err(auth.error);
      }
      var userId := auth.value;
      ghost var outcome := PostDiagnosisAs(before, userId, body, now);
      assert PostDiagnosisRequest(before, header, body, now) == outcome;
      PostKeepsWellFormed(before, userId, body, now);
      if WithinLimits(before) {
        PostKeepsWithinLimits(before, userId, body, now);
      }
      if CountsMatchRows(before) {
        PostKeepsCountsMatchingRows(before, userId, body, now);
      }
      var user := FindUserById(users, userId);
      if user.None? {
        assert outcome == (before, Err(HttpError(500, "Internal Server Error")));
        return Err(HttpError(500, "Internal Server Error"));
      }
      if user.value.diagnosesCount >= user.value.licenseLimit {
        assert outcome == (before, Err(HttpError(403, "License limit reached")));
        return Err(HttpError(403, "License limit reached"));
      }
      assert outcome.1 == Ok(before.nextDiagnosisId);
      var id := InsertDiagnosis(userId, body, now);
      IncrementDiagnosesCount(userId);
      res := Ok(id);
      assert Snapshot() == outcome.0;
    }
  }
}
