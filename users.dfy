/** Users and the audit trail: accounts keyed by a unique e-mail, with the
    password kept only as a bcrypt digest and never returned, and the audit
    log with its filtered, newest-first, bounded listing. */
module Users {
  import opened Common
  import opened Calendar
  import opened Seqs
  import opened Schema

  // ---------------------------------------------------------------------------
  // Passwords

  /** `bcrypt.hash(password, 10)` with the salt it draws: the digest of the
      password. The salt is random in the service; here it is a parameter. */
  function Hash(password: string, salt: int): PasswordHash
  {
    Bcrypt(password, salt)
  }

  /** `bcrypt.compare`: a digest accepts exactly the password it was made from. */
  predicate Accepts(h: PasswordHash, password: string)
  {
    h.secret == password
  }

  /** A digest accepts its own password, and no other one. */
  lemma HashAccepts(password: string, other: string, salt: int)
    ensures Accepts(Hash(password, salt), password)
    ensures Accepts(Hash(password, salt), other) ==> other == password
  {
  }

  // ---------------------------------------------------------------------------
  // What the service returns

  /** A user as every read and write of the service returns it: all columns
      but the password. */
  datatype UserView = UserView(
    id: Id, email: string, name: string, role: string, status: string,
    createdAt: Instant, updatedAt: Instant)

  function Project(u: User): (v: UserView)
    ensures v.id == u.id && v.email == u.email
  {
    UserView(u.id, u.email, u.name, u.role, u.status, u.createdAt, u.updatedAt)
  }

  /** The returned view does not depend on the password: two users that differ
      only in their password look the same. */
  lemma ProjectHidesPassword(u: User, h: PasswordHash)
    ensures Project(u.(password := h)) == Project(u)
  {
  }

  function Projections(us: seq<User>): (r: seq<UserView>)
    ensures |r| == |us| && forall k :: 0 <= k < |us| ==> r[k] == Project(us[k])
  {
    seq(|us|, k requires 0 <= k < |us| => Project(us[k]))
  }

  /** Users newest first. */
  predicate UserNewestFirst(a: User, b: User) { a.createdAt >= b.createdAt }

  /** `getUsers`: every user, projected, newest first. */
  function GetUsers(t: Tables): (r: seq<UserView>)
    ensures |r| == |t.users|
    ensures forall u :: u in t.users ==> Project(u) in r
    ensures forall v :: v in r ==> exists u :: u in t.users && Project(u) == v
    ensures forall i, j :: 0 <= i < j < |r| ==> r[i].createdAt >= r[j].createdAt
  {
    assert TotalPreorder(UserNewestFirst);
    var sorted := SortBy(t.users, UserNewestFirst);
    SameMembers(sorted, t.users);
    var r := Projections(sorted);
    forall u | u in t.users ensures Project(u) in r {
      var k :| 0 <= k < |sorted| && sorted[k] == u;
      assert r[k] == Project(u);
    }
    forall v | v in r ensures exists u :: u in t.users && Project(u) == v {
      var k :| 0 <= k < |r| && r[k] == v;
      assert sorted[k] in sorted;
      assert sorted[k] in t.users && Project(sorted[k]) == v;
    }
    r
  }

  /** `getUserById`. */
  function GetUserById(t: Tables, id: Id): (r: Option<UserView>)
    ensures r.Some? <==> id in Map(t.users, UserKey)
    ensures r.Some? ==> r.value.id == id && exists u :: u in t.users && Project(u) == r.value
  {
    match Lookup(t.users, UserKey, id)
    case None => None
    case Some(u) => Some(Project(u))
  }

  // ---------------------------------------------------------------------------
  // Creation

  datatype UserData = UserData(name: string, email: string, password: string, role: string)

  const ActiveUser: string := "active"

  function DuplicateEmail(email: string): string
  {
    "Ya existe un usuario con el email " + email
  }

  /** The unique e-mail column. */
  function EmailOf(u: User): string { u.email }

  /** The stored user: the digest in place of the password, status "active". */
  function NewUser(data: UserData, id: Id, salt: int, now: Instant): (u: User)
    ensures u.status == ActiveUser && u.password == Hash(data.password, salt)
    ensures u.email == data.email && u.id == id
  {
    User(id, data.email, data.name, Hash(data.password, salt), data.role, ActiveUser, now, now)
  }

  function WithUser(t: Tables, data: UserData, salt: int, now: Instant): Tables
  {
    t.(users := t.users + [NewUser(data, t.nextId, salt, now)], nextId := t.nextId + 1)
  }

  /** Writes the users table and the id counter. */
  method StoreUsers(db: Db, us: seq<User>, next: nat)
    modifies db`users, db`nextId
    ensures db.Snapshot() == old(db.Snapshot()).(users := us, nextId := next)
  {
    db.users, db.nextId := us, next;
  }

  /** `createUser`: refused when the e-mail is registered; otherwise the user
      is stored with the hashed password and status "active", and returned
      without the password. */
  method CreateUser(db: Db, data: UserData, salt: int, now: Instant) returns (r: Result<UserView>)
    requires db.Valid()
    modifies db`users, db`nextId
    ensures db.Valid()
    ensures if FindBy(old(db.users), EmailOf, data.email).Some? then
        r == Err(DuplicateEmail(data.email)) && db.Snapshot() == old(db.Snapshot())
      else
        && r == Ok(Project(NewUser(data, old(db.nextId), salt, now)))
        && db.Snapshot() == WithUser(old(db.Snapshot()), data, salt, now)
  {
    var existing := FindBy(db.users, EmailOf, data.email);
    if existing.Some? {
      return Err(DuplicateEmail(data.email));
    }
    ghost var t0 := db.Snapshot();
    var user := NewUser(data, db.nextId, salt, now);
    StoreUsers(db, db.users + [user], db.nextId + 1);
    CreateUserValid(t0, data, salt, now);
    r := Ok(Project(user));
  }

  /** Storing a user whose e-mail is new keeps the database valid. */
  lemma CreateUserValid(t: Tables, data: UserData, salt: int, now: Instant)
    requires TablesValid(t) && FindBy(t.users, EmailOf, data.email).None?
    ensures TablesValid(WithUser(t, data, salt, now))
  {
    var u := NewUser(data, t.nextId, salt, now);
    IssuedAppendRow(t.users, UserKey, u, t.nextId, t.nextId + 1);
    IdsIssuedGrow(t, t.nextId + 1);
    var us := t.users + [u];
    forall a, b | 0 <= a < |us| && 0 <= b < |us| && a != b ensures us[a].email != us[b].email {
      if a < |t.users| && b < |t.users| {
        assert us[a] == t.users[a] && us[b] == t.users[b];
      }
    }
  }

  // ---------------------------------------------------------------------------
  // Update

  /** The fields an update supplies; an absent field is left as it is. */
  datatype UserChanges = UserChanges(
    name: Option<string>, email: Option<string>, password: Option<string>,
    role: Option<string>, status: Option<string>)

  /** A user with the supplied fields written over theirs, the password
      re-hashed only when a non-empty one is supplied, and the update time
      stamped. */
  function Changed(u: User, c: UserChanges, salt: int, now: Instant): (v: User)
    ensures v.id == u.id && v.createdAt == u.createdAt && v.updatedAt == now
    ensures Given(c.password) ==> v.password == Hash(c.password.value, salt)
    ensures !Given(c.password) ==> v.password == u.password
  {
    u.(name := if c.name.Some? then c.name.value else u.name,
       email := if c.email.Some? then c.email.value else u.email,
       password := if Given(c.password) then Hash(c.password.value, salt) else u.password,
       role := if c.role.Some? then c.role.value else u.role,
       status := if c.status.Some? then c.status.value else u.status,
       updatedAt := now)
  }

  /** After an update, the account accepts the new password when one was
      supplied, and still the old one otherwise. */
  lemma ChangedPassword(u: User, c: UserChanges, salt: int, now: Instant, old_password: string)
    requires Accepts(u.password, old_password)
    ensures Given(c.password) ==> Accepts(Changed(u, c, salt, now).password, c.password.value)
    ensures !Given(c.password) ==> Accepts(Changed(u, c, salt, now).password, old_password)
  {
  }

  predicate HeldByOther(us: seq<User>, id: Id, email: string)
  {
    exists i :: 0 <= i < |us| && us[i].email == email && us[i].id != id
  }

  /** Why `updateUser` fails, if it does: a supplied (non-empty) e-mail held
      by another user; then an unknown id; then, for an empty e-mail, which
      skips the service's own check, the database's unique constraint. */
  function UpdateError(us: seq<User>, id: Id, c: UserChanges): (e: Option<string>)
    ensures e.None? <==>
      && id in Map(us, UserKey)
      && (c.email.Some? ==> !HeldByOther(us, id, c.email.value))
  {
    if Given(c.email) && FindBy(us, EmailOf, c.email.value).Some?
       && us[FindBy(us, EmailOf, c.email.value).value].id != id then
      Some(DuplicateEmail(c.email.value))
    else if Find(us, UserKey, id).None? then Some(RecordNotFound)
    else if c.email.Some? && HeldByOther(us, id, c.email.value) then Some(UniqueViolation)
    else None
  }

  /** A non-empty e-mail held by another user is refused with the service's
      own message. */
  lemma UpdateDuplicate(us: seq<User>, id: Id, c: UserChanges, j: nat)
    requires UniqueEmails(us) && j < |us| && Given(c.email)
    requires us[j].email == c.email.value && us[j].id != id
    ensures UpdateError(us, id, c) == Some(DuplicateEmail(c.email.value))
  {
    var k := FindBy(us, EmailOf, c.email.value).value;
    assert k == j;
  }

  function WithChanges(t: Tables, i: nat, c: UserChanges, salt: int, now: Instant): Tables
    requires i < |t.users|
  {
    t.(users := t.users[i := Changed(t.users[i], c, salt, now)])
  }

  /** `updateUser`: the supplied fields are written over the user's, the
      password re-hashed when given; the result carries no password. */
  method UpdateUser(db: Db, id: Id, c: UserChanges, salt: int, now: Instant) returns (r: Result<UserView>)
    requires db.Valid()
    modifies db`users, db`nextId
    ensures db.Valid()
    ensures var e := UpdateError(old(db.users), id, c);
      if e.Some? then r == Err(e.value) && db.Snapshot() == old(db.Snapshot())
      else
        var i := Find(old(db.users), UserKey, id).value;
        && r == Ok(Project(Changed(old(db.users)[i], c, salt, now)))
        && db.Snapshot() == WithChanges(old(db.Snapshot()), i, c, salt, now)
  {
    var e := UpdateError(db.users, id, c);
    if e.Some? {
      return Err(e.value);
    }
    ghost var t0 := db.Snapshot();
    var i := Find(db.users, UserKey, id).value;
    var user := Changed(db.users[i], c, salt, now);
    StoreUsers(db, db.users[i := user], db.nextId);
    UpdateUserValid(t0, id, c, salt, now);
    r := Ok(Project(user));
  }

  lemma UpdateUserValid(t: Tables, id: Id, c: UserChanges, salt: int, now: Instant)
    requires TablesValid(t) && UpdateError(t.users, id, c).None?
    ensures TablesValid(WithChanges(t, Find(t.users, UserKey, id).value, c, salt, now))
  {
    var i := Find(t.users, UserKey, id).value;
    KeysUpdate(t.users, UserKey, i, Changed(t.users[i], c, salt, now));
    UpdateKeepsEmailsUnique(t.users, i, c, salt, now);
  }

  /** Changing the user at `i` to an e-mail no other user holds keeps the
      e-mails unique. */
  lemma UpdateKeepsEmailsUnique(us: seq<User>, i: nat, c: UserChanges, salt: int, now: Instant)
    requires UniqueEmails(us) && Ascending(Map(us, UserKey)) && i < |us|
    requires c.email.Some? ==> !HeldByOther(us, us[i].id, c.email.value)
    ensures UniqueEmails(us[i := Changed(us[i], c, salt, now)])
  {
    var r := us[i := Changed(us[i], c, salt, now)];
    forall a, b | 0 <= a < |r| && 0 <= b < |r| && a != b ensures r[a].email != r[b].email {
      if a == i || b == i {
        var o := if a == i then b else a;
        assert r[o] == us[o];
        if c.email.Some? {
          assert us[o].id != us[i].id by {
            FindUnique(us, UserKey, o);
            FindUnique(us, UserKey, i);
          }
        }
      }
    }
  }

  // ---------------------------------------------------------------------------
  // Deletion

  /** Prisma's failure when `delete` finds no row with the id. */
  const RecordToDeleteMissing: string := "Record to delete does not exist."

  function WithoutUser(t: Tables, i: nat): Tables
    requires i < |t.users|
  {
    t.(users := t.users[..i] + t.users[i + 1..])
  }

  /** `deleteUser`: removes exactly the user with the id, or fails when there
      is none. */
  method DeleteUser(db: Db, id: Id) returns (r: Result<User>)
    requires db.Valid()
    modifies db`users, db`nextId
    ensures db.Valid()
    ensures match Find(old(db.users), UserKey, id)
      case None => r == Err(RecordToDeleteMissing) && db.Snapshot() == old(db.Snapshot())
      case Some(i) => r == Ok(old(db.users)[i]) && db.Snapshot() == WithoutUser(old(db.Snapshot()), i)
  {
    var found := Find(db.users, UserKey, id);
    if found.None? {
      return Err(RecordToDeleteMissing);
    }
    ghost var t0 := db.Snapshot();
    var i := found.value;
    r := Ok(db.users[i]);
    StoreUsers(db, db.users[..i] + db.users[i + 1..], db.nextId);
    DeleteUserValid(t0, i);
  }

  lemma DeleteUserValid(t: Tables, i: nat)
    requires TablesValid(t) && i < |t.users|
    ensures TablesValid(WithoutUser(t, i))
  {
    KeysRemove(t.users, UserKey, i);
    IssuedRemove(Map(t.users, UserKey), t.nextId, i);
    RemoveKeepsEmailsUnique(t.users, i);
  }

  lemma RemoveKeepsEmailsUnique(us: seq<User>, i: nat)
    requires UniqueEmails(us) && i < |us|
    ensures UniqueEmails(us[..i] + us[i + 1..])
  {
    var r := us[..i] + us[i + 1..];
    forall a, b | 0 <= a < |r| && 0 <= b < |r| && a != b ensures r[a].email != r[b].email {
      var a' := if a < i then a else a + 1;
      var b' := if b < i then b else b + 1;
      assert r[a] == us[a'] && r[b] == us[b'];
    }
  }

  // ---------------------------------------------------------------------------
  // The audit log

  datatype AuditEntry = AuditEntry(
    userId: Id, action: string, moduleName: string, recordId: Option<string>, details: Option<string>)

  function NewAuditLog(e: AuditEntry, id: Id, now: Instant): AuditLog
  {
    AuditLog(id, e.userId, e.action, e.moduleName, e.recordId, e.details, now)
  }

  /** Writes the audit log and the id counter. */
  method StoreAuditLogs(db: Db, logs: seq<AuditLog>, next: nat)
    modifies db`auditLogs, db`nextId
    ensures db.Snapshot() == old(db.Snapshot()).(auditLogs := logs, nextId := next)
  {
    db.auditLogs, db.nextId := logs, next;
  }

  /** `logAudit`: appends one entry, stamped `now`. */
  method LogAudit(db: Db, e: AuditEntry, now: Instant) returns (log: AuditLog)
    requires db.Valid()
    modifies db`auditLogs, db`nextId
    ensures db.Valid()
    ensures log == NewAuditLog(e, old(db.nextId), now)
    ensures db.Snapshot() == old(db.Snapshot()).(auditLogs := old(db.auditLogs) + [log], nextId := old(db.nextId) + 1)
  {
    ghost var t0 := db.Snapshot();
    log := NewAuditLog(e, db.nextId, now);
    StoreAuditLogs(db, db.auditLogs + [log], db.nextId + 1);
    IssuedAppendRow(t0.auditLogs, AuditLogKey, log, t0.nextId, t0.nextId + 1);
    IdsIssuedGrow(t0, t0.nextId + 1);
  }

  /** The optional filters of the audit listing (its optional limit is passed
      beside them). */
  datatype AuditFilters = AuditFilters(
    userId: Option<Id>, moduleName: Option<string>, action: Option<string>,
    startDate: Option<Instant>, endDate: Option<Instant>)

  const DefaultAuditLimit: nat := 100

  /** `limit || 100`: an absent or zero limit means 100. */
  function Take(limit: Option<nat>): (n: nat)
    ensures n >= 1
    ensures limit.Some? && limit.value != 0 ==> n == limit.value
    ensures limit.None? || limit.value == 0 ==> n == DefaultAuditLimit
  {
    if limit.Some? && limit.value != 0 then limit.value else DefaultAuditLimit
  }

  predicate AuditMatches(f: AuditFilters, x: AuditLog)
  {
    && (f.userId.Some? ==> x.userId == f.userId.value)
    && (Given(f.moduleName) ==> x.moduleName == f.moduleName.value)
    && (Given(f.action) ==> x.action == f.action.value)
    && InRange(x.createdAt, f.startDate, f.endDate)
  }

  function AuditMatchesIn(f: AuditFilters): AuditLog -> bool
  {
    (x: AuditLog) => AuditMatches(f, x)
  }

  predicate AuditNewestFirst(a: AuditLog, b: AuditLog) { a.createdAt >= b.createdAt }

  /** `getAuditLogs`: the newest matching entries, at most the limit. */
  function GetAuditLogs(t: Tables, f: AuditFilters, limit: Option<nat>): (r: seq<AuditLog>)
    ensures |r| <= Take(limit)
    ensures |r| == if Count(t.auditLogs, AuditMatchesIn(f)) < Take(limit)
                   then Count(t.auditLogs, AuditMatchesIn(f)) else Take(limit)
    ensures forall x :: x in r ==> x in t.auditLogs && AuditMatches(f, x)
    ensures multiset(r) <= multiset(Filter(t.auditLogs, AuditMatchesIn(f)))
    ensures forall i, j :: 0 <= i < j < |r| ==> r[i].createdAt >= r[j].createdAt
    ensures forall i, k ::
              (0 <= i < |r| && 0 <= k < |t.auditLogs| && AuditMatches(f, t.auditLogs[k]) && t.auditLogs[k] !in r)
              ==> t.auditLogs[k].createdAt <= r[i].createdAt
    ensures Count(t.auditLogs, AuditMatchesIn(f)) <= Take(limit) ==>
              forall x :: x in t.auditLogs && AuditMatches(f, x) ==> x in r
  {
    assert TotalPreorder(AuditNewestFirst);
    var r := Top(t.auditLogs, AuditMatchesIn(f), AuditNewestFirst, Take(limit));
    forall i, k | 0 <= i < |r| && 0 <= k < |t.auditLogs| && AuditMatches(f, t.auditLogs[k]) && t.auditLogs[k] !in r
      ensures t.auditLogs[k].createdAt <= r[i].createdAt
    {
      assert r[i] in r;
      assert AuditMatchesIn(f)(t.auditLogs[k]);
    }
    r
  }

  /** An absent limit and a zero limit both list up to 100 entries. */
  lemma ZeroLimitIsDefault(t: Tables, f: AuditFilters)
    ensures GetAuditLogs(t, f, Some(0)) == GetAuditLogs(t, f, None) == GetAuditLogs(t, f, Some(DefaultAuditLimit))
  {
  }
}
