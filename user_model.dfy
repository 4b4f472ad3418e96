/**
 * The `User` model (api/models/User.php) over the in-memory tables: the
 * two lookups, `create` and `update` on the users table, the password
 * check, and `getCompleteProfile`, which assembles a user's row and child
 * rows.
 */
module UserModel {
  import opened Wrappers
  import opened Store
  import opened Ordering

  /** `SELECT * FROM users WHERE email = :email LIMIT 1`: the first row with that e-mail address, or nothing. */
  function GetByEmail(users: seq<UserRow>, email: string): (r: Option<UserRow>)
    ensures r.None? <==> forall u :: u in users ==> u.email != email
    ensures r.Some? ==> r.value in users && r.value.email == email
  {
    if users == [] then None
    else if users[0].email == email then Some(users[0])
    else
      assert forall u :: u in users ==> u == users[0] || u in users[1..];
      GetByEmail(users[1..], email)
  }

  /** `SELECT * FROM users WHERE id = :id LIMIT 1`: the first row with that id, or nothing. */
  function GetById(users: seq<UserRow>, id: nat): (r: Option<UserRow>)
    ensures r.None? <==> forall u :: u in users ==> u.id != id
    ensures r.Some? ==> r.value in users && r.value.id == id
  {
    if users == [] then None
    else if users[0].id == id then Some(users[0])
    else
      assert forall u :: u in users ==> u == users[0] || u in users[1..];
      GetById(users[1..], id)
  }

  /** The seven columns `update()` writes. */
  datatype ProfileColumns = ProfileColumns(
    full_name: string, profession: string, phone: string, location: string,
    website: string, profile_photo: string, summary: string)

  /** `row` with its seven profile columns replaced by `c`. */
  function WithColumns(row: UserRow, c: ProfileColumns): (r: UserRow)
    ensures r.id == row.id && r.email == row.email && r.password == row.password
    ensures r.full_name == c.full_name && r.profession == c.profession && r.summary == c.summary
    ensures r.phone == c.phone && r.location == c.location && r.website == c.website
    ensures r.profile_photo == c.profile_photo
  {
    row.(full_name := c.full_name, profession := c.profession, phone := c.phone, location := c.location,
         website := c.website, profile_photo := c.profile_photo, summary := c.summary)
  }

  /** `UPDATE users SET <the seven columns> WHERE id = :id`. */
  function UpdateWhere(users: seq<UserRow>, id: nat, c: ProfileColumns): seq<UserRow> {
    seq(|users|, i requires 0 <= i < |users| => if users[i].id == id then WithColumns(users[i], c) else users[i])
  }

  /**
   * The UPDATE touches only the rows with that id, gives them the new
   * columns, and never changes a row's id, e-mail address or password
   * hash, so the table keeps its keys.
   */
  lemma UpdateWhereKeepsKeys(users: seq<UserRow>, id: nat, c: ProfileColumns)
    ensures |UpdateWhere(users, id, c)| == |users|
    ensures forall i :: 0 <= i < |users| && users[i].id != id ==> UpdateWhere(users, id, c)[i] == users[i]
    ensures forall i :: 0 <= i < |users| && users[i].id == id ==> UpdateWhere(users, id, c)[i] == WithColumns(users[i], c)
    ensures forall i :: 0 <= i < |users| ==>
      UpdateWhere(users, id, c)[i].id == users[i].id && UpdateWhere(users, id, c)[i].email == users[i].email &&
      UpdateWhere(users, id, c)[i].password == users[i].password
  {
  }

  /** `password_verify($password, $hashedPassword)`. */
  predicate VerifyPassword(password: string, hashed: Option<string>) {
    PasswordVerify(password, hashed)
  }

  /** `ORDER BY start_date DESC` on experience rows; dates are `YYYY-MM-DD` text. */
  predicate ExperienceLater(a: ExperienceRow, b: ExperienceRow) {
    StrLe(b.data.start_date, a.data.start_date)
  }

  /** `ORDER BY start_date DESC` on education rows. */
  predicate EducationLater(a: EducationRow, b: EducationRow) {
    StrLe(b.data.start_date, a.data.start_date)
  }

  /** `ORDER BY id DESC` on project rows. */
  predicate ProjectNewer(a: ProjectRow, b: ProjectRow) {
    a.id >= b.id
  }

  lemma OrdersTotal()
    ensures Total(ExperienceLater) && Total(EducationLater) && Total(ProjectNewer)
  {
    forall a: ExperienceRow, b: ExperienceRow ensures ExperienceLater(a, b) || ExperienceLater(b, a) {
      StrLeTotal(a.data.start_date, b.data.start_date);
    }
    forall a: EducationRow, b: EducationRow ensures EducationLater(a, b) || EducationLater(b, a) {
      StrLeTotal(a.data.start_date, b.data.start_date);
    }
  }

  /** A user's rows keep the table's increasing ids. */
  lemma {:induction false} OwnedByIdsIncreasing<D(!new)>(rows: seq<Row<D>>, u: nat)
    requires IdsIncreasing(rows)
    ensures IdsIncreasing(OwnedBy(rows, u))
  {
    if rows != [] {
      var init, last := rows[..|rows| - 1], rows[|rows| - 1];
      OwnedByIdsIncreasing(init, u);
      OwnedByMembers(init, u);
      var r := OwnedBy(rows, u);
      forall i, j | 0 <= i < j < |r| ensures r[i].id < r[j].id {
        if last.user_id == u && j == |r| - 1 {
          assert r[i] in OwnedBy(init, u);
          assert r[i] in init;
        }
      }
    }
  }

  /** With increasing ids, no row occurs twice. */
  lemma {:induction false} IdsIncreasingOnce<D>(rows: seq<Row<D>>, x: Row<D>)
    requires IdsIncreasing(rows)
    ensures multiset(rows)[x] <= 1
  {
    if rows != [] {
      var init, last := rows[..|rows| - 1], rows[|rows| - 1];
      assert rows == init + [last];
      IdsIncreasingOnce(init, x);
      if x == last {
        assert x !in init;
      }
    }
  }

  /**
   * Sorted by `id DESC`, the rows of a table with increasing ids come out
   * with strictly decreasing ids.
   */
  lemma StrictlyNewer(s: seq<ProjectRow>, t: seq<ProjectRow>)
    requires multiset(s) == multiset(t) && IdsIncreasing(t) && SortedBy(s, ProjectNewer)
    ensures forall i :: 0 <= i < |s| - 1 ==> s[i].id > s[i + 1].id
  {
    forall i | 0 <= i < |s| - 1 ensures s[i].id > s[i + 1].id {
      if s[i].id == s[i + 1].id {
        assert s[i] in multiset(t) && s[i + 1] in multiset(t);
        if s[i] == s[i + 1] {
          assert s == s[..i] + [s[i], s[i + 1]] + s[i + 2..];
          assert multiset(s)[s[i]] >= 2;
          IdsIncreasingOnce(t, s[i]);
        }
      }
    }
  }

  /**
   * `User`: the object's public fields are the row `create` inserts and
   * `update` writes; `db` is the connection's tables.
   */
  class User {
    const db: Database
    var id: nat
    var full_name: string
    var email: string
    var password: string
    var profession: string
    var phone: string
    var location: string
    var website: string
    var profile_photo: string
    var summary: string

    constructor (db: Database)
      ensures this.db == db
    {
      this.db := db;
      id := 0;
      full_name, email, password, profession := "", "", "", "";
      phone, location, website, profile_photo, summary := "", "", "", "", "";
    }

    /** Sets the nine properties a caller fills in before `create()`. */
    method SetProperties(full_name: string, email: string, password: string, profession: string,
                         phone: string, location: string, website: string, profile_photo: string, summary: string)
      modifies this
      ensures this.full_name == full_name && this.email == email && this.password == password && this.profession == profession
      ensures this.phone == phone && this.location == location && this.website == website
      ensures this.profile_photo == profile_photo && this.summary == summary
    {
      this.full_name, this.email, this.password, this.profession := full_name, email, password, profession;
      this.phone, this.location, this.website := phone, location, website;
      this.profile_photo, this.summary := profile_photo, summary;
    }

    /** The row `create` inserts under `newId`. */
    function NewRow(newId: nat): (r: UserRow)
      reads this
      ensures r.id == newId && r.email == email && r.password == Some(password)
    {
      UserRow(newId, full_name, email, Some(password), profession, phone, location, website, profile_photo, summary)
    }

    /**
     * `create()`: replaces `password` by its hash, then inserts the object
     * as a new row and returns the new id.  An e-mail address already in
     * the table violates its unique key, and a failing statement
     * (`sqlError`) throws; either way no row is added.
     */
    method Create(sqlError: Option<string>) returns (r: Response<nat>)
      requires db.Valid()
      modifies this`password, db`users, db`nextUserId
      ensures db.Valid()
      ensures password == PasswordHash(old(password)) && password != old(password)
      ensures r.Success? <==> sqlError.None? && GetByEmail(old(db.users), email).None?
      ensures r.Success? ==> r.body == old(db.nextUserId) && db.nextUserId == old(db.nextUserId) + 1
      ensures r.Success? ==> db.users == old(db.users) + [NewRow(r.body)]
      ensures r.Success? ==> VerifyPassword(old(password), db.users[|db.users| - 1].password)
      ensures r.Failure? ==> db.users == old(db.users) && db.nextUserId == old(db.nextUserId)
      ensures r.Failure? && sqlError.None? ==> r.message == DuplicateEmail(email)
      ensures r.Failure? && GetByEmail(old(db.users), email).None? ==> r == Failure(sqlError.value)
    {
      password := PasswordHash(password);
      if GetByEmail(db.users, email).Some? {
        return Failure(DuplicateEmail(email));
      }
      if sqlError.Some? {
        return Failure(sqlError.value);
      }
      var newId := db.nextUserId;
      db.users := db.users + [NewRow(newId)];
      db.nextUserId := db.nextUserId + 1;
      r := Success(newId);
    }

    /** The seven profile columns the object holds, as `update()` writes them. */
    function Columns(): (c: ProfileColumns)
      reads this
      ensures c.full_name == full_name && c.profession == profession && c.summary == summary
      ensures c.phone == phone && c.location == location && c.website == website
      ensures c.profile_photo == profile_photo
    {
      ProfileColumns(full_name, profession, phone, location, website, profile_photo, summary)
    }

    /**
     * `update()`: rewrites the seven profile columns of the rows whose id
     * is the object's `id` with the object's values.
     */
    method Update(sqlError: Option<string>) returns (r: Response<bool>)
      requires db.Valid()
      modifies db`users
      ensures db.Valid()
      ensures sqlError.Some? ==> r == Failure(sqlError.value) && db.users == old(db.users)
      ensures sqlError.None? ==> r == Success(true) && db.users == UpdateWhere(old(db.users), id, Columns())
    {
      if sqlError.Some? {
        return Failure(sqlError.value);
      }
      UpdateWhereKeepsKeys(db.users, id, Columns());
      db.users := UpdateWhere(db.users, id, Columns());
      r := Success(true);
    }

    /**
     * `getCompleteProfile($id)`: nothing when no user has that id;
     * otherwise that user's row with their skills (in no promised order),
     * experience and education by start date, newest first, and projects
     * by id, newest first.
     */
    function GetCompleteProfile(userId: nat): (r: Option<Profile>)
      reads db, db.skills, db.experience, db.education, db.projects
      ensures r.None? <==> forall u :: u in db.users ==> u.id != userId
      ensures r.Some? ==> r.value.user in db.users && r.value.user.id == userId
      ensures r.Some? ==> multiset(r.value.skills) == multiset(OwnedBy(db.skills.rows, userId))
      ensures r.Some? ==> multiset(r.value.experience) == multiset(OwnedBy(db.experience.rows, userId))
      ensures r.Some? ==> multiset(r.value.education) == multiset(OwnedBy(db.education.rows, userId))
      ensures r.Some? ==> multiset(r.value.projects) == multiset(OwnedBy(db.projects.rows, userId))
      ensures r.Some? ==> SortedBy(r.value.experience, ExperienceLater) && SortedBy(r.value.education, EducationLater)
      ensures r.Some? ==> SortedBy(r.value.projects, ProjectNewer)
    {
      OrdersTotal();
      match GetById(db.users, userId)
      case None => None
      case Some(user) =>
        Some(Profile(
          user,
          OwnedBy(db.skills.rows, userId),
          SortBy(OwnedBy(db.experience.rows, userId), ExperienceLater),
          SortBy(OwnedBy(db.education.rows, userId), EducationLater),
          SortBy(OwnedBy(db.projects.rows, userId), ProjectNewer)))
    }

    /** Each child list holds exactly the user's rows of that table. */
    lemma ProfileRowsOwned(userId: nat)
      requires GetCompleteProfile(userId).Some?
      ensures forall x :: x in GetCompleteProfile(userId).value.skills <==> x in db.skills.rows && x.user_id == userId
      ensures forall x :: x in GetCompleteProfile(userId).value.experience <==> x in db.experience.rows && x.user_id == userId
      ensures forall x :: x in GetCompleteProfile(userId).value.education <==> x in db.education.rows && x.user_id == userId
      ensures forall x :: x in GetCompleteProfile(userId).value.projects <==> x in db.projects.rows && x.user_id == userId
    {
      var p := GetCompleteProfile(userId).value;
      OwnedByMembers(db.skills.rows, userId);
      OwnedByMembers(db.experience.rows, userId);
      OwnedByMembers(db.education.rows, userId);
      OwnedByMembers(db.projects.rows, userId);
      assert forall x :: x in p.experience <==> x in multiset(p.experience);
      assert forall x :: x in p.education <==> x in multiset(p.education);
      assert forall x :: x in p.projects <==> x in multiset(p.projects);
      assert forall x :: x in OwnedBy(db.experience.rows, userId) <==> x in multiset(OwnedBy(db.experience.rows, userId));
      assert forall x :: x in OwnedBy(db.education.rows, userId) <==> x in multiset(OwnedBy(db.education.rows, userId));
      assert forall x :: x in OwnedBy(db.projects.rows, userId) <==> x in multiset(OwnedBy(db.projects.rows, userId));
    }

    /** With the table's increasing ids, the projects come out with strictly decreasing ids. */
    lemma ProjectsNewestFirst(userId: nat)
      requires db.Valid() && GetCompleteProfile(userId).Some?
      ensures var ps := GetCompleteProfile(userId).value.projects;
        forall i :: 0 <= i < |ps| - 1 ==> ps[i].id > ps[i + 1].id
    {
      OwnedByIdsIncreasing(db.projects.rows, userId);
      StrictlyNewer(GetCompleteProfile(userId).value.projects, OwnedBy(db.projects.rows, userId));
    }

    /** The base row is the table's row with that id: ids are unique. */
    lemma ProfileUserIsTheRow(userId: nat, i: nat)
      requires db.Valid() && i < |db.users| && db.users[i].id == userId
      ensures GetCompleteProfile(userId) != None && GetCompleteProfile(userId).value.user == db.users[i]
    {
      var u := GetCompleteProfile(userId).value.user;
      var j :| 0 <= j < |db.users| && db.users[j] == u;
      assert i == j;
    }
  }

  const DuplicatePrefix := "SQLSTATE[23000]: Integrity constraint violation: 1062 Duplicate entry '"

  /**
   * The message of the exception MySQL raises for a second row with the
   * same e-mail address: it quotes the duplicate address, then names the
   * unique key.
   */
  function DuplicateEmail(email: string): (m: string)
    ensures DuplicatePrefix + email <= m
  {
    DuplicatePrefix + email + "' for key 'users.email'"
  }
}
