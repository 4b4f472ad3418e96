/**
 * The MySQL tables behind the PHP models, held in memory: `users`,
 * `portfolio_templates`, and the four child tables `skills`, `experience`,
 * `education` and `projects` whose rows belong to one user through
 * `user_id`.  Each child table is a `ChildTable`: the Skill, Experience,
 * Education and Project models are one INSERT and one
 * `DELETE … WHERE user_id = ?` each, modelled once here.
 */
module Store {
  import opened Wrappers

  /** A `users` row; `password` is the stored hash, and is None once a controller has unset it. */
  datatype UserRow = UserRow(
    id: nat, full_name: string, email: string, password: Option<string>, profession: string,
    phone: string, location: string, website: string, profile_photo: string, summary: string)

  /** A row of a child table: its AUTO_INCREMENT id, its owner, and its other columns. */
  datatype Row<D> = Row(id: nat, user_id: nat, data: D)

  datatype SkillData = SkillData(skill_name: string, skill_type: string, proficiency_level: int)

  /** `end_date` NULL means the position is ongoing. */
  datatype ExperienceData = ExperienceData(
    job_title: string, company: string, start_date: string, end_date: Option<string>,
    is_current: bool, description: string)

  datatype EducationData = EducationData(
    degree: string, institution: string, start_date: string, end_date: Option<string>,
    grade: string, location: string)

  datatype ProjectData = ProjectData(
    project_name: string, project_url: Option<string>, technologies: string, duration: string,
    description: string, project_image: Option<string>)

  type SkillRow = Row<SkillData>
  type ExperienceRow = Row<ExperienceData>
  type EducationRow = Row<EducationData>
  type ProjectRow = Row<ProjectData>

  /** A `portfolio_templates` row; `is_active` is the TINYINT flag, active when 1. */
  datatype TemplateRow = TemplateRow(
    id: nat, profession: string, template_name: string, template_data: string, is_active: int)

  /** What `getCompleteProfile` assembles: the users row plus its four child lists. */
  datatype Profile = Profile(
    user: UserRow, skills: seq<SkillRow>, experience: seq<ExperienceRow>,
    education: seq<EducationRow>, projects: seq<ProjectRow>)

  /** Stand-in for `password_hash($p, PASSWORD_DEFAULT)`: never the plaintext itself. */
  function PasswordHash(plain: string): (h: string)
    ensures h != plain
  {
    "$2y$" + plain
  }

  /** Stand-in for `password_verify($p, $stored)`; a NULL hash never verifies. */
  predicate PasswordVerify(plain: string, stored: Option<string>) {
    stored.Some? && stored.value == PasswordHash(plain)
  }

  /** The rows of user `u`, in table order (`WHERE user_id = u`). */
  function OwnedBy<D(!new)>(rows: seq<Row<D>>, u: nat): (r: seq<Row<D>>)
    ensures |r| <= |rows|
  {
    if rows == [] then []
    else OwnedBy(rows[..|rows| - 1], u) + (if rows[|rows| - 1].user_id == u then [rows[|rows| - 1]] else [])
  }

  /** The rows of every other user, in table order (what `DELETE … WHERE user_id = u` leaves). */
  function Others<D(!new)>(rows: seq<Row<D>>, u: nat): (r: seq<Row<D>>)
    ensures |r| <= |rows|
  {
    if rows == [] then []
    else Others(rows[..|rows| - 1], u) + (if rows[|rows| - 1].user_id != u then [rows[|rows| - 1]] else [])
  }

  /** `OwnedBy` keeps exactly the rows of `u`. */
  lemma {:induction false} OwnedByMembers<D(!new)>(rows: seq<Row<D>>, u: nat)
    ensures forall x :: x in OwnedBy(rows, u) <==> x in rows && x.user_id == u
  {
    if rows != [] {
      var init := rows[..|rows| - 1];
      OwnedByMembers(init, u);
      assert rows == init + [rows[|rows| - 1]];
    }
  }

  /** `Others` keeps exactly the rows of every user but `u`. */
  lemma {:induction false} OthersMembers<D(!new)>(rows: seq<Row<D>>, u: nat)
    ensures forall x :: x in Others(rows, u) <==> x in rows && x.user_id != u
  {
    if rows != [] {
      var init := rows[..|rows| - 1];
      OthersMembers(init, u);
      assert rows == init + [rows[|rows| - 1]];
    }
  }

  /** The non-key columns of the rows, in order. */
  function DataOf<D>(rows: seq<Row<D>>): (r: seq<D>)
    ensures |r| == |rows|
  {
    if rows == [] then [] else DataOf(rows[..|rows| - 1]) + [rows[|rows| - 1].data]
  }

  lemma {:induction false} OwnedByConcat<D(!new)>(a: seq<Row<D>>, b: seq<Row<D>>, u: nat)
    ensures OwnedBy(a + b, u) == OwnedBy(a, u) + OwnedBy(b, u)
    decreases |b|
  {
    if b == [] {
      assert a + b == a;
    } else {
      var b' := b[..|b| - 1];
      assert (a + b)[..|a + b| - 1] == a + b';
      OwnedByConcat(a, b', u);
    }
  }

  lemma {:induction false} OthersConcat<D(!new)>(a: seq<Row<D>>, b: seq<Row<D>>, u: nat)
    ensures Others(a + b, u) == Others(a, u) + Others(b, u)
    decreases |b|
  {
    if b == [] {
      assert a + b == a;
    } else {
      var b' := b[..|b| - 1];
      assert (a + b)[..|a + b| - 1] == a + b';
      OthersConcat(a, b', u);
    }
  }

  lemma {:induction false} DataOfConcat<D>(a: seq<Row<D>>, b: seq<Row<D>>)
    ensures DataOf(a + b) == DataOf(a) + DataOf(b)
    decreases |b|
  {
    if b == [] {
      assert a + b == a;
    } else {
      var b' := b[..|b| - 1];
      assert (a + b)[..|a + b| - 1] == a + b';
      DataOfConcat(a, b');
    }
  }

  /** Appending a row of user `u` adds its data to `u`'s rows and leaves the other users' rows alone. */
  lemma AppendOwned<D(!new)>(rows: seq<Row<D>>, row: Row<D>, u: nat)
    requires row.user_id == u
    ensures DataOf(OwnedBy(rows + [row], u)) == DataOf(OwnedBy(rows, u)) + [row.data]
    ensures Others(rows + [row], u) == Others(rows, u)
  {
    assert (rows + [row])[..|rows|] == rows;
    assert OwnedBy(rows + [row], u) == OwnedBy(rows, u) + [row];
    DataOfConcat(OwnedBy(rows, u), [row]);
    assert [row][..0] == [];
  }

  /** Once user `u`'s rows are deleted, deleting them again changes nothing and `u` owns no row. */
  lemma {:induction false} OthersOwnNothing<D(!new)>(rows: seq<Row<D>>, u: nat)
    ensures OwnedBy(Others(rows, u), u) == []
    ensures Others(Others(rows, u), u) == Others(rows, u)
  {
    if rows != [] {
      var init, last := rows[..|rows| - 1], rows[|rows| - 1];
      OthersOwnNothing(init, u);
      var kept := if last.user_id != u then [last] else [];
      assert Others(rows, u) == Others(init, u) + kept;
      OwnedByConcat(Others(init, u), kept, u);
      OthersConcat(Others(init, u), kept, u);
      if kept != [] {
        assert kept[..0] == [];
      }
    }
  }

  /** Ids grow strictly along the table, as AUTO_INCREMENT hands them out. */
  predicate IdsIncreasing<D>(rows: seq<Row<D>>) {
    forall i, j :: 0 <= i < j < |rows| ==> rows[i].id < rows[j].id
  }

  /** The other users' rows of a table keep increasing ids. */
  lemma {:induction false} OthersIdsIncreasing<D(!new)>(rows: seq<Row<D>>, u: nat)
    requires IdsIncreasing(rows)
    ensures IdsIncreasing(Others(rows, u))
  {
    if rows != [] {
      var init, last := rows[..|rows| - 1], rows[|rows| - 1];
      OthersIdsIncreasing(init, u);
      OthersMembers(init, u);
      var r := Others(rows, u);
      forall i, j | 0 <= i < j < |r| ensures r[i].id < r[j].id {
        if last.user_id != u && j == |r| - 1 {
          assert r[i] in Others(init, u);
          assert r[i] in init;
        }
      }
    }
  }

  /**
   * One child table with its AUTO_INCREMENT counter.  `Insert` is
   * `Skill::create()` (and its three siblings); `DeleteByUserId` is
   * `Skill::deleteByUserId()`.
   */
  class ChildTable<D(!new)> {
    var rows: seq<Row<D>>
    var nextId: nat

    ghost predicate Valid()
      reads this
    {
      0 < nextId && IdsIncreasing(rows) && (forall i :: 0 <= i < |rows| ==> 0 < rows[i].id < nextId)
    }

    constructor ()
      ensures Valid() && rows == [] && nextId == 1
    {
      rows := [];
      nextId := 1;
    }

    /** Appends exactly one row for `userId`, with a fresh id. */
    method Insert(userId: nat, data: D)
      requires Valid()
      modifies this
      ensures Valid()
      ensures rows == old(rows) + [Row(old(nextId), userId, data)]
      ensures nextId == old(nextId) + 1
    {
      var row := Row(nextId, userId, data);
      rows := rows + [row];
      nextId := nextId + 1;
    }

    /** Removes every row of `userId` and no other row. */
    method DeleteByUserId(userId: nat)
      requires Valid()
      modifies this
      ensures Valid()
      ensures rows == Others(old(rows), userId)
      ensures nextId == old(nextId)
      ensures OwnedBy(rows, userId) == [] && Others(rows, userId) == Others(old(rows), userId)
    {
      OthersIdsIncreasing(rows, userId);
      OthersOwnNothing(rows, userId);
      OthersMembers(rows, userId);
      var kept := Others(rows, userId);
      forall i | 0 <= i < |kept| ensures 0 < kept[i].id < nextId {
        assert kept[i] in rows;
      }
      rows := kept;
    }
  }

  /** All tables of the `portfolio_system` database that the PHP models use. */
  class Database {
    var users: seq<UserRow>
    var nextUserId: nat
    var templates: seq<TemplateRow>
    var nextTemplateId: nat
    const skills: ChildTable<SkillData>
    const experience: ChildTable<ExperienceData>
    const education: ChildTable<EducationData>
    const projects: ChildTable<ProjectData>

    /** The schema's keys: ids are AUTO_INCREMENT (so unique), e-mail addresses are unique,
        and every stored user has a password hash. */
    ghost predicate Valid()
      reads this, skills, experience, education, projects
    {
      && KeysValid()
      && skills.Valid() && experience.Valid() && education.Valid() && projects.Valid()
      && Distinct()
    }

    /** The keys of the two tables held in this object. */
    ghost predicate KeysValid()
      reads this
    {
      && 0 < nextUserId && 0 < nextTemplateId
      && (forall i, j :: 0 <= i < j < |users| ==> users[i].id < users[j].id)
      && (forall i :: 0 <= i < |users| ==> 0 < users[i].id < nextUserId && users[i].password.Some?)
      && (forall i, j :: 0 <= i < j < |users| ==> users[i].email != users[j].email)
      && (forall i, j :: 0 <= i < j < |templates| ==> templates[i].id < templates[j].id)
      && (forall i :: 0 <= i < |templates| ==> 0 < templates[i].id < nextTemplateId)
    }

    /** The four child tables are four different objects. */
    predicate Distinct()
      reads this
    {
      var s: object, x: object, e: object, p: object := skills, experience, education, projects;
      s != x && s != e && s != p && x != e && x != p && e != p
    }

    constructor ()
      ensures Valid()
      ensures users == [] && templates == []
      ensures skills.rows == [] && experience.rows == [] && education.rows == [] && projects.rows == []
    {
      users, nextUserId := [], 1;
      templates, nextTemplateId := [], 1;
      skills := new ChildTable();
      experience := new ChildTable();
      education := new ChildTable();
      projects := new ChildTable();
    }
  }
}
