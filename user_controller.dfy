/**
 * `UserController` (api/controllers/UserController.php) on its MySQL path:
 * registration, login, profile read and update, and `saveCompleteProfile`,
 * which replaces a user's skills, experience, education and projects.
 *
 * A statement that throws is modelled by an oracle: `sqlError` for the
 * single INSERT or UPDATE of a call, and a `Fault` naming the one child
 * statement (counted from 0 across the deletes and inserts of
 * `saveCompleteProfile`) that throws, with its message.
 */
module UserControl {
  import opened Wrappers
  import opened Store
  import opened UserModel

  const EmailTaken := "Email already exists"
  const InvalidCredentials := "Invalid credentials"
  const UserNotFound := "User not found"
  const ProfileUpdated := "Profile updated successfully"
  const ProfileSaved := "Profile saved successfully"

  /** The request body of `register`; a None field is absent or null, and `?? ''` applies. */
  datatype Registration = Registration(
    full_name: string, email: string, password: string, profession: string,
    phone: Option<string>, location: Option<string>, website: Option<string>,
    profile_photo: Option<string>, summary: Option<string>)

  /** The profile columns of the request body of `updateProfile` and `saveCompleteProfile`. */
  datatype ProfileFields = ProfileFields(
    full_name: string, profession: string,
    phone: Option<string>, location: Option<string>, website: Option<string>,
    profile_photo: Option<string>, summary: Option<string>)

  /** One entry of a skill group; `level` None is absent or null (`?? 50`). */
  datatype SkillItem = SkillItem(name: string, kind: string, level: Option<int>)

  /** The value under one key of `skills`: a list of entries, or anything that is not an array. */
  datatype SkillGroup = Items(items: seq<SkillItem>) | NotAnArray

  datatype ExperienceItem = ExperienceItem(
    title: string, company: string, start_date: string, end_date: Option<string>,
    is_current: Option<bool>, description: string)

  datatype EducationItem = EducationItem(
    degree: string, institution: string, start_date: string, end_date: Option<string>,
    grade: string, location: string)

  datatype ProjectItem = ProjectItem(
    name: string, url: Option<string>, technologies: string, duration: string,
    description: string, image: Option<string>)

  /** The request body of `saveCompleteProfile`; a None list is not set (`isset` fails). */
  datatype SavePayload = SavePayload(
    fields: ProfileFields,
    skills: Option<seq<(string, SkillGroup)>>,
    experience: Option<seq<ExperienceItem>>,
    education: Option<seq<EducationItem>>,
    projects: Option<seq<ProjectItem>>)

  /** The child statement numbered `step` throws `message`. */
  datatype Fault = Fault(step: nat, message: string)

  predicate FailsAt(fault: Option<Fault>, step: nat) {
    fault.Some? && fault.value.step == step
  }

  /** No statement numbered in [lo, hi) throws. */
  predicate NoFaultIn(fault: Option<Fault>, lo: nat, hi: nat) {
    !(fault.Some? && lo <= fault.value.step < hi)
  }

  function SkillOf(item: SkillItem): (d: SkillData)
    ensures d.skill_name == item.name && d.skill_type == item.kind
    ensures d.proficiency_level == if item.level.Some? then item.level.value else 50
  {
    SkillData(item.name, item.kind, item.level.GetOr(50))
  }

  /** The rows one group contributes: one per entry of an array, none otherwise. */
  function GroupSkills(g: SkillGroup): (r: seq<SkillData>)
    ensures g.NotAnArray? ==> r == []
    ensures g.Items? ==> |r| == |g.items| && forall j :: 0 <= j < |r| ==> r[j] == SkillOf(g.items[j])
  {
    if g.NotAnArray? then [] else seq(|g.items|, j requires 0 <= j < |g.items| => SkillOf(g.items[j]))
  }

  /** The skill rows `saveCompleteProfile` stores, group after group, entry after entry. */
  function FlattenSkills(groups: seq<(string, SkillGroup)>): (r: seq<SkillData>)
  {
    if groups == [] then [] else FlattenSkills(groups[..|groups| - 1]) + GroupSkills(groups[|groups| - 1].1)
  }

  /** The group keys play no part: only the groups' contents, in order, are stored. */
  lemma {:induction false} SkillKeysIgnored(a: seq<(string, SkillGroup)>, b: seq<(string, SkillGroup)>)
    requires |a| == |b| && forall i :: 0 <= i < |a| ==> a[i].1 == b[i].1
    ensures FlattenSkills(a) == FlattenSkills(b)
  {
    if a != [] {
      SkillKeysIgnored(a[..|a| - 1], b[..|b| - 1]);
    }
  }

  /**
   * Every stored skill comes from one entry of one array group, its type
   * from the entry's `type` and not from the group's key; and the number
   * stored is the number of entries in the array groups.
   */
  lemma {:induction false} FlattenedSkillsFromEntries(groups: seq<(string, SkillGroup)>)
    ensures forall d :: d in FlattenSkills(groups) ==>
      exists i, j :: 0 <= i < |groups| && groups[i].1.Items? && 0 <= j < |groups[i].1.items| && d == SkillOf(groups[i].1.items[j])
  {
    if groups != [] {
      var init := groups[..|groups| - 1];
      var last := |groups| - 1;
      FlattenedSkillsFromEntries(init);
      forall d | d in FlattenSkills(groups)
        ensures exists i, j :: 0 <= i < |groups| && groups[i].1.Items? && 0 <= j < |groups[i].1.items| && d == SkillOf(groups[i].1.items[j])
      {
        if d in FlattenSkills(init) {
          var i, j :| 0 <= i < |init| && init[i].1.Items? && 0 <= j < |init[i].1.items| && d == SkillOf(init[i].1.items[j]);
          assert groups[i] == init[i];
        } else {
          var k :| 0 <= k < |GroupSkills(groups[last].1)| && GroupSkills(groups[last].1)[k] == d;
        }
      }
    }
  }

  function ExperienceOf(item: ExperienceItem): (d: ExperienceData)
    ensures d.job_title == item.title && d.company == item.company
    ensures d.start_date == item.start_date && d.end_date == item.end_date
    ensures d.description == item.description
    ensures d.is_current == (item.is_current.Some? && item.is_current.value)
  {
    ExperienceData(item.title, item.company, item.start_date, item.end_date, item.is_current.GetOr(false), item.description)
  }

  function EducationOf(item: EducationItem): (d: EducationData)
    ensures d.degree == item.degree && d.institution == item.institution
    ensures d.start_date == item.start_date && d.end_date == item.end_date
    ensures d.grade == item.grade && d.location == item.location
  {
    EducationData(item.degree, item.institution, item.start_date, item.end_date, item.grade, item.location)
  }

  function ProjectOf(item: ProjectItem): (d: ProjectData)
    ensures d.project_name == item.name && d.project_url == item.url && d.project_image == item.image
    ensures d.technologies == item.technologies && d.duration == item.duration && d.description == item.description
  {
    ProjectData(item.name, item.url, item.technologies, item.duration, item.description, item.image)
  }

  function MapSeq<X, Y>(xs: seq<X>, f: X -> Y): (r: seq<Y>)
    ensures |r| == |xs| && forall i :: 0 <= i < |xs| ==> r[i] == f(xs[i])
  {
    seq(|xs|, i requires 0 <= i < |xs| => f(xs[i]))
  }

  /**
   * What a `saveCompleteProfile` section promises about one child table:
   * other users' rows are untouched, and when its key is set, the user's
   * rows hold exactly `stored`, in order; when it is not, nothing changes.
   */
  ghost predicate Replaced<D(!new)>(rows: seq<Row<D>>, before: seq<Row<D>>, userId: nat, stored: Option<seq<D>>) {
    && Others(rows, userId) == Others(before, userId)
    && (stored.Some? ==> DataOf(OwnedBy(rows, userId)) == stored.value)
    && (stored.None? ==> rows == before)
  }

  /** `deleteByUserId($userId)` as statement number `step`. */
  method DeleteStep<D(!new)>(table: ChildTable<D>, userId: nat, fault: Option<Fault>, step: nat) returns (error: Option<string>)
    requires table.Valid()
    modifies table
    ensures table.Valid()
    ensures Others(table.rows, userId) == Others(old(table.rows), userId)
    ensures error.Some? <==> FailsAt(fault, step)
    ensures error.Some? ==> error.value == fault.value.message && table.rows == old(table.rows)
    ensures error.None? ==> OwnedBy(table.rows, userId) == []
  {
    if FailsAt(fault, step) {
      return Some(fault.value.message);
    }
    table.DeleteByUserId(userId);
    error := None;
  }

  /** One `create()`: the row joins the end of the user's rows; other users' rows stay. */
  method InsertOwned<D(!new)>(table: ChildTable<D>, userId: nat, d: D)
    requires table.Valid()
    modifies table
    ensures table.Valid()
    ensures Others(table.rows, userId) == Others(old(table.rows), userId)
    ensures DataOf(OwnedBy(table.rows, userId)) == DataOf(OwnedBy(old(table.rows), userId)) + [d]
  {
    AppendOwned(table.rows, Row(table.nextId, userId, d), userId);
    table.Insert(userId, d);
  }

  lemma SnocPrefix<D>(a: seq<D>, items: seq<D>, k: nat)
    requires k < |items|
    ensures a + items[..k] + [items[k]] == a + items[..k + 1]
  {
    assert items[..k + 1] == items[..k] + [items[k]];
  }

  /**
   * The inner `foreach`: one `create()` per item, numbered from `step`.
   * Stops at the first statement that throws.
   */
  method InsertAll<D(!new)>(table: ChildTable<D>, userId: nat, items: seq<D>, fault: Option<Fault>, step: nat)
      returns (next: nat, error: Option<string>)
    requires table.Valid()
    modifies table
    ensures table.Valid()
    ensures Others(table.rows, userId) == Others(old(table.rows), userId)
    ensures error.Some? ==> fault.Some? && error.value == fault.value.message
    ensures error.Some? <==> !NoFaultIn(fault, step, step + |items|)
    ensures error.None? ==> next == step + |items|
    ensures error.None? ==> DataOf(OwnedBy(table.rows, userId)) == DataOf(OwnedBy(old(table.rows), userId)) + items
  {
    next := step;
    ghost var owned := DataOf(OwnedBy(table.rows, userId));
    for k := 0 to |items|
      invariant table.Valid()
      invariant next == step + k && NoFaultIn(fault, step, next)
      invariant Others(table.rows, userId) == Others(old(table.rows), userId)
      invariant DataOf(OwnedBy(table.rows, userId)) == owned + items[..k]
    {
      if FailsAt(fault, next) {
        return next, Some(fault.value.message);
      }
      InsertOwned(table, userId, items[k]);
      SnocPrefix(owned, items, k);
      next := next + 1;
    }
    assert items[..|items|] == items;
    error := None;
  }

  /** A section over a flat list: delete the user's rows, then insert one row per item. */
  method ReplaceRows<D(!new)>(table: ChildTable<D>, userId: nat, items: seq<D>, fault: Option<Fault>, step: nat)
      returns (next: nat, error: Option<string>)
    requires table.Valid()
    modifies table
    ensures table.Valid()
    ensures Others(table.rows, userId) == Others(old(table.rows), userId)
    ensures error.Some? ==> fault.Some? && error.value == fault.value.message
    ensures error.Some? <==> !NoFaultIn(fault, step, step + 1 + |items|)
    ensures error.None? ==> next == step + 1 + |items| && DataOf(OwnedBy(table.rows, userId)) == items
  {
    error := DeleteStep(table, userId, fault, step);
    if error.Some? {
      return step, error;
    }
    next, error := InsertAll(table, userId, items, fault, step + 1);
  }

  /** The skills section: delete, then the nested `foreach` over groups and their entries. */
  method ReplaceSkills(table: ChildTable<SkillData>, userId: nat, groups: seq<(string, SkillGroup)>, fault: Option<Fault>, step: nat)
      returns (next: nat, error: Option<string>)
    requires table.Valid()
    modifies table
    ensures table.Valid()
    ensures Others(table.rows, userId) == Others(old(table.rows), userId)
    ensures error.Some? ==> fault.Some? && error.value == fault.value.message
    ensures error.Some? ==> step <= fault.value.step < step + 1 + |FlattenSkills(groups)|
    ensures error.None? ==> next == step + 1 + |FlattenSkills(groups)| && NoFaultIn(fault, step, next)
    ensures error.None? ==> DataOf(OwnedBy(table.rows, userId)) == FlattenSkills(groups)
  {
    error := DeleteStep(table, userId, fault, step);
    if error.Some? {
      return step, error;
    }
    next := step + 1;
    ghost var total := FlattenSkills(groups);
    ghost var done: seq<SkillData> := [];
    ghost var others := Others(table.rows, userId);
    for g := 0 to |groups|
      invariant table.Valid() && error.None?
      invariant done == FlattenSkills(groups[..g]) && |done| <= |total|
      invariant next == step + 1 + |done| && NoFaultIn(fault, step, next)
      invariant Others(table.rows, userId) == others
      invariant DataOf(OwnedBy(table.rows, userId)) == done
    {
      FlattenSkillsSnoc(groups, g);
      FlattenSkillsGrows(groups, g + 1);
      ghost var from := next;
      next, error := InsertGroup(table, userId, groups[g].1, fault, next);
      if error.Some? {
        assert step <= from <= fault.value.step < step + 1 + |total|;
        return;
      }
      done := done + GroupSkills(groups[g].1);
    }
    assert groups[..|groups|] == groups;
    assert done == total;
  }

  /** One group of the skills `foreach`: its entries when it is an array, nothing otherwise. */
  method InsertGroup(table: ChildTable<SkillData>, userId: nat, group: SkillGroup, fault: Option<Fault>, step: nat)
      returns (next: nat, error: Option<string>)
    requires table.Valid()
    modifies table
    ensures table.Valid()
    ensures Others(table.rows, userId) == Others(old(table.rows), userId)
    ensures error.Some? ==> fault.Some? && error.value == fault.value.message && step <= fault.value.step < step + |GroupSkills(group)|
    ensures error.None? ==> next == step + |GroupSkills(group)| && NoFaultIn(fault, step, next)
    ensures error.None? ==> DataOf(OwnedBy(table.rows, userId)) == DataOf(OwnedBy(old(table.rows), userId)) + GroupSkills(group)
  {
    if group.NotAnArray? {
      assert DataOf(OwnedBy(table.rows, userId)) + [] == DataOf(OwnedBy(table.rows, userId));
      return step, None;
    }
    next, error := InsertAll(table, userId, GroupSkills(group), fault, step);
  }

  lemma FlattenSkillsSnoc(groups: seq<(string, SkillGroup)>, g: nat)
    requires g < |groups|
    ensures FlattenSkills(groups[..g + 1]) == FlattenSkills(groups[..g]) + GroupSkills(groups[g].1)
  {
    assert groups[..g + 1][..g] == groups[..g];
  }

  /** A prefix of the groups never stores more skills than the whole list. */
  lemma {:induction false} FlattenSkillsGrows(groups: seq<(string, SkillGroup)>, n: nat)
    requires n <= |groups|
    ensures |FlattenSkills(groups[..n])| <= |FlattenSkills(groups)|
    decreases |groups| - n
  {
    if n < |groups| {
      FlattenSkillsGrows(groups, n + 1);
      assert groups[..n + 1][..n] == groups[..n];
    } else {
      assert groups[..n] == groups;
    }
  }

  /** `UserController`: the `User` object it drives, over that object's connection. */
  class UserController {
    const user: User

    constructor (user: User)
      ensures this.user == user
    {
      this.user := user;
    }

    /**
     * `register($data)`: refuses an e-mail address already stored;
     * otherwise creates the user with the optional columns defaulting to
     * the empty string and returns the new id.  A statement that throws
     * returns its message.
     */
    method Register(data: Registration, sqlError: Option<string>) returns (r: Response<nat>)
      requires user.db.Valid()
      modifies user, user.db`users, user.db`nextUserId
      ensures user.db.Valid()
      ensures GetByEmail(old(user.db.users), data.email).Some? ==> r == Failure(EmailTaken)
      ensures r.Success? <==> GetByEmail(old(user.db.users), data.email).None? && sqlError.None?
      ensures r.Failure? ==> user.db.users == old(user.db.users)
      ensures r.Failure? && GetByEmail(old(user.db.users), data.email).None? ==> r.message == sqlError.value
      ensures r.Success? ==> r.body == old(user.db.nextUserId) && user.db.users == old(user.db.users) + [RegisteredRow(r.body, data)]
    {
      if GetByEmail(user.db.users, data.email).Some? {
        return Failure(EmailTaken);
      }
      user.SetProperties(data.full_name, data.email, data.password, data.profession, data.phone.GetOr(""),
        data.location.GetOr(""), data.website.GetOr(""), data.profile_photo.GetOr(""), data.summary.GetOr(""));
      r := user.Create(sqlError);
      if r.Success? {
        RegisteredRowOf(user.NewRow(r.body), r.body, data);
      }
    }

    /**
     * `login($email, $password)`: the stored row without its password
     * when the e-mail address is known and the password verifies against
     * its hash, "Invalid credentials" otherwise.
     */
    method Login(email: string, password: string) returns (r: Response<UserRow>)
      ensures r.Success? <==> GetByEmail(user.db.users, email).Some? && VerifyPassword(password, GetByEmail(user.db.users, email).value.password)
      ensures r.Success? ==> r.body == GetByEmail(user.db.users, email).value.(password := None)
      ensures r.Failure? ==> r.message == InvalidCredentials
    {
      var found := GetByEmail(user.db.users, email);
      if found.Some? && VerifyPassword(password, found.value.password) {
        return Success(found.value.(password := None));
      }
      r := Failure(InvalidCredentials);
    }

    /** `getProfile($userId)`: the complete profile without the password hash, or "User not found". */
    method GetProfile(userId: nat) returns (r: Response<Profile>)
      ensures r.Failure? <==> forall u :: u in user.db.users ==> u.id != userId
      ensures r.Failure? ==> r.message == UserNotFound
      ensures r.Success? ==> user.GetCompleteProfile(userId).Some?
      ensures r.Success? ==> r.body.user.password.None?
      ensures r.Success? ==>
        r.body == user.GetCompleteProfile(userId).value.(user := user.GetCompleteProfile(userId).value.user.(password := None))
    {
      var profile := user.GetCompleteProfile(userId);
      if profile.None? {
        return Failure(UserNotFound);
      }
      r := Success(profile.value.(user := profile.value.user.(password := None)));
    }

    /**
     * `updateProfile($userId, $data)`: writes the seven profile columns of
     * that user's row (the optional ones defaulting to the empty string)
     * and leaves every other row, and that row's e-mail and password,
     * alone.  A statement that throws returns its message.
     */
    method UpdateProfile(userId: nat, data: ProfileFields, sqlError: Option<string>) returns (r: Response<string>)
      requires user.db.Valid()
      modifies user, user.db`users
      ensures user.db.Valid()
      ensures sqlError.None? ==> r == Success(ProfileUpdated) && user.db.users == UpdateWhere(old(user.db.users), userId, ColumnsOf(data))
      ensures sqlError.Some? ==> r == Failure(sqlError.value) && user.db.users == old(user.db.users)
    {
      var db := user.db;
      ghost var before := db.users;
      var c := ColumnsOf(data);
      user.id, user.full_name, user.profession := userId, c.full_name, c.profession;
      user.phone, user.location, user.website := c.phone, c.location, c.website;
      user.profile_photo, user.summary := c.profile_photo, c.summary;
      assert user.Columns() == c && user.id == userId;
      assert db.users == before;
      var done := user.Update(sqlError);
      if done.Failure? {
        return Failure(done.message);
      }
      r := Success(ProfileUpdated);
    }

    /**
     * `saveCompleteProfile($userId, $data)`: updates the profile columns
     * (ignoring how that went), then, for each of skills, experience,
     * education and projects that the body sets, deletes the user's rows
     * and inserts the body's entries in order.  The first child statement
     * that throws ends the call with its message; whether or not one
     * throws, other users' rows are never touched.
     */
    method SaveCompleteProfile(userId: nat, data: SavePayload, updateError: Option<string>, fault: Option<Fault>)
        returns (r: Response<string>)
      requires user.db.Valid()
      modifies user, user.db`users, user.db.skills, user.db.experience, user.db.education, user.db.projects
      ensures user.db.Valid()
      ensures r.Success? <==> NoFaultIn(fault, 0, StatementCount(data))
      ensures r.Success? ==> r.body == ProfileSaved
      ensures r.Failure? ==> fault.Some? && r.message == fault.value.message
      ensures updateError.None? ==> user.db.users == UpdateWhere(old(user.db.users), userId, ColumnsOf(data.fields))
      ensures updateError.Some? ==> user.db.users == old(user.db.users)
      ensures Others(user.db.skills.rows, userId) == Others(old(user.db.skills.rows), userId)
      ensures Others(user.db.experience.rows, userId) == Others(old(user.db.experience.rows), userId)
      ensures Others(user.db.education.rows, userId) == Others(old(user.db.education.rows), userId)
      ensures Others(user.db.projects.rows, userId) == Others(old(user.db.projects.rows), userId)
      ensures r.Success? ==> Replaced(user.db.skills.rows, old(user.db.skills.rows), userId, StoredSkills(data))
      ensures r.Success? ==> Replaced(user.db.experience.rows, old(user.db.experience.rows), userId, StoredExperience(data))
      ensures r.Success? ==> Replaced(user.db.education.rows, old(user.db.education.rows), userId, StoredEducation(data))
      ensures r.Success? ==> Replaced(user.db.projects.rows, old(user.db.projects.rows), userId, StoredProjects(data))
    {
      var _ := UpdateProfile(userId, data.fields, updateError);
      var error := SaveSections(user.db, userId, data, fault);
      if error.Some? {
        return Failure(error.value);
      }
      r := Success(ProfileSaved);
    }
  }

  /** The four child sections of `saveCompleteProfile`, in order, stopping at the first statement that throws. */
  method SaveSections(db: Database, userId: nat, data: SavePayload, fault: Option<Fault>) returns (error: Option<string>)
    requires db.Valid()
    modifies db.skills, db.experience, db.education, db.projects
    ensures db.Valid()
    ensures error.None? <==> NoFaultIn(fault, 0, StatementCount(data))
    ensures error.Some? ==> fault.Some? && error.value == fault.value.message
    ensures Others(db.skills.rows, userId) == Others(old(db.skills.rows), userId)
    ensures Others(db.experience.rows, userId) == Others(old(db.experience.rows), userId)
    ensures Others(db.education.rows, userId) == Others(old(db.education.rows), userId)
    ensures Others(db.projects.rows, userId) == Others(old(db.projects.rows), userId)
    ensures error.None? ==> Replaced(db.skills.rows, old(db.skills.rows), userId, StoredSkills(data))
    ensures error.None? ==> Replaced(db.experience.rows, old(db.experience.rows), userId, StoredExperience(data))
    ensures error.None? ==> Replaced(db.education.rows, old(db.education.rows), userId, StoredEducation(data))
    ensures error.None? ==> Replaced(db.projects.rows, old(db.projects.rows), userId, StoredProjects(data))
  {
    var step;
    step, error := SkillsSection(db.skills, userId, data.skills, fault);
    if error.Some? {
      return;
    }
    step, error := Section(db.experience, userId, StoredExperience(data), fault, step);
    if error.Some? {
      return;
    }
    step, error := Section(db.education, userId, StoredEducation(data), fault, step);
    if error.Some? {
      return;
    }
    step, error := Section(db.projects, userId, StoredProjects(data), fault, step);
  }

  /** How many child statements a section runs: none when its key is not set, else one delete and one insert per row. */
  function Steps<D>(stored: Option<seq<D>>): nat {
    if stored.None? then 0 else 1 + |stored.value|
  }

  /** How many child statements `saveCompleteProfile` runs when none throws. */
  function StatementCount(data: SavePayload): nat {
    Steps(StoredSkills(data)) + Steps(StoredExperience(data)) + Steps(StoredEducation(data)) + Steps(StoredProjects(data))
  }

  /**
   * One `if (isset(...))` section over a flat list, starting at statement
   * number `step`: nothing when the key is not set, else delete and
   * reinsert.  It fails exactly when one of its own statements throws.
   */
  method Section<D(!new)>(table: ChildTable<D>, userId: nat, stored: Option<seq<D>>, fault: Option<Fault>, step: nat)
      returns (next: nat, error: Option<string>)
    requires table.Valid()
    modifies table
    ensures table.Valid()
    ensures Others(table.rows, userId) == Others(old(table.rows), userId)
    ensures error.Some? ==> fault.Some? && error.value == fault.value.message
    ensures error.None? <==> NoFaultIn(fault, step, step + Steps(stored))
    ensures error.None? ==> next == step + Steps(stored) && Replaced(table.rows, old(table.rows), userId, stored)
  {
    if stored.None? {
      return step, None;
    }
    next, error := ReplaceRows(table, userId, stored.value, fault, step);
  }

  /** The skills section, the first one, starting at statement 0. */
  method SkillsSection(table: ChildTable<SkillData>, userId: nat, skills: Option<seq<(string, SkillGroup)>>, fault: Option<Fault>)
      returns (next: nat, error: Option<string>)
    requires table.Valid()
    modifies table
    ensures table.Valid()
    ensures Others(table.rows, userId) == Others(old(table.rows), userId)
    ensures error.Some? ==> fault.Some? && error.value == fault.value.message
    ensures error.None? <==> NoFaultIn(fault, 0, Steps(SkillRows(skills)))
    ensures error.None? ==> next == Steps(SkillRows(skills))
    ensures error.None? ==> Replaced(table.rows, old(table.rows), userId, SkillRows(skills))
  {
    if skills.None? {
      return 0, None;
    }
    next, error := ReplaceSkills(table, userId, skills.value, fault, 0);
  }

  /** The users row `register` stores under `id`: the password hashed, absent optional columns empty. */
  function RegisteredRow(id: nat, data: Registration): (r: UserRow)
    ensures r.id == id && r.email == data.email && r.password == Some(PasswordHash(data.password))
    ensures r.full_name == data.full_name && r.profession == data.profession
    ensures r.phone == (if data.phone.Some? then data.phone.value else "")
    ensures r.location == (if data.location.Some? then data.location.value else "")
    ensures r.website == (if data.website.Some? then data.website.value else "")
    ensures r.profile_photo == (if data.profile_photo.Some? then data.profile_photo.value else "")
    ensures r.summary == (if data.summary.Some? then data.summary.value else "")
  {
    UserRow(id, data.full_name, data.email, Some(PasswordHash(data.password)), data.profession,
            data.phone.GetOr(""), data.location.GetOr(""), data.website.GetOr(""),
            data.profile_photo.GetOr(""), data.summary.GetOr(""))
  }

  /** A row that agrees with `data` column by column is the row `register` stores. */
  lemma RegisteredRowOf(row: UserRow, id: nat, data: Registration)
    requires row.id == id && row.full_name == data.full_name && row.email == data.email
    requires row.password == Some(PasswordHash(data.password)) && row.profession == data.profession
    requires row.phone == data.phone.GetOr("") && row.location == data.location.GetOr("")
    requires row.website == data.website.GetOr("") && row.profile_photo == data.profile_photo.GetOr("")
    requires row.summary == data.summary.GetOr("")
    ensures row == RegisteredRow(id, data)
  {
  }

  /** The columns `updateProfile` writes from its body: the optional ones default to the empty string. */
  function ColumnsOf(data: ProfileFields): (c: ProfileColumns)
    ensures c.full_name == data.full_name && c.profession == data.profession
    ensures c.phone == (if data.phone.Some? then data.phone.value else "")
    ensures c.location == (if data.location.Some? then data.location.value else "")
    ensures c.website == (if data.website.Some? then data.website.value else "")
    ensures c.profile_photo == (if data.profile_photo.Some? then data.profile_photo.value else "")
    ensures c.summary == (if data.summary.Some? then data.summary.value else "")
  {
    ProfileColumns(data.full_name, data.profession, data.phone.GetOr(""), data.location.GetOr(""),
                   data.website.GetOr(""), data.profile_photo.GetOr(""), data.summary.GetOr(""))
  }

  /** The skill rows a `skills` key stores, when it is set. */
  function SkillRows(skills: Option<seq<(string, SkillGroup)>>): Option<seq<SkillData>> {
    if skills.Some? then Some(FlattenSkills(skills.value)) else None
  }

  function StoredSkills(data: SavePayload): Option<seq<SkillData>> {
    SkillRows(data.skills)
  }

  function StoredExperience(data: SavePayload): Option<seq<ExperienceData>> {
    if data.experience.Some? then Some(MapSeq(data.experience.value, ExperienceOf)) else None
  }

  function StoredEducation(data: SavePayload): Option<seq<EducationData>> {
    if data.education.Some? then Some(MapSeq(data.education.value, EducationOf)) else None
  }

  function StoredProjects(data: SavePayload): Option<seq<ProjectData>> {
    if data.projects.Some? then Some(MapSeq(data.projects.value, ProjectOf)) else None
  }

  /**
   * A user registered with `password` logs in with it: the new row is
   * the one `getByEmail` finds, and the password verifies against it.
   */
  lemma RegisteredUserCanLogIn(users: seq<UserRow>, row: UserRow, password: string)
    requires GetByEmail(users, row.email).None?
    requires row.password == Some(PasswordHash(password))
    ensures GetByEmail(users + [row], row.email) == Some(row)
    ensures VerifyPassword(password, GetByEmail(users + [row], row.email).value.password)
  {
    GetByEmailAppend(users, row);
  }

  lemma {:induction false} GetByEmailAppend(users: seq<UserRow>, row: UserRow)
    requires GetByEmail(users, row.email).None?
    ensures GetByEmail(users + [row], row.email) == Some(row)
  {
    if users != [] {
      assert (users + [row])[1..] == users[1..] + [row];
      assert users[0] in users;
      GetByEmailAppend(users[1..], row);
    } else {
      assert [row][1..] == [];
    }
  }
}
