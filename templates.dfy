/**
 * The `PortfolioTemplate` model (api/models/PortfolioTemplate.php): three
 * read-only queries over the `portfolio_templates` table, stated as
 * filter/order/limit over its rows, and `create`, which inserts a row.
 */
module Templates {
  import opened Wrappers
  import opened Store
  import opened Ordering

  /** `is_active = 1`. */
  predicate IsActive(t: TemplateRow) {
    t.is_active == 1
  }

  predicate Selectable(t: TemplateRow, profession: string) {
    IsActive(t) && t.profession == profession
  }

  /**
   * `WHERE profession = :profession AND is_active = 1 ORDER BY id ASC LIMIT 1`:
   * the active row of that profession with the smallest id, or nothing.
   */
  function GetByProfession(rows: seq<TemplateRow>, profession: string): (r: Option<TemplateRow>)
    ensures r.None? <==> forall t :: t in rows ==> !Selectable(t, profession)
    ensures r.Some? ==> r.value in rows && Selectable(r.value, profession)
    ensures r.Some? ==> forall t :: t in rows && Selectable(t, profession) ==> r.value.id <= t.id
  {
    if rows == [] then None
    else
      var rest := GetByProfession(rows[1..], profession);
      assert forall t :: t in rows ==> t == rows[0] || t in rows[1..];
      if Selectable(rows[0], profession) && (rest.None? || rows[0].id <= rest.value.id) then Some(rows[0])
      else rest
  }

  /** The `developer` row with the smallest id among the active ones, or nothing. */
  function GetDefault(rows: seq<TemplateRow>): (r: Option<TemplateRow>)
    ensures r.None? <==> forall t :: t in rows ==> !Selectable(t, "developer")
    ensures r.Some? ==> r.value in rows && Selectable(r.value, "developer")
    ensures r.Some? ==> forall t :: t in rows && Selectable(t, "developer") ==> r.value.id <= t.id
  {
    GetByProfession(rows, "developer")
  }

  /** The active rows, in table order (`WHERE is_active = 1`). */
  function ActiveRows(rows: seq<TemplateRow>): (r: seq<TemplateRow>)
    ensures forall t :: t in r <==> t in rows && IsActive(t)
  {
    if rows == [] then []
    else (if IsActive(rows[0]) then [rows[0]] else []) + ActiveRows(rows[1..])
  }

  /** `ORDER BY profession, template_name`: by profession, then by name within a profession. */
  predicate TemplateLe(a: TemplateRow, b: TemplateRow) {
    StrLe(a.profession, b.profession) && (a.profession == b.profession ==> StrLe(a.template_name, b.template_name))
  }

  lemma TemplateLeTotal()
    ensures Total(TemplateLe)
  {
    forall a: TemplateRow, b: TemplateRow ensures TemplateLe(a, b) || TemplateLe(b, a) {
      StrLeTotal(a.profession, b.profession);
      StrLeTotal(a.template_name, b.template_name);
    }
  }

  /** Every active row, each as often as it is stored, and no other, ordered by (profession, template_name). */
  function GetAll(rows: seq<TemplateRow>): (r: seq<TemplateRow>)
    ensures multiset(r) == multiset(ActiveRows(rows))
    ensures forall t :: t in r <==> t in rows && IsActive(t)
    ensures SortedBy(r, TemplateLe)
  {
    TemplateLeTotal();
    var sorted := SortBy(ActiveRows(rows), TemplateLe);
    assert forall t :: t in sorted <==> t in multiset(sorted);
    sorted
  }

  /**
   * Rows created later carry larger ids, so once a profession has an
   * active template, inserting a row never changes which one is selected.
   */
  lemma SelectionSurvivesInsert(rows: seq<TemplateRow>, t: TemplateRow, profession: string)
    requires forall i, j :: 0 <= i < j < |rows| ==> rows[i].id < rows[j].id
    requires forall u :: u in rows ==> u.id < t.id
    requires GetByProfession(rows, profession).Some?
    ensures GetByProfession(rows + [t], profession) == GetByProfession(rows, profession)
  {
    var before := GetByProfession(rows, profession).value;
    var after := GetByProfession(rows + [t], profession).value;
    assert before in rows + [t];
    assert after != t;
    assert after in rows;
    assert after.id == before.id;
    var i :| 0 <= i < |rows| && rows[i] == after;
    var j :| 0 <= j < |rows| && rows[j] == before;
    assert i == j;
  }

  /** `PortfolioTemplate`: the object's fields are the row `create` inserts. */
  class PortfolioTemplate {
    const db: Database
    var profession: string
    var template_name: string
    var template_data: string
    var is_active: int

    constructor (db: Database)
      ensures this.db == db
      ensures profession == "" && template_name == "" && template_data == "" && is_active == 0
    {
      this.db := db;
      profession, template_name, template_data, is_active := "", "", "", 0;
    }

    /**
     * Inserts one row carrying the object's four fields under the next id,
     * or, when the statement fails (`sqlError`), throws and changes nothing.
     */
    method Create(sqlError: Option<string>) returns (r: Response<bool>)
      requires db.Valid()
      modifies db`templates, db`nextTemplateId
      ensures db.Valid()
      ensures sqlError.Some? ==> r == Failure(sqlError.value) && unchanged(db`templates, db`nextTemplateId)
      ensures sqlError.None? ==> r == Success(true)
      ensures sqlError.None? ==> db.templates == old(db.templates) + [TemplateRow(old(db.nextTemplateId), profession, template_name, template_data, is_active)]
      ensures sqlError.None? ==> db.nextTemplateId == old(db.nextTemplateId) + 1
    {
      if sqlError.Some? {
        return Failure(sqlError.value);
      }
      db.templates := db.templates + [TemplateRow(db.nextTemplateId, profession, template_name, template_data, is_active)];
      db.nextTemplateId := db.nextTemplateId + 1;
      r := Success(true);
    }
  }
}
