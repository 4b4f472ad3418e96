/**
 * `PortfolioController` (api/controllers/PortfolioController.php), its
 * three public operations: `generatePortfolio`, `getPortfolio` and
 * `getTemplates`.  The HTML itself is `PhpRenderer.BuildPortfolioHtml`.
 */
module PortfolioControl {
  import opened Wrappers
  import opened Store
  import opened Html
  import opened Ordering
  import opened UserModel
  import opened Templates
  import opened PhpRenderer

  const UserNotFound := "User not found"

  /** The success body of `generatePortfolio`: the page and the profile it was built from. */
  datatype Generated = Generated(html: string, profile: Profile)

  /** The success body of `getPortfolio`: the profile and the template chosen for it. */
  datatype Portfolio = Portfolio(profile: Profile, template: Option<TemplateRow>)

  /**
   * The template both operations pick: the lowest-id active template of
   * the profession, else the lowest-id active `developer` template, else none.
   */
  function ChooseTemplate(rows: seq<TemplateRow>, profession: string): (r: Option<TemplateRow>)
    ensures r.Some? ==> r.value in rows && IsActive(r.value)
    ensures r.Some? && r.value.profession != profession ==>
      r.value.profession == "developer" && forall t :: t in rows ==> !Selectable(t, profession)
    ensures r.None? <==> (forall t :: t in rows ==> !Selectable(t, profession)) && (forall t :: t in rows ==> !Selectable(t, "developer"))
    ensures GetByProfession(rows, profession).Some? ==> r == GetByProfession(rows, profession)
    ensures GetByProfession(rows, profession).None? ==> r == GetDefault(rows)
    ensures r.Some? && r.value.profession == profession ==>
      forall t :: t in rows && Selectable(t, profession) ==> r.value.id <= t.id
  {
    var own := GetByProfession(rows, profession);
    if own.Some? then own else GetDefault(rows)
  }

  /**
   * A profession with no active template of its own falls back to the
   * lowest-id active `developer` template.
   */
  lemma UnknownProfessionFallsBack(rows: seq<TemplateRow>, profession: string, t: TemplateRow)
    requires forall u :: u in rows ==> !Selectable(u, profession)
    requires t in rows && Selectable(t, "developer")
    ensures ChooseTemplate(rows, profession).Some?
    ensures ChooseTemplate(rows, profession).value.profession == "developer"
    ensures ChooseTemplate(rows, profession).value.id <= t.id
  {
  }

  /** The chosen template plays no part in the page: only the profile does. */
  lemma PageIgnoresTemplate(p: Profile, a: Option<TemplateRow>, b: Option<TemplateRow>)
    ensures BuildPortfolioHtml(p, a) == BuildPortfolioHtml(p, b)
  {
  }

  /** `PortfolioController`: a `User` and a `PortfolioTemplate` over the same connection. */
  class PortfolioController {
    const user: User
    const template: PortfolioTemplate

    constructor (user: User, template: PortfolioTemplate)
      ensures this.user == user && this.template == template
    {
      this.user := user;
      this.template := template;
    }

    /**
     * `generatePortfolio($userId, $templateType)`: "User not found" when
     * no user has that id; otherwise the page for the profile's own
     * profession (doctor, photographer, or the developer layout for any
     * other) together with the complete profile, password hash included.
     * `templateType` is accepted and ignored, and so, in the page, is the
     * chosen template: generation succeeds even with no template at all.
     */
    method GeneratePortfolio(userId: nat, templateType: string) returns (r: Response<Generated>)
      ensures r.Failure? <==> forall u :: u in user.db.users ==> u.id != userId
      ensures r.Failure? ==> r.message == UserNotFound
      ensures r.Success? ==> user.GetCompleteProfile(userId) == Some(r.body.profile)
      ensures r.Success? ==> r.body.profile.user.id == userId && r.body.profile.user in user.db.users
      ensures r.Success? && r.body.profile.user.profession == "doctor" ==> r.body.html == Flatten(DoctorPieces(r.body.profile), Spell)
      ensures r.Success? && r.body.profile.user.profession == "photographer" ==> r.body.html == Flatten(PhotographerPieces(r.body.profile), Spell)
      ensures r.Success? && r.body.profile.user.profession != "doctor" && r.body.profile.user.profession != "photographer" ==>
        r.body.html == Flatten(DeveloperPieces(r.body.profile), Spell)
    {
      var profile := user.GetCompleteProfile(userId);
      if profile.None? {
        return Failure(UserNotFound);
      }
      var chosen := ChooseTemplate(template.db.templates, profile.value.user.profession);
      var html := BuildPortfolioHtml(profile.value, chosen);
      r := Success(Generated(html, profile.value));
    }

    /**
     * `getPortfolio($userId)`: "User not found", or the complete profile
     * with the template chosen for its profession.
     */
    method GetPortfolio(userId: nat) returns (r: Response<Portfolio>)
      ensures r.Failure? <==> forall u :: u in user.db.users ==> u.id != userId
      ensures r.Failure? ==> r.message == UserNotFound
      ensures r.Success? ==> user.GetCompleteProfile(userId) == Some(r.body.profile)
      ensures r.Success? ==> r.body.template == ChooseTemplate(template.db.templates, r.body.profile.user.profession)
    {
      var profile := user.GetCompleteProfile(userId);
      if profile.None? {
        return Failure(UserNotFound);
      }
      r := Success(Portfolio(profile.value, ChooseTemplate(template.db.templates, profile.value.user.profession)));
    }

    /** `getTemplates()`: every active template, none other, by profession and then name. */
    method GetTemplates() returns (r: Response<seq<TemplateRow>>)
      ensures r.Success?
      ensures forall t :: t in r.body <==> t in template.db.templates && IsActive(t)
      ensures multiset(r.body) == multiset(ActiveRows(template.db.templates))
      ensures SortedBy(r.body, TemplateLe)
    {
      r := Success(GetAll(template.db.templates));
    }
  }
}
