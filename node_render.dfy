/**
 * The page the Node service builds (node-api/src/index.js): the helpers
 * `renderTags`, `renderExperience`, `renderEducation`, `renderProjects`,
 * the page `buildDeveloperHTML`, and the `/generate-portfolio` handler's
 * choice of that page.
 *
 * The helpers are `items.map(...).join('')` expressions over a stored
 * document and are functions here.  A document field is `Option<string>`:
 * missing or null is `None`.  JavaScript truthiness differs from PHP's:
 * only the empty string is a falsy string, so "0" is shown.
 */
module NodeRenderer {
  import opened Wrappers
  import opened HtmlEscape
  import opened Html

  // ---------------------------------------------------------------------
  // JavaScript values

  /** A string field of a stored document: missing or null, or a string. */
  type Field = Option<string>

  /** Truthiness of a field: missing, null and "" are falsy. */
  predicate Truthy(v: Field) {
    v.Some? && v.value != ""
  }

  /** `a || b` on two fields. */
  function Or(a: Field, b: Field): (r: Field)
    ensures Truthy(r) <==> Truthy(a) || Truthy(b)
    ensures Truthy(a) ==> r == a
    ensures !Truthy(a) ==> r == b
  {
    if Truthy(a) then a else b
  }

  /** `v || fallback` for a string fallback, as a template literal shows it. */
  function OrText(v: Field, fallback: string): string {
    if Truthy(v) then v.value else fallback
  }

  /**
   * `escapeHtml(v)` on a field: a falsy field gives "", a truthy one its
   * escaped text, which decodes back to the field.
   */
  lemma EscapeField(v: Field)
    ensures !Truthy(v) ==> Escape(OrText(v, "")) == ""
    ensures Truthy(v) ==> Unescape(Escape(OrText(v, ""))) == v.value
    ensures IsEscaped(Escape(OrText(v, "")))
  {
    UnescapeEscape(OrText(v, ""));
    EscapeIsEscaped(OrText(v, ""));
  }

  // ---------------------------------------------------------------------
  // Stored documents

  /** An element of a skill bucket: a plain string, or an object with `name` or `skill_name`. */
  datatype TagItem = Word(text: string) | Entry(name: Field, skill_name: Field)

  /** The `skills` object: three buckets, each possibly missing. */
  datatype Skills = Skills(technical: Option<seq<TagItem>>, tools: Option<seq<TagItem>>, soft: Option<seq<TagItem>>)

  datatype ExperienceDoc = ExperienceDoc(
    title: Field, job_title: Field, company: Field, start_date: Field, end_date: Field, description: Field)

  datatype EducationDoc = EducationDoc(
    degree: Field, institution: Field, start_date: Field, end_date: Field, grade: Field, location: Field)

  datatype ProjectDoc = ProjectDoc(
    name: Field, project_name: Field, technologies: Field, duration: Field, description: Field,
    url: Field, project_url: Field)

  /** A user document as `findOne(...).lean()` returns it. */
  datatype UserDoc = UserDoc(
    id: int, full_name: Field, email: Field, password: Field, profession: Field,
    phone: Field, location: Field, website: Field, profile_photo: Field, summary: Field,
    skills: Option<Skills>,
    experience: Option<seq<ExperienceDoc>>, education: Option<seq<EducationDoc>>, projects: Option<seq<ProjectDoc>>)

  /** `!items || items.length === 0` holds exactly when this is empty. */
  function Items<T>(items: Option<seq<T>>): seq<T> {
    items.GetOr([])
  }

  /** The label of a skill tag: `s.name || s.skill_name || s`, where an object prints as "[object Object]". */
  function TagLabel(s: TagItem): string {
    match s
    case Word(t) => t
    case Entry(n, sn) => OrText(Or(n, sn), "[object Object]")
  }

  // ---------------------------------------------------------------------
  // Markup

  /** Every fixed fragment of markup the service emits, by name; `Spell` gives its text. */
  datatype Markup =
    | NoItems | NoExperience | NoEducation | NoProjects
    | TagOpen | TagClose
    | ExperienceOpen | EducationOpen | HeadingToPlace | PlaceToDuration | DateSeparator
    | DurationToDescription | DurationToGrade | GradeToLocation | EntryClose
    | ProjectOpen | NameToTechnologies | TechnologiesToDuration | DescriptionToLink
    | LinkOpen | LinkClose | CardClose
    | PageOpen | TitleClose | PhotoOpen | PhotoClose
    | NameOpen | NameToSummary | SummaryToEmail | EmailToPhone | PhoneToLocation | HeroToSkills
    | ToolsHeading | SoftHeading | SkillsToExperience | ExperienceToProjects | ProjectsToEducation | PageClose

  function Spell(m: Markup): string {
    match m
    case NoItems => "<p>No items listed</p>"
    case NoExperience => "<p>No experience listed</p>"
    case NoEducation => "<p>No education listed</p>"
    case NoProjects => "<p>No projects listed</p>"
    case TagOpen => "<span class=\"skill-tag\">"
    case TagClose => "</span>"
    case ExperienceOpen => "\n    <div class=\"experience-item\">\n      <h3>"
    case EducationOpen => "\n    <div class=\"education-item\">\n      <h3>"
    case HeadingToPlace => "</h3>\n      <h4>"
    case PlaceToDuration => "</h4>\n      <p><strong>Duration:</strong> "
    case DateSeparator => " - "
    case DurationToDescription => "</p>\n      <p>"
    case DurationToGrade => "</p>\n      <p><strong>Grade:</strong> "
    case GradeToLocation => "</p>\n      <p><strong>Location:</strong> "
    case EntryClose => "</p>\n    </div>\n  "
    case ProjectOpen => "\n    <div class=\"project-card\">\n      <h3>"
    case NameToTechnologies => "</h3>\n      <p><strong>Technologies:</strong> "
    case TechnologiesToDuration => "</p>\n      <p><strong>Duration:</strong> "
    case DescriptionToLink => "</p>\n      "
    case LinkOpen => "<a href=\""
    case LinkClose => "\" target=\"_blank\">View Project</a>"
    case CardClose => "\n    </div>\n  "
    case PageOpen => "<!DOCTYPE html><html lang=\"en\"><head><meta charset=\"UTF-8\"><meta name=\"viewport\" content=\"width=device-width, initial-scale=1.0\"><title>"
    case TitleClose => "</title><link href=\"https://cdnjs.cloudflare.com/ajax/libs/font-awesome/6.0.0/css/all.min.css\" rel=\"stylesheet\"><style>/* developer palette */</style></head><body><section class=\"hero\"><div class=\"container\">"
    case PhotoOpen => "<img src=\""
    case PhotoClose => "\" alt=\"Profile\" style=\"width:160px;height:160px;border-radius:50%;object-fit:cover;margin-bottom:1rem;box-shadow:0 10px 30px rgba(0,0,0,0.3);\">"
    case NameOpen => "<h1>"
    case NameToSummary => "</h1><p>"
    case SummaryToEmail => "</p><div class=\"contact-info\"><p><i class=\"fas fa-envelope\"></i> "
    case EmailToPhone => "</p><p><i class=\"fas fa-phone\"></i> "
    case PhoneToLocation => "</p><p><i class=\"fas fa-map-marker-alt\"></i> "
    case HeroToSkills => "</p></div></div></section><section class=\"section\"><div class=\"container\"><h2>Skills & Technologies</h2><div><h3>Technical</h3>"
    case ToolsHeading => "<h3>Tools</h3>"
    case SoftHeading => "<h3>Soft</h3>"
    case SkillsToExperience => "</div></div></section><section class=\"section\" style=\"background:#f8f9fa\"><div class=\"container\"><h2>Professional Experience</h2>"
    case ExperienceToProjects => "</div></section><section class=\"section\"><div class=\"container\"><h2>Projects</h2>"
    case ProjectsToEducation => "</div></section><section class=\"section\" style=\"background:#f8f9fa\"><div class=\"container\"><h2>Education</h2>"
    case PageClose => "</div></section></body></html>"
  }

  type Pieces = seq<Piece<Markup>>

  // ---------------------------------------------------------------------
  // The list helpers

  function TagSpan(s: TagItem): Pieces {
    [Tag(TagOpen), Esc(TagLabel(s)), Tag(TagClose)]
  }

  /** The duration line of experience and education entries; the dates go in unescaped. */
  function DurationLine(start: string, end: string): Pieces {
    [Tag(PlaceToDuration), Raw(start), Tag(DateSeparator), Raw(end)]
  }

  /** The heading is `title || job_title`, and a falsy end date reads "Present". */
  function ExperienceEntry(e: ExperienceDoc): Pieces {
    [Tag(ExperienceOpen), Esc(OrText(Or(e.title, e.job_title), "")), Tag(HeadingToPlace), Esc(OrText(e.company, ""))]
    + DurationLine(OrText(e.start_date, ""), OrText(e.end_date, "Present"))
    + [Tag(DurationToDescription), Esc(OrText(e.description, "")), Tag(EntryClose)]
  }

  /** There is no fallback for the end date: a falsy one reads as nothing. */
  function EducationEntry(e: EducationDoc): Pieces {
    [Tag(EducationOpen), Esc(OrText(e.degree, "")), Tag(HeadingToPlace), Esc(OrText(e.institution, ""))]
    + DurationLine(OrText(e.start_date, ""), OrText(e.end_date, ""))
    + [Tag(DurationToGrade), Esc(OrText(e.grade, "")), Tag(GradeToLocation), Esc(OrText(e.location, "")), Tag(EntryClose)]
  }

  /** The 'View Project' link for a truthy `url || project_url`, its `href` through `escapeAttr`. */
  function ProjectLink(url: Field): Pieces {
    if Truthy(url) then [Tag(LinkOpen), Attr(url.value), Tag(LinkClose)] else []
  }

  /** Name and technologies, then duration and description, of a project card. */
  function CardHead(p: ProjectDoc): Pieces {
    [Tag(ProjectOpen), Esc(OrText(Or(p.name, p.project_name), "")), Tag(NameToTechnologies), Esc(OrText(p.technologies, ""))]
    + [Tag(TechnologiesToDuration), Esc(OrText(p.duration, "")), Tag(DurationToDescription), Esc(OrText(p.description, "")),
       Tag(DescriptionToLink)]
  }

  function ProjectCard(p: ProjectDoc): Pieces {
    CardHead(p) + ProjectLink(Or(p.url, p.project_url)) + [Tag(CardClose)]
  }

  function TagsPieces(items: Option<seq<TagItem>>): Pieces {
    ListPieces(Items(items), TagSpan, NoItems)
  }

  function ExperiencePieces(items: Option<seq<ExperienceDoc>>): Pieces {
    ListPieces(Items(items), ExperienceEntry, NoExperience)
  }

  function EducationPieces(items: Option<seq<EducationDoc>>): Pieces {
    ListPieces(Items(items), EducationEntry, NoEducation)
  }

  function ProjectsPieces(items: Option<seq<ProjectDoc>>): Pieces {
    ListPieces(Items(items), ProjectCard, NoProjects)
  }

  // ---------------------------------------------------------------------
  // Properties of the list helpers

  /** `renderTags` returns its placeholder exactly when the list is missing or empty. */
  lemma TagsPlaceholderIffEmpty(items: Option<seq<TagItem>>)
    ensures Flatten(TagsPieces(items), Spell) == Spell(NoItems) <==> Items(items) == []
  {
    assert |Spell(NoItems)| < |Spell(TagOpen)|;
    PlaceholderIffEmpty(Items(items), TagSpan, TagOpen, NoItems, Spell);
  }

  /** `renderExperience` returns its placeholder exactly when the list is missing or empty. */
  lemma ExperiencePlaceholderIffEmpty(items: Option<seq<ExperienceDoc>>)
    ensures Flatten(ExperiencePieces(items), Spell) == Spell(NoExperience) <==> Items(items) == []
  {
    assert |Spell(NoExperience)| < |Spell(ExperienceOpen)|;
    PlaceholderIffEmpty(Items(items), ExperienceEntry, ExperienceOpen, NoExperience, Spell);
  }

  /** `renderEducation` returns its placeholder exactly when the list is missing or empty. */
  lemma EducationPlaceholderIffEmpty(items: Option<seq<EducationDoc>>)
    ensures Flatten(EducationPieces(items), Spell) == Spell(NoEducation) <==> Items(items) == []
  {
    assert |Spell(NoEducation)| < |Spell(EducationOpen)|;
    PlaceholderIffEmpty(Items(items), EducationEntry, EducationOpen, NoEducation, Spell);
  }

  /** `renderProjects` returns its placeholder exactly when the list is missing or empty. */
  lemma ProjectsPlaceholderIffEmpty(items: Option<seq<ProjectDoc>>)
    ensures Flatten(ProjectsPieces(items), Spell) == Spell(NoProjects) <==> Items(items) == []
  {
    assert |Spell(NoProjects)| < |Spell(ProjectOpen)|;
    PlaceholderIffEmpty(Items(items), ProjectCard, ProjectOpen, NoProjects, Spell);
  }

  /** The labels of the skill tags, in input order. */
  function Labels(items: seq<TagItem>): (r: seq<string>)
    ensures |r| == |items|
  {
    if items == [] then [] else Labels(items[..|items| - 1]) + [TagLabel(items[|items| - 1])]
  }

  lemma {:induction false} JoinTagSpans(items: seq<TagItem>)
    ensures multiset(Join(items, TagSpan))[Tag(TagOpen)] == |items|
  {
    if items != [] {
      var init, last := items[..|items| - 1], items[|items| - 1];
      assert items == init + [last];
      JoinCount(init, last, TagSpan, Tag(TagOpen));
      JoinTagSpans(init);
    }
  }

  lemma {:induction false} JoinTagTexts(items: seq<TagItem>)
    ensures Texts(Join(items, TagSpan)) == Labels(items)
  {
    if items != [] {
      var init, last := items[..|items| - 1], items[|items| - 1];
      JoinTagTexts(init);
      TextsConcat(Join(init, TagSpan), TagSpan(last));
      var a, b, c := Tag(TagOpen), Esc(TagLabel(last)), Tag(TagClose);
      assert TagSpan(last) == [] + [a] + [b] + [c];
      TextsSnoc([], a);
      TextsSnoc([a], b);
      TextsSnoc([a, b], c);
      assert [] + [a] == [a];
      assert [a] + [b] == [a, b];
    }
  }

  /**
   * `renderTags` on a non-empty list emits one `skill-tag` span per item,
   * and the only user text it emits is the labels, escaped, in input order.
   */
  lemma TagSpansPerItem(items: Option<seq<TagItem>>)
    ensures Items(items) != [] ==> multiset(TagsPieces(items))[Tag(TagOpen)] == |Items(items)|
    ensures Items(items) != [] ==> Texts(TagsPieces(items)) == Labels(Items(items))
    ensures forall q :: q in TagsPieces(items) ==> q.Tag? || q.Esc?
  {
    if Items(items) != [] {
      JoinTagSpans(Items(items));
      JoinTagTexts(Items(items));
      forall q | q in TagsPieces(items) ensures q.Tag? || q.Esc? {
        JoinMember(Items(items), TagSpan, q);
      }
    }
  }

  /** A tag's label is its `name`, else its `skill_name`, else the plain string itself. */
  lemma TagLabelChoice(s: TagItem)
    ensures s.Word? ==> TagLabel(s) == s.text
    ensures s.Entry? && Truthy(s.name) ==> TagLabel(s) == s.name.value
    ensures s.Entry? && !Truthy(s.name) && Truthy(s.skill_name) ==> TagLabel(s) == s.skill_name.value
    ensures s.Entry? && !Truthy(s.name) && !Truthy(s.skill_name) ==> TagLabel(s) == "[object Object]"
  {
  }

  /** The duration line reads `start - end`. */
  lemma DurationLineText(start: string, end: string)
    ensures IsInfix(start + " - " + end, Flatten(DurationLine(start, end), Spell))
  {
    var p0, p1, p2, p3 := Tag(PlaceToDuration), Raw(start), Tag(DateSeparator), Raw(end);
    assert DurationLine(start, end) == [p0] + [p1, p2, p3];
    FlattenConcat([p0], [p1, p2, p3], Spell);
    FlattenSingleton(p0, Spell);
    FlattenTriple(p1, p2, p3, Spell);
    assert Flatten(DurationLine(start, end), Spell) == Spell(PlaceToDuration) + (start + " - " + end) + "";
    InfixConcat(Spell(PlaceToDuration), start + " - " + end, "");
  }

  /**
   * An experience entry is headed by `title || job_title` and shows its
   * dates as `start - end`, with "Present" for a falsy end date.
   */
  lemma ExperienceEntryShown(e: ExperienceDoc)
    ensures ExperienceEntry(e)[1] == Esc(if Truthy(e.title) then e.title.value else OrText(e.job_title, ""))
    ensures IsInfix(OrText(e.start_date, "") + " - " + OrText(e.end_date, "Present"), Flatten(ExperienceEntry(e), Spell))
    ensures Truthy(e.end_date) ==> Raw(e.end_date.value) in ExperienceEntry(e)
    ensures !Truthy(e.end_date) ==> Raw("Present") in ExperienceEntry(e)
  {
    var head := [Tag(ExperienceOpen), Esc(OrText(Or(e.title, e.job_title), "")), Tag(HeadingToPlace), Esc(OrText(e.company, ""))];
    var line := DurationLine(OrText(e.start_date, ""), OrText(e.end_date, "Present"));
    var tail := [Tag(DurationToDescription), Esc(OrText(e.description, "")), Tag(EntryClose)];
    DurationLineText(OrText(e.start_date, ""), OrText(e.end_date, "Present"));
    FlattenInfix(head, line, tail, OrText(e.start_date, "") + " - " + OrText(e.end_date, "Present"), Spell);
    assert ExperienceEntry(e)[7] == line[3];
  }

  /** An education entry shows its dates as `start - end`, a falsy end date as nothing. */
  lemma EducationEntryShown(e: EducationDoc)
    ensures IsInfix(OrText(e.start_date, "") + " - " + OrText(e.end_date, ""), Flatten(EducationEntry(e), Spell))
    ensures EducationEntry(e)[7] == Raw(OrText(e.end_date, ""))
    ensures !Truthy(e.end_date) ==> EducationEntry(e)[7] == Raw("")
  {
    var head := [Tag(EducationOpen), Esc(OrText(e.degree, "")), Tag(HeadingToPlace), Esc(OrText(e.institution, ""))];
    var line := DurationLine(OrText(e.start_date, ""), OrText(e.end_date, ""));
    var tail := [Tag(DurationToGrade), Esc(OrText(e.grade, "")), Tag(GradeToLocation), Esc(OrText(e.location, "")), Tag(EntryClose)];
    DurationLineText(OrText(e.start_date, ""), OrText(e.end_date, ""));
    FlattenInfix(head, line, tail, OrText(e.start_date, "") + " - " + OrText(e.end_date, ""), Spell);
  }

  /** The number of projects with a truthy `url || project_url`. */
  function LinkedProjects(projects: seq<ProjectDoc>): (n: nat)
    ensures n <= |projects|
  {
    if projects == [] then 0
    else LinkedProjects(projects[..|projects| - 1]) + (if Truthy(Or(projects[|projects| - 1].url, projects[|projects| - 1].project_url)) then 1 else 0)
  }

  lemma LinkCount(url: Field)
    ensures multiset(ProjectLink(url))[Tag(LinkOpen)] == if Truthy(url) then 1 else 0
  {
  }

  lemma CardHeadHasNoLink(p: ProjectDoc)
    ensures multiset(CardHead(p))[Tag(LinkOpen)] == 0
  {
    var x := Tag(LinkOpen);
    var a := [Tag(ProjectOpen), Esc(OrText(Or(p.name, p.project_name), "")), Tag(NameToTechnologies), Esc(OrText(p.technologies, ""))];
    var b := [Tag(TechnologiesToDuration), Esc(OrText(p.duration, "")), Tag(DurationToDescription), Esc(OrText(p.description, "")),
              Tag(DescriptionToLink)];
    CountConcat(a, b, x);
  }

  /** A card holds one link when `url || project_url` is truthy and none otherwise. */
  lemma CardLink(p: ProjectDoc)
    ensures multiset(ProjectCard(p))[Tag(LinkOpen)] == if Truthy(Or(p.url, p.project_url)) then 1 else 0
  {
    var head, link := CardHead(p), ProjectLink(Or(p.url, p.project_url));
    CountConcat(head + link, [Tag(CardClose)], Tag(LinkOpen));
    CountConcat(head, link, Tag(LinkOpen));
    CardHeadHasNoLink(p);
    LinkCount(Or(p.url, p.project_url));
  }

  /** The link's `href` is the escaped `url` if that is truthy and `project_url` otherwise. */
  lemma CardLinkTarget(p: ProjectDoc)
    ensures Truthy(p.url) ==> Attr(p.url.value) in ProjectCard(p)
    ensures !Truthy(p.url) && Truthy(p.project_url) ==> Attr(p.project_url.value) in ProjectCard(p)
  {
    if Truthy(Or(p.url, p.project_url)) {
      assert ProjectCard(p)[|CardHead(p)| + 1] == Attr(Or(p.url, p.project_url).value);
    }
  }

  /** 'View Project' links: exactly one per project with a truthy URL, none for the others. */
  lemma {:induction false} ProjectLinks(projects: seq<ProjectDoc>)
    ensures multiset(Join(projects, ProjectCard))[Tag(LinkOpen)] == LinkedProjects(projects)
  {
    if projects != [] {
      var init, last := projects[..|projects| - 1], projects[|projects| - 1];
      assert projects == init + [last];
      JoinCount(init, last, ProjectCard, Tag(LinkOpen));
      CardLink(last);
      ProjectLinks(init);
    }
  }

  // ---------------------------------------------------------------------
  // The page

  /** `profile.skills || { technical: [], tools: [], soft: [] }`. */
  function SkillsOf(p: UserDoc): Skills {
    p.skills.GetOr(Skills(Some([]), Some([]), Some([])))
  }

  /** The profile photo, only for a truthy `profile_photo`, its `src` through `escapeAttr`. */
  function Photo(photo: Field): Pieces {
    if Truthy(photo) then [Tag(PhotoOpen), Attr(photo.value), Tag(PhotoClose)] else []
  }

  /** `<head>` up to the hero's container; the title falls back to "Portfolio". */
  function Head(p: UserDoc): Pieces {
    [Tag(PageOpen), Esc(OrText(p.full_name, "Portfolio")), Tag(TitleClose)]
  }

  /** Name, summary and contact lines of the hero section, then the opening of the skills section. */
  function Hero(p: UserDoc): Pieces {
    [Tag(NameOpen), Esc(OrText(p.full_name, "")), Tag(NameToSummary), Esc(OrText(p.summary, "")),
     Tag(SummaryToEmail), Esc(OrText(p.email, "")), Tag(EmailToPhone), Esc(OrText(p.phone, "")),
     Tag(PhoneToLocation), Esc(OrText(p.location, "")), Tag(HeroToSkills)]
  }

  /** The three skill buckets under their headings. */
  function SkillsBlock(s: Skills): Pieces {
    TagsPieces(s.technical) + [Tag(ToolsHeading)] + TagsPieces(s.tools) + [Tag(SoftHeading)] + TagsPieces(s.soft)
  }

  /** Experience, projects and education, each in its section, and the end of the page. */
  function Sections(p: UserDoc): Pieces {
    [Tag(SkillsToExperience)] + ExperiencePieces(p.experience)
    + [Tag(ExperienceToProjects)] + ProjectsPieces(p.projects)
    + [Tag(ProjectsToEducation)] + EducationPieces(p.education)
    + [Tag(PageClose)]
  }

  /** Everything after `<head>`: the skill buckets and the three sections follow the hero. */
  function Lists(p: UserDoc): Pieces {
    SkillsBlock(SkillsOf(p)) + Sections(p)
  }

  function Body(p: UserDoc): Pieces {
    Photo(p.profile_photo) + Hero(p) + Lists(p)
  }

  function DeveloperPieces(p: UserDoc): Pieces {
    Head(p) + Body(p)
  }

  /** `buildDeveloperHTML(profile)`. */
  function BuildDeveloperHtml(p: UserDoc): string {
    Flatten(DeveloperPieces(p), Spell)
  }

  // ---------------------------------------------------------------------
  // Properties of the page

  /** Three placeholders under the Tools and Soft headings, as one string. */
  lemma EmptyBucketsText()
    ensures Flatten([Tag(NoItems), Tag(ToolsHeading), Tag(NoItems), Tag(SoftHeading), Tag(NoItems)], Spell)
         == Spell(NoItems) + Spell(ToolsHeading) + Spell(NoItems) + Spell(SoftHeading) + Spell(NoItems)
  {
    var a, b, c, d, e := Tag(NoItems), Tag(ToolsHeading), Tag(NoItems), Tag(SoftHeading), Tag(NoItems);
    assert [a, b, c, d, e] == [a, b] + [c, d, e];
    FlattenConcat([a, b], [c, d, e], Spell);
    FlattenTriple(c, d, e, Spell);
    assert [a, b] == [a] + [b];
    FlattenConcat([a], [b], Spell);
    FlattenSingleton(a, Spell);
    FlattenSingleton(b, Spell);
  }

  /** Missing `skills` reads as three empty buckets: three placeholders under their headings. */
  lemma MissingSkillsPlaceholders(p: UserDoc)
    requires p.skills.None?
    ensures SkillsBlock(SkillsOf(p)) == [Tag(NoItems), Tag(ToolsHeading), Tag(NoItems), Tag(SoftHeading), Tag(NoItems)]
    ensures Flatten(SkillsBlock(SkillsOf(p)), Spell)
         == Spell(NoItems) + Spell(ToolsHeading) + Spell(NoItems) + Spell(SoftHeading) + Spell(NoItems)
  {
    assert SkillsBlock(SkillsOf(p)) == [Tag(NoItems), Tag(ToolsHeading), Tag(NoItems), Tag(SoftHeading), Tag(NoItems)];
    EmptyBucketsText();
  }

  lemma HeadText(p: UserDoc)
    ensures Flatten(Head(p), Spell) == Spell(PageOpen) + Escape(OrText(p.full_name, "Portfolio")) + Spell(TitleClose)
  {
    var h := Head(p);
    FlattenTriple(h[0], h[1], h[2], Spell);
    assert h == [h[0], h[1], h[2]];
  }

  /** The page opens with its `<title>`: the escaped `full_name`, or "Portfolio" when that is falsy. */
  lemma TitleFallback(p: UserDoc)
    ensures Spell(PageOpen) + Escape(OrText(p.full_name, "Portfolio")) + Spell(TitleClose) <= BuildDeveloperHtml(p)
  {
    FlattenConcat(Head(p), Body(p), Spell);
    HeadText(p);
  }

  /** Markup of the page frame, as opposed to the markup of the list helpers. */
  predicate FrameMarkup(m: Markup) {
    || m.PageOpen? || m.TitleClose? || m.PhotoOpen? || m.PhotoClose? || m.NameOpen? || m.NameToSummary?
    || m.SummaryToEmail? || m.EmailToPhone? || m.PhoneToLocation? || m.HeroToSkills? || m.ToolsHeading?
    || m.SoftHeading? || m.SkillsToExperience? || m.ExperienceToProjects? || m.ProjectsToEducation? || m.PageClose?
  }

  /** The skill buckets hold list markup and escaped labels only. */
  lemma TagsPiecesKinds(items: Option<seq<TagItem>>, q: Piece<Markup>)
    requires q in TagsPieces(items)
    ensures q.Tag? || q.Esc?
    ensures q.Tag? ==> !FrameMarkup(q.markup)
  {
    if Items(items) != [] {
      JoinMember(Items(items), TagSpan, q);
    }
  }

  lemma ExperienceEntryKinds(e: ExperienceDoc, q: Piece<Markup>)
    requires q in ExperienceEntry(e)
    ensures q.Tag? || q.Esc? || q.Raw?
    ensures q.Tag? ==> !FrameMarkup(q.markup)
    ensures q.Raw? ==> q.text == OrText(e.start_date, "") || q.text == OrText(e.end_date, "Present")
  {
  }

  /** The experience list holds list markup, escaped text, and the dates unescaped. */
  lemma ExperiencePiecesKinds(items: Option<seq<ExperienceDoc>>, q: Piece<Markup>)
    requires q in ExperiencePieces(items)
    ensures q.Tag? || q.Esc? || q.Raw?
    ensures q.Tag? ==> !FrameMarkup(q.markup)
    ensures q.Raw? ==> exists e :: e in Items(items) && (q.text == OrText(e.start_date, "") || q.text == OrText(e.end_date, "Present"))
  {
    if Items(items) != [] {
      JoinMember(Items(items), ExperienceEntry, q);
      var e :| e in Items(items) && q in ExperienceEntry(e);
      ExperienceEntryKinds(e, q);
    }
  }

  lemma EducationEntryKinds(e: EducationDoc, q: Piece<Markup>)
    requires q in EducationEntry(e)
    ensures q.Tag? || q.Esc? || q.Raw?
    ensures q.Tag? ==> !FrameMarkup(q.markup)
    ensures q.Raw? ==> q.text == OrText(e.start_date, "") || q.text == OrText(e.end_date, "")
  {
  }

  /** The education list holds list markup, escaped text, and the dates unescaped. */
  lemma EducationPiecesKinds(items: Option<seq<EducationDoc>>, q: Piece<Markup>)
    requires q in EducationPieces(items)
    ensures q.Tag? || q.Esc? || q.Raw?
    ensures q.Tag? ==> !FrameMarkup(q.markup)
    ensures q.Raw? ==> exists e :: e in Items(items) && (q.text == OrText(e.start_date, "") || q.text == OrText(e.end_date, ""))
  {
    if Items(items) != [] {
      JoinMember(Items(items), EducationEntry, q);
      var e :| e in Items(items) && q in EducationEntry(e);
      EducationEntryKinds(e, q);
    }
  }

  lemma CardHeadKinds(p: ProjectDoc, q: Piece<Markup>)
    requires q in CardHead(p)
    ensures (q.Tag? && !FrameMarkup(q.markup)) || q.Esc?
  {
  }

  lemma LinkKinds(url: Field, q: Piece<Markup>)
    requires q in ProjectLink(url)
    ensures q == Tag(LinkOpen) || q == Tag(LinkClose) || (Truthy(url) && q == Attr(url.value))
  {
  }

  lemma CardKinds(p: ProjectDoc, q: Piece<Markup>)
    requires q in ProjectCard(p)
    ensures q.Tag? || q.Esc? || q.Attr?
    ensures q.Tag? ==> !FrameMarkup(q.markup)
    ensures q.Attr? ==> Truthy(Or(p.url, p.project_url)) && q.text == Or(p.url, p.project_url).value
  {
    if q in CardHead(p) {
      CardHeadKinds(p, q);
    } else if q in ProjectLink(Or(p.url, p.project_url)) {
      LinkKinds(Or(p.url, p.project_url), q);
    } else {
      assert q == Tag(CardClose);
    }
  }

  /** The project cards hold list markup, escaped text, and the link targets through `escapeAttr`. */
  lemma ProjectsPiecesKinds(items: Option<seq<ProjectDoc>>, q: Piece<Markup>)
    requires q in ProjectsPieces(items)
    ensures q.Tag? || q.Esc? || q.Attr?
    ensures q.Tag? ==> !FrameMarkup(q.markup)
    ensures q.Attr? ==> exists p :: p in Items(items) && Truthy(Or(p.url, p.project_url)) && q.text == Or(p.url, p.project_url).value
  {
    if Items(items) != [] {
      JoinMember(Items(items), ProjectCard, q);
      var p :| p in Items(items) && q in ProjectCard(p);
      CardKinds(p, q);
    }
  }

  /**
   * After the hero, the page holds no photo, its only unescaped text is
   * the dates, and its only attribute text is the project links.
   */
  lemma ListsKinds(p: UserDoc, q: Piece<Markup>)
    requires q in Lists(p)
    ensures q != Tag(PhotoOpen)
    ensures q.Raw? ==>
      || (exists e :: e in Items(p.experience) && (q.text == OrText(e.start_date, "") || q.text == OrText(e.end_date, "Present")))
      || (exists e :: e in Items(p.education) && (q.text == OrText(e.start_date, "") || q.text == OrText(e.end_date, "")))
    ensures q.Attr? ==>
      exists r :: r in Items(p.projects) && Truthy(Or(r.url, r.project_url)) && q.text == Or(r.url, r.project_url).value
  {
    var s := SkillsOf(p);
    if q in TagsPieces(s.technical) { TagsPiecesKinds(s.technical, q); }
    if q in TagsPieces(s.tools) { TagsPiecesKinds(s.tools, q); }
    if q in TagsPieces(s.soft) { TagsPiecesKinds(s.soft, q); }
    if q in ExperiencePieces(p.experience) { ExperiencePiecesKinds(p.experience, q); }
    if q in ProjectsPieces(p.projects) { ProjectsPiecesKinds(p.projects, q); }
    if q in EducationPieces(p.education) { EducationPiecesKinds(p.education, q); }
  }

  /** The photo is on the page exactly when `profile_photo` is truthy, with that value as its `src`. */
  lemma PhotoOnlyWhenTruthy(p: UserDoc)
    ensures Tag(PhotoOpen) in DeveloperPieces(p) <==> Truthy(p.profile_photo)
    ensures Truthy(p.profile_photo) ==> Attr(p.profile_photo.value) in DeveloperPieces(p)
  {
    if Tag(PhotoOpen) in Lists(p) {
      ListsKinds(p, Tag(PhotoOpen));
    }
  }

  /** The only text the page inserts unescaped is the experience and education dates. */
  lemma RawIsDates(p: UserDoc, q: Piece<Markup>)
    requires q.Raw? && q in DeveloperPieces(p)
    ensures || (exists e :: e in Items(p.experience) && (q.text == OrText(e.start_date, "") || q.text == OrText(e.end_date, "Present")))
            || (exists e :: e in Items(p.education) && (q.text == OrText(e.start_date, "") || q.text == OrText(e.end_date, "")))
  {
    if q in Lists(p) {
      ListsKinds(p, q);
    }
  }

  /** Text in attributes goes through `escapeAttr`: the photo `src` and the project `href`s, both truthy. */
  lemma AttrIsPhotoOrLink(p: UserDoc, q: Piece<Markup>)
    requires q.Attr? && q in DeveloperPieces(p)
    ensures || (Truthy(p.profile_photo) && q.text == p.profile_photo.value)
            || (exists r :: r in Items(p.projects) && Truthy(Or(r.url, r.project_url)) && q.text == Or(r.url, r.project_url).value)
  {
    if q in Lists(p) {
      ListsKinds(p, q);
    }
  }

  /** The page does not read the profession: every profession gets this same page. */
  lemma PageIgnoresProfession(p: UserDoc, profession: Field)
    ensures BuildDeveloperHtml(p.(profession := profession)) == BuildDeveloperHtml(p)
  {
    assert DeveloperPieces(p.(profession := profession)) == DeveloperPieces(p);
  }

  // ---------------------------------------------------------------------
  // `/generate-portfolio`

  const UserNotFound := "User not found"

  /** The success body: the page and the stored document it was built from. */
  datatype Generated = Generated(html: string, profile: UserDoc)

  /** `User.findOne({ id })`: the first stored document with that id. */
  function FindOne(users: seq<UserDoc>, id: int): (r: Option<UserDoc>)
    ensures r.Some? ==> r.value in users && r.value.id == id
    ensures r.None? <==> forall u :: u in users ==> u.id != id
  {
    if users == [] then None
    else if users[0].id == id then Some(users[0])
    else FindOne(users[1..], id)
  }

  /**
   * The handler after `parseInt`: "User not found" when no document has
   * the id, otherwise the developer page of that document, whatever its
   * profession, together with the document.
   */
  function GeneratePortfolio(users: seq<UserDoc>, id: int): (r: Response<Generated>)
    ensures r.Failure? <==> forall u :: u in users ==> u.id != id
    ensures r.Failure? ==> r.message == UserNotFound
    ensures r.Success? ==> r.body.profile in users && r.body.profile.id == id
    ensures r.Success? ==> r.body.html == BuildDeveloperHtml(r.body.profile)
  {
    var profile := FindOne(users, id);
    if profile.None? then Failure(UserNotFound)
    else Success(Generated(BuildDeveloperHtml(profile.value), profile.value))
  }
}
