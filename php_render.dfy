/**
 * The HTML pages `PortfolioController` builds (api/controllers/PortfolioController.php).
 *
 * Every layout is a sequence of `Piece`s: fixed markup, `htmlspecialchars`
 * output, and the few values the controller concatenates unescaped.  The
 * `render*` helpers build their strings with `.=` in a loop and are methods
 * proved equal to the pieces; the layouts themselves are one concatenation
 * expression each and are functions.
 */
module PhpRenderer {
  import opened Wrappers
  import opened HtmlEscape
  import opened Html
  import opened Store

  // ---------------------------------------------------------------------
  // PHP values

  /** PHP truthiness of a string: "" and "0" are false. */
  predicate Truthy(s: string) {
    s != "" && s != "0"
  }

  /** Truthiness of a nullable column: NULL is false as well. */
  predicate TruthyOpt(v: Option<string>) {
    v.Some? && Truthy(v.value)
  }

  /** `$v ?: $fallback`. */
  function Elvis(v: Option<string>, fallback: string): string {
    if TruthyOpt(v) then v.value else fallback
  }

  /** A nullable column concatenated into a string: NULL reads as "". */
  function NullText(v: Option<string>): string {
    v.GetOr("")
  }

  // ---------------------------------------------------------------------
  // groupSkillsByType

  /** The skills whose `skill_type` is `kind`, in input order. */
  function Bucket(skills: seq<SkillRow>, kind: string): (r: seq<SkillRow>)
    ensures |r| <= |skills|
  {
    if skills == [] then []
    else
      var last := skills[|skills| - 1];
      Bucket(skills[..|skills| - 1], kind) + (if last.data.skill_type == kind then [last] else [])
  }

  /** A bucket holds exactly the skills of its type. */
  lemma {:induction false} BucketMembers(skills: seq<SkillRow>, kind: string)
    ensures forall x :: x in Bucket(skills, kind) <==> x in skills && x.data.skill_type == kind
  {
    if skills != [] {
      var init := skills[..|skills| - 1];
      BucketMembers(init, kind);
      assert skills == init + [skills[|skills| - 1]];
    }
  }

  lemma BucketSnoc(skills: seq<SkillRow>, skill: SkillRow, kind: string)
    ensures Bucket(skills + [skill], kind) == Bucket(skills, kind) + (if skill.data.skill_type == kind then [skill] else [])
  {
    assert (skills + [skill])[..|skills|] == skills;
  }

  const DefaultBuckets: set<string> := {"technical", "soft", "tools"}

  /**
   * `grouped` is the grouping of `skills`: the three fixed buckets are
   * always present, every other `skill_type` met gets a bucket of its own,
   * and each bucket holds exactly the skills of its type in input order.
   */
  ghost predicate GroupingOf(grouped: map<string, seq<SkillRow>>, skills: seq<SkillRow>) {
    && (forall k :: k in grouped <==> k in DefaultBuckets || Bucket(skills, k) != [])
    && (forall k :: k in grouped ==> grouped[k] == Bucket(skills, k))
  }

  /** Appending a skill to its own bucket keeps the grouping exact. */
  lemma GroupingSnoc(grouped: map<string, seq<SkillRow>>, skills: seq<SkillRow>, skill: SkillRow)
    requires GroupingOf(grouped, skills)
    ensures GroupingOf(grouped[skill.data.skill_type := Bucket(skills, skill.data.skill_type) + [skill]], skills + [skill])
  {
    var kind := skill.data.skill_type;
    var next := grouped[kind := Bucket(skills, kind) + [skill]];
    forall k
      ensures k in next <==> k in DefaultBuckets || Bucket(skills + [skill], k) != []
      ensures k in next ==> next[k] == Bucket(skills + [skill], k)
    {
      BucketSnoc(skills, skill, k);
    }
  }

  lemma GroupingStart()
    ensures GroupingOf(map["technical" := [], "soft" := [], "tools" := []], [])
  {
  }

  /** One `foreach` step: the skill at `i` joins its bucket, created if missing. */
  lemma GroupingStep(grouped: map<string, seq<SkillRow>>, skills: seq<SkillRow>, i: nat)
    requires i < |skills| && GroupingOf(grouped, skills[..i])
    ensures var kind := skills[i].data.skill_type;
      GroupingOf(grouped[kind := (if kind in grouped then grouped[kind] else []) + [skills[i]]], skills[..i + 1])
  {
    var kind := skills[i].data.skill_type;
    assert (if kind in grouped then grouped[kind] else []) == Bucket(skills[..i], kind);
    GroupingSnoc(grouped, skills[..i], skills[i]);
    assert skills[..i + 1] == skills[..i] + [skills[i]];
  }

  method GroupSkillsByType(skills: seq<SkillRow>) returns (grouped: map<string, seq<SkillRow>>)
    ensures GroupingOf(grouped, skills)
  {
    grouped := map["technical" := [], "soft" := [], "tools" := []];
    GroupingStart();
    assert skills[..0] == [];
    for i := 0 to |skills|
      invariant GroupingOf(grouped, skills[..i])
    {
      var skill := skills[i];
      var kind := skill.data.skill_type;
      var bucket := if kind in grouped then grouped[kind] else [];
      GroupingStep(grouped, skills, i);
      grouped := grouped[kind := bucket + [skill]];
    }
    assert skills[..|skills|] == skills;
  }

  // ---------------------------------------------------------------------
  // Markup

  /** The three layouts with markup of their own. */
  datatype Layout = Developer | Doctor | Photographer

  /** The section openings of the layouts; each also closes the section before it. */
  datatype Gap =
    | TechnicalSkills | ToolSkills | SoftSkills
    | DeveloperExperience | DeveloperProjects | DeveloperEducation
    | Specializations | DoctorEducation | DoctorExperience
    | PortfolioGallery | Services

  /**
   * Every fixed fragment of markup the controller emits, by name; `Spell`
   * gives its text.  The pieces below hold these names and the user's
   * values, never the markup text itself.
   */
  datatype Markup =
    | NoSkills | NoExperience | NoEducation | NoProjects | NoGallery
    | SkillOpen | SkillClose
    | ExperienceOpen | EducationOpen | TitleToPlace | PlaceToDuration | DateSeparator | DurationEnd
    | DescriptionOpen | GradeOpen | LocationOpen | EntryClose
    | ProjectOpen | TechnologiesOpen | ProjectDurationOpen | ProjectDescriptionOpen | DescriptionToLink
    | LinkOpen | LinkClose | CardClose
    | GalleryOpen | ImageToAlt | AltToCaption | CaptionToDescription | GalleryClose
    | TitleOpen(layout: Layout) | TitleClose(layout: Layout)
    | PhotoOpen | PhotoClose
    | NameOpen(layout: Layout) | SummaryOpen | EmailOpen | PhoneOpen | LocationLine | HeroClose
    | SectionOpen(gap: Gap) | PageClose

  const HeadOpen := "<!DOCTYPE html>\n<html lang=\"en\">\n<head>\n    <meta charset=\"UTF-8\">\n    <meta name=\"viewport\" content=\"width=device-width, initial-scale=1.0\">\n    <title>"
  const FontLink := "</title>\n    <link href=\"https://cdnjs.cloudflare.com/ajax/libs/font-awesome/6.0.0/css/all.min.css\" rel=\"stylesheet\">\n    "
  const BodyOpen := "\n</head>\n<body>\n    <section class=\"hero\">\n        <div class=\"container\">\n            "
  const SectionClose := "\n        </div>\n    </section>\n\n"
  const CategoryClose := "\n                </div>\n                "

  /** The `<style>` block of each layout, abbreviated to its palette. */
  function Style(l: Layout): string {
    match l
    case Developer => "<style>/* developer palette */</style>"
    case Doctor => "<style>/* doctor palette */</style>"
    case Photographer => "<style>/* photographer palette */</style>"
  }

  function TitleSuffix(l: Layout): string {
    match l
    case Developer => " - Developer Portfolio"
    case Doctor => " - Medical Professional"
    case Photographer => " - Photographer"
  }

  function PlainSection(heading: string): string {
    "    <section class=\"section\">\n        <div class=\"container\">\n            <h2>" + heading + "</h2>\n            "
  }

  function ShadedSection(heading: string): string {
    "    <section class=\"section\" style=\"background: #f8f9fa;\">\n        <div class=\"container\">\n            <h2>" + heading + "</h2>\n            "
  }

  function Category(heading: string): string {
    "<div class=\"skill-category\">\n                    <h3>" + heading + "</h3>\n                    "
  }

  function GapText(g: Gap): string {
    match g
    case TechnicalSkills => PlainSection("Skills & Technologies") + "<div class=\"skills-grid\">\n                " + Category("Technical Skills")
    case ToolSkills => CategoryClose + Category("Tools & Technologies")
    case SoftSkills => CategoryClose + Category("Soft Skills")
    case DeveloperExperience => "\n                </div>\n            </div>" + SectionClose + ShadedSection("Professional Experience")
    case DeveloperProjects => SectionClose + PlainSection("Projects")
    case DeveloperEducation => SectionClose + ShadedSection("Education")
    case Specializations => PlainSection("Specializations")
    case DoctorEducation => SectionClose + ShadedSection("Education & Training")
    case DoctorExperience => SectionClose + PlainSection("Professional Experience")
    case PortfolioGallery => PlainSection("Portfolio Gallery") + "<div class=\"gallery\">\n                "
    case Services => "\n            </div>" + SectionClose + ShadedSection("Services")
  }

  function Spell(m: Markup): string {
    match m
    case NoSkills => "<p>No skills listed</p>"
    case NoExperience => "<p>No experience listed</p>"
    case NoEducation => "<p>No education listed</p>"
    case NoProjects => "<p>No projects listed</p>"
    case NoGallery => "<p>No projects to display</p>"
    case SkillOpen => "<span class=\"skill-tag\">"
    case SkillClose => "</span>"
    case ExperienceOpen => "<div class=\"experience-item\">\n                <h3>"
    case EducationOpen => "<div class=\"education-item\">\n                <h3>"
    case TitleToPlace => "</h3>\n                <h4>"
    case PlaceToDuration => "</h4>\n                <p><strong>Duration:</strong> "
    case DateSeparator => " - "
    case DurationEnd => "</p>"
    case DescriptionOpen => "\n                <p>"
    case GradeOpen => "\n                <p><strong>Grade:</strong> "
    case LocationOpen => "</p>\n                <p><strong>Location:</strong> "
    case EntryClose => "</p>\n            </div>"
    case ProjectOpen => "<div class=\"project-card\">\n                <h3>"
    case TechnologiesOpen => "</h3>\n                <p><strong>Technologies:</strong> "
    case ProjectDurationOpen => "</p>\n                <p><strong>Duration:</strong> "
    case ProjectDescriptionOpen => "</p>\n                <p>"
    case DescriptionToLink => "</p>\n                "
    case LinkOpen => "<a href=\""
    case LinkClose => "\" target=\"_blank\">View Project</a>"
    case CardClose => "\n            </div>"
    case GalleryOpen => "<div class=\"gallery-item\">\n                <img src=\""
    case ImageToAlt => "\" alt=\""
    case AltToCaption => "\">\n                <div style=\"padding: 1rem;\">\n                    <h3>"
    case CaptionToDescription => "</h3>\n                    <p>"
    case GalleryClose => "</p>\n                </div>\n            </div>"
    case TitleOpen(l) => HeadOpen + (if l == Doctor then "Dr. " else "")
    case TitleClose(l) => TitleSuffix(l) + FontLink + Style(l) + BodyOpen
    case PhotoOpen => "<img src=\""
    case PhotoClose => "\" alt=\"Profile Photo\" style=\"width: 200px; height: 200px; border-radius: 50%; object-fit: cover; margin-bottom: 2rem; box-shadow: 0 10px 30px rgba(0,0,0,0.3);\">"
    case NameOpen(l) => if l == Developer then "\n            <h1>" else if l == Doctor then "<h1>Dr. " else "<h1>"
    case SummaryOpen => "</h1>\n            <p>"
    case EmailOpen => "</p>\n            <div class=\"contact-info\">\n                <p><i class=\"fas fa-envelope\"></i> "
    case PhoneOpen => "</p>\n                <p><i class=\"fas fa-phone\"></i> "
    case LocationLine => "</p>\n                <p><i class=\"fas fa-map-marker-alt\"></i> "
    case HeroClose => "</p>\n            </div>\n        </div>\n    </section>\n\n"
    case SectionOpen(g) => GapText(g)
    case PageClose => "\n        </div>\n    </section>\n</body>\n</html>"
  }

  type Pieces = seq<Piece<Markup>>

  const PlaceholderImage := "https://via.placeholder.com/400x300"

  // ---------------------------------------------------------------------
  // The list helpers

  function SkillTag(s: SkillRow): Pieces {
    [Tag(SkillOpen), Esc(s.data.skill_name), Tag(SkillClose)]
  }

  /** The duration line shared by experience and education entries; the dates go in unescaped. */
  function DurationLine(start: string, end: string): Pieces {
    [Tag(PlaceToDuration), Raw(start), Tag(DateSeparator), Raw(end), Tag(DurationEnd)]
  }

  /** A falsy end date reads "Present". */
  function ExperienceEntry(e: ExperienceRow): Pieces {
    [Tag(ExperienceOpen), Esc(e.data.job_title), Tag(TitleToPlace), Esc(e.data.company)]
    + DurationLine(e.data.start_date, Elvis(e.data.end_date, "Present"))
    + [Tag(DescriptionOpen), Esc(e.data.description), Tag(EntryClose)]
  }

  /** There is no fallback for the end date: NULL reads as nothing. */
  function EducationEntry(e: EducationRow): Pieces {
    [Tag(EducationOpen), Esc(e.data.degree), Tag(TitleToPlace), Esc(e.data.institution)]
    + DurationLine(e.data.start_date, NullText(e.data.end_date))
    + [Tag(GradeOpen), Esc(e.data.grade), Tag(LocationOpen), Esc(e.data.location), Tag(EntryClose)]
  }

  function ProjectLink(url: Option<string>): Pieces {
    if TruthyOpt(url) then [Tag(LinkOpen), Esc(url.value), Tag(LinkClose)] else []
  }

  /** Name and technologies, then duration and description, of a project card. */
  function CardHead(p: ProjectRow): Pieces {
    [Tag(ProjectOpen), Esc(p.data.project_name), Tag(TechnologiesOpen), Esc(p.data.technologies)]
    + [Tag(ProjectDurationOpen), Esc(p.data.duration), Tag(ProjectDescriptionOpen), Esc(p.data.description), Tag(DescriptionToLink)]
  }

  function ProjectCard(p: ProjectRow): Pieces {
    CardHead(p) + ProjectLink(p.data.project_url) + [Tag(CardClose)]
  }

  function GalleryItem(p: ProjectRow): Pieces {
    [Tag(GalleryOpen), Esc(Elvis(p.data.project_image, PlaceholderImage)), Tag(ImageToAlt), Esc(p.data.project_name),
     Tag(AltToCaption), Esc(p.data.project_name), Tag(CaptionToDescription), Esc(p.data.description), Tag(GalleryClose)]
  }

  function SkillsPieces(skills: seq<SkillRow>): Pieces {
    ListPieces(skills, SkillTag, NoSkills)
  }

  function ExperiencePieces(experience: seq<ExperienceRow>): Pieces {
    ListPieces(experience, ExperienceEntry, NoExperience)
  }

  function EducationPieces(education: seq<EducationRow>): Pieces {
    ListPieces(education, EducationEntry, NoEducation)
  }

  function ProjectsPieces(projects: seq<ProjectRow>): Pieces {
    ListPieces(projects, ProjectCard, NoProjects)
  }

  function GalleryPieces(projects: seq<ProjectRow>): Pieces {
    ListPieces(projects, GalleryItem, NoGallery)
  }

  method RenderSkills(skills: seq<SkillRow>) returns (html: string)
    ensures html == Flatten(SkillsPieces(skills), Spell)
    ensures html == Spell(NoSkills) <==> skills == []
  {
    PlaceholderIffEmpty(skills, SkillTag, SkillOpen, NoSkills, Spell);
    if skills == [] {
      FlattenSingleton(Tag(NoSkills), Spell);
      return Spell(NoSkills);
    }
    html := AppendEach(skills, SkillTag, Spell);
  }

  method RenderExperience(experience: seq<ExperienceRow>) returns (html: string)
    ensures html == Flatten(ExperiencePieces(experience), Spell)
    ensures html == Spell(NoExperience) <==> experience == []
  {
    PlaceholderIffEmpty(experience, ExperienceEntry, ExperienceOpen, NoExperience, Spell);
    if experience == [] {
      FlattenSingleton(Tag(NoExperience), Spell);
      return Spell(NoExperience);
    }
    html := AppendEach(experience, ExperienceEntry, Spell);
  }

  method RenderEducation(education: seq<EducationRow>) returns (html: string)
    ensures html == Flatten(EducationPieces(education), Spell)
    ensures html == Spell(NoEducation) <==> education == []
  {
    PlaceholderIffEmpty(education, EducationEntry, EducationOpen, NoEducation, Spell);
    if education == [] {
      FlattenSingleton(Tag(NoEducation), Spell);
      return Spell(NoEducation);
    }
    html := AppendEach(education, EducationEntry, Spell);
  }

  method RenderProjects(projects: seq<ProjectRow>) returns (html: string)
    ensures html == Flatten(ProjectsPieces(projects), Spell)
    ensures html == Spell(NoProjects) <==> projects == []
  {
    PlaceholderIffEmpty(projects, ProjectCard, ProjectOpen, NoProjects, Spell);
    if projects == [] {
      FlattenSingleton(Tag(NoProjects), Spell);
      return Spell(NoProjects);
    }
    html := AppendEach(projects, ProjectCard, Spell);
  }

  method RenderProjectGallery(projects: seq<ProjectRow>) returns (html: string)
    ensures html == Flatten(GalleryPieces(projects), Spell)
    ensures html == Spell(NoGallery) <==> projects == []
  {
    PlaceholderIffEmpty(projects, GalleryItem, GalleryOpen, NoGallery, Spell);
    if projects == [] {
      FlattenSingleton(Tag(NoGallery), Spell);
      return Spell(NoGallery);
    }
    html := AppendEach(projects, GalleryItem, Spell);
  }

  // ---------------------------------------------------------------------
  // Properties of the list helpers

  /** The skill names in input order. */
  function SkillNames(skills: seq<SkillRow>): (r: seq<string>)
    ensures |r| == |skills|
  {
    if skills == [] then [] else SkillNames(skills[..|skills| - 1]) + [skills[|skills| - 1].data.skill_name]
  }

  lemma {:induction false} JoinSkillSpans(skills: seq<SkillRow>)
    ensures multiset(Join(skills, SkillTag))[Tag(SkillOpen)] == |skills|
  {
    if skills != [] {
      var init, last := skills[..|skills| - 1], skills[|skills| - 1];
      assert skills == init + [last];
      JoinCount(init, last, SkillTag, Tag(SkillOpen));
      JoinSkillSpans(init);
    }
  }

  lemma {:induction false} JoinSkillTexts(skills: seq<SkillRow>)
    ensures Texts(Join(skills, SkillTag)) == SkillNames(skills)
  {
    if skills != [] {
      var init, last := skills[..|skills| - 1], skills[|skills| - 1];
      JoinSkillTexts(init);
      TextsConcat(Join(init, SkillTag), SkillTag(last));
      var a, b, c := Tag(SkillOpen), Esc(last.data.skill_name), Tag(SkillClose);
      assert SkillTag(last) == [] + [a] + [b] + [c];
      TextsSnoc([], a);
      TextsSnoc([a], b);
      TextsSnoc([a, b], c);
      assert [] + [a] == [a];
      assert [a] + [b] == [a, b];
    }
  }

  /**
   * `renderSkills` emits one `skill-tag` span per skill, and the only user
   * text it emits is the skill names, escaped, in input order.
   */
  lemma SkillTagsPerSkill(skills: seq<SkillRow>)
    ensures multiset(SkillsPieces(skills))[Tag(SkillOpen)] == |skills|
    ensures Texts(SkillsPieces(skills)) == SkillNames(skills)
    ensures forall q :: q in SkillsPieces(skills) ==> q.Tag? || q.Esc?
  {
    if skills != [] {
      JoinSkillSpans(skills);
      JoinSkillTexts(skills);
      forall q | q in SkillsPieces(skills) ensures q.Tag? || q.Esc? {
        JoinMember(skills, SkillTag, q);
      }
    }
  }

  /** The duration line spelled by any spelling of the markup. */
  lemma DurationLineSpelled(start: string, end: string, spell: Markup -> string)
    ensures Flatten(DurationLine(start, end), spell)
         == spell(PlaceToDuration) + start + spell(DateSeparator) + end + spell(DurationEnd)
  {
    var p0, p1, p2, p3, p4 := Tag(PlaceToDuration), Raw(start), Tag(DateSeparator), Raw(end), Tag(DurationEnd);
    assert DurationLine(start, end) == [p0] + ([p1] + [p2, p3, p4]);
    FlattenConcat([p0], [p1] + [p2, p3, p4], spell);
    FlattenConcat([p1], [p2, p3, p4], spell);
    FlattenSingleton(p0, spell);
    FlattenSingleton(p1, spell);
    FlattenTriple(p2, p3, p4, spell);
  }

  /** The duration line reads `start - end` followed by the end of the paragraph. */
  lemma DurationLineText(start: string, end: string)
    ensures IsInfix(start + " - " + end + "</p>", Flatten(DurationLine(start, end), Spell))
  {
    DurationLineSpelled(start, end, Spell);
    var t := start + " - " + end + "</p>";
    assert Spell(DateSeparator) == " - " && Spell(DurationEnd) == "</p>";
    assert Flatten(DurationLine(start, end), Spell) == Spell(PlaceToDuration) + t + "";
    InfixConcat(Spell(PlaceToDuration), t, "");
  }

  /** The experience entry shows its dates as `start - end`, with "Present" for a falsy end date (`?:`). */
  lemma ExperienceEndShown(e: ExperienceRow)
    ensures IsInfix(e.data.start_date + " - " + Elvis(e.data.end_date, "Present") + "</p>", Flatten(ExperienceEntry(e), Spell))
    ensures TruthyOpt(e.data.end_date) ==> Raw(e.data.end_date.value) in ExperienceEntry(e)
    ensures !TruthyOpt(e.data.end_date) ==> Raw("Present") in ExperienceEntry(e)
  {
    var head := [Tag(ExperienceOpen), Esc(e.data.job_title), Tag(TitleToPlace), Esc(e.data.company)];
    var line := DurationLine(e.data.start_date, Elvis(e.data.end_date, "Present"));
    var tail := [Tag(DescriptionOpen), Esc(e.data.description), Tag(EntryClose)];
    DurationLineText(e.data.start_date, Elvis(e.data.end_date, "Present"));
    FlattenInfix(head, line, tail, e.data.start_date + " - " + Elvis(e.data.end_date, "Present") + "</p>", Spell);
    assert line[3] in ExperienceEntry(e);
  }

  /** The education entry shows its dates as `start - end`, the end date as it is and nothing for NULL. */
  lemma EducationEndShown(e: EducationRow)
    ensures IsInfix(e.data.start_date + " - " + NullText(e.data.end_date) + "</p>", Flatten(EducationEntry(e), Spell))
    ensures Raw(NullText(e.data.end_date)) in EducationEntry(e)
  {
    var head := [Tag(EducationOpen), Esc(e.data.degree), Tag(TitleToPlace), Esc(e.data.institution)];
    var line := DurationLine(e.data.start_date, NullText(e.data.end_date));
    var tail := [Tag(GradeOpen), Esc(e.data.grade), Tag(LocationOpen), Esc(e.data.location), Tag(EntryClose)];
    DurationLineText(e.data.start_date, NullText(e.data.end_date));
    FlattenInfix(head, line, tail, e.data.start_date + " - " + NullText(e.data.end_date) + "</p>", Spell);
    assert line[3] in EducationEntry(e);
  }

  /** The number of projects whose `project_url` is truthy. */
  function LinkedProjects(projects: seq<ProjectRow>): (n: nat)
    ensures n <= |projects|
  {
    if projects == [] then 0
    else LinkedProjects(projects[..|projects| - 1]) + (if TruthyOpt(projects[|projects| - 1].data.project_url) then 1 else 0)
  }

  lemma LinkCount(url: Option<string>)
    ensures multiset(ProjectLink(url))[Tag(LinkOpen)] == if TruthyOpt(url) then 1 else 0
  {
  }

  lemma CardHeadHasNoLink(p: ProjectRow)
    ensures multiset(CardHead(p))[Tag(LinkOpen)] == 0
  {
    var x := Tag(LinkOpen);
    var a := [Tag(ProjectOpen), Esc(p.data.project_name), Tag(TechnologiesOpen), Esc(p.data.technologies)];
    var b := [Tag(ProjectDurationOpen), Esc(p.data.duration), Tag(ProjectDescriptionOpen), Esc(p.data.description), Tag(DescriptionToLink)];
    CountConcat(a, b, x);
  }

  lemma CardLinks(p: ProjectRow)
    ensures multiset(ProjectCard(p))[Tag(LinkOpen)] == if TruthyOpt(p.data.project_url) then 1 else 0
  {
    var head, link := CardHead(p), ProjectLink(p.data.project_url);
    CountConcat(head + link, [Tag(CardClose)], Tag(LinkOpen));
    CountConcat(head, link, Tag(LinkOpen));
    CardHeadHasNoLink(p);
    LinkCount(p.data.project_url);
  }

  /** 'View Project' links: exactly one per project with a truthy URL, none for the others. */
  lemma {:induction false} ProjectLinks(projects: seq<ProjectRow>)
    ensures multiset(ProjectsPieces(projects))[Tag(LinkOpen)] == LinkedProjects(projects)
  {
    if projects != [] {
      var init, last := projects[..|projects| - 1], projects[|projects| - 1];
      assert projects == init + [last];
      JoinCount(init, last, ProjectCard, Tag(LinkOpen));
      CardLinks(last);
      ProjectLinks(init);
    }
  }

  /** The gallery `src` is the escaped image when truthy, the escaped placeholder image otherwise, never empty. */
  lemma GalleryImageSource(p: ProjectRow)
    ensures GalleryItem(p)[0] == Tag(GalleryOpen) && GalleryItem(p)[1].Esc? && GalleryItem(p)[1].text != ""
    ensures TruthyOpt(p.data.project_image) ==> GalleryItem(p)[1] == Esc(p.data.project_image.value)
    ensures !TruthyOpt(p.data.project_image) ==> GalleryItem(p)[1] == Esc(PlaceholderImage)
  {
  }

  // ---------------------------------------------------------------------
  // The layouts

  /** `<head>` up to the hero's container, with the escaped name in the title. */
  function Head(u: UserRow, l: Layout): Pieces {
    [Tag(TitleOpen(l)), Esc(u.full_name), Tag(TitleClose(l))]
  }

  /** The profile photo, only for a truthy `profile_photo`. */
  function HeroPhoto(photo: string): Pieces {
    if Truthy(photo) then [Tag(PhotoOpen), Esc(photo), Tag(PhotoClose)] else []
  }

  /** Name, summary and contact lines of the hero section. */
  function Hero(u: UserRow, l: Layout): Pieces {
    [Tag(NameOpen(l)), Esc(u.full_name), Tag(SummaryOpen), Esc(u.summary),
     Tag(EmailOpen), Esc(u.email), Tag(PhoneOpen), Esc(u.phone), Tag(LocationLine), Esc(u.location),
     Tag(HeroClose)]
  }

  /** Markup opening a section (and closing the one before it), then the section's content. */
  function Section(g: Gap, body: Pieces): Pieces {
    [Tag(SectionOpen(g))] + body
  }

  function DeveloperPieces(p: Profile): Pieces {
    Head(p.user, Developer)
    + HeroPhoto(p.user.profile_photo)
    + Hero(p.user, Developer)
    + Section(TechnicalSkills, SkillsPieces(Bucket(p.skills, "technical")))
    + Section(ToolSkills, SkillsPieces(Bucket(p.skills, "tools")))
    + Section(SoftSkills, SkillsPieces(Bucket(p.skills, "soft")))
    + Section(DeveloperExperience, ExperiencePieces(p.experience))
    + Section(DeveloperProjects, ProjectsPieces(p.projects))
    + Section(DeveloperEducation, EducationPieces(p.education))
    + [Tag(PageClose)]
  }

  function DoctorPieces(p: Profile): Pieces {
    Head(p.user, Doctor)
    + Hero(p.user, Doctor)
    + Section(Specializations, SkillsPieces(p.skills))
    + Section(DoctorEducation, EducationPieces(p.education))
    + Section(DoctorExperience, ExperiencePieces(p.experience))
    + [Tag(PageClose)]
  }

  function PhotographerPieces(p: Profile): Pieces {
    Head(p.user, Photographer)
    + Hero(p.user, Photographer)
    + Section(PortfolioGallery, GalleryPieces(p.projects))
    + Section(Services, SkillsPieces(p.skills))
    + [Tag(PageClose)]
  }

  /** The builders; none of them reads the template row. */
  function BuildDeveloperPortfolio(p: Profile, template: Option<TemplateRow>): string {
    Flatten(DeveloperPieces(p), Spell)
  }

  function BuildDoctorPortfolio(p: Profile, template: Option<TemplateRow>): string {
    Flatten(DoctorPieces(p), Spell)
  }

  function BuildPhotographerPortfolio(p: Profile, template: Option<TemplateRow>): string {
    Flatten(PhotographerPieces(p), Spell)
  }

  function BuildDefaultPortfolio(p: Profile, template: Option<TemplateRow>): string {
    BuildDeveloperPortfolio(p, template)
  }

  function BuildVideoEditorPortfolio(p: Profile, template: Option<TemplateRow>): string {
    BuildDefaultPortfolio(p, template)
  }

  function BuildMarketingPortfolio(p: Profile, template: Option<TemplateRow>): string {
    BuildDefaultPortfolio(p, template)
  }

  function BuildDesignerPortfolio(p: Profile, template: Option<TemplateRow>): string {
    BuildDefaultPortfolio(p, template)
  }

  function BuildWriterPortfolio(p: Profile, template: Option<TemplateRow>): string {
    BuildDefaultPortfolio(p, template)
  }

  function BuildConsultantPortfolio(p: Profile, template: Option<TemplateRow>): string {
    BuildDefaultPortfolio(p, template)
  }

  /**
   * The `switch` on the profession: doctors and photographers get their own
   * layout, every other profession, listed or not, the developer layout.
   * The result depends on the profile alone.
   */
  function BuildPortfolioHtml(p: Profile, template: Option<TemplateRow>): (html: string)
    ensures p.user.profession == "doctor" ==> html == Flatten(DoctorPieces(p), Spell)
    ensures p.user.profession == "photographer" ==> html == Flatten(PhotographerPieces(p), Spell)
    ensures p.user.profession != "doctor" && p.user.profession != "photographer" ==> html == Flatten(DeveloperPieces(p), Spell)
  {
    match p.user.profession
    case "developer" => BuildDeveloperPortfolio(p, template)
    case "doctor" => BuildDoctorPortfolio(p, template)
    case "photographer" => BuildPhotographerPortfolio(p, template)
    case "video_editor" => BuildVideoEditorPortfolio(p, template)
    case "marketing" => BuildMarketingPortfolio(p, template)
    case "designer" => BuildDesignerPortfolio(p, template)
    case "writer" => BuildWriterPortfolio(p, template)
    case "consultant" => BuildConsultantPortfolio(p, template)
    case _ => BuildDefaultPortfolio(p, template)
  }

  // ---------------------------------------------------------------------
  // Properties of the layouts

  /** Markup of the page frame (head, hero, section openings and page end), as opposed to list markup. */
  predicate FrameMarkup(m: Markup) {
    || m.TitleOpen? || m.TitleClose? || m.PhotoOpen? || m.PhotoClose? || m.NameOpen? || m.SummaryOpen?
    || m.EmailOpen? || m.PhoneOpen? || m.LocationLine? || m.HeroClose? || m.SectionOpen? || m.PageClose?
  }

  /** The skill lists hold list markup and escaped names only. */
  lemma SkillsPiecesKinds(skills: seq<SkillRow>, q: Piece<Markup>)
    requires q in SkillsPieces(skills)
    ensures q.Tag? || q.Esc?
    ensures q.Tag? ==> !FrameMarkup(q.markup)
  {
    if skills != [] {
      JoinMember(skills, SkillTag, q);
    }
  }

  lemma CardKinds(p: ProjectRow, q: Piece<Markup>)
    requires q in ProjectCard(p)
    ensures q.Tag? || q.Esc?
    ensures q.Tag? ==> !FrameMarkup(q.markup)
  {
    if q in CardHead(p) {
    } else if q in ProjectLink(p.data.project_url) {
    } else {
      assert q == Tag(CardClose);
    }
  }

  /** The project cards hold list markup and escaped text only. */
  lemma ProjectsPiecesKinds(projects: seq<ProjectRow>, q: Piece<Markup>)
    requires q in ProjectsPieces(projects)
    ensures q.Tag? || q.Esc?
    ensures q.Tag? ==> !FrameMarkup(q.markup)
  {
    if projects != [] {
      JoinMember(projects, ProjectCard, q);
      var x :| x in projects && q in ProjectCard(x);
      CardKinds(x, q);
    }
  }

  /** The gallery holds list markup and escaped text only. */
  lemma GalleryPiecesKinds(projects: seq<ProjectRow>, q: Piece<Markup>)
    requires q in GalleryPieces(projects)
    ensures q.Tag? || q.Esc?
    ensures q.Tag? ==> !FrameMarkup(q.markup)
  {
    if projects != [] {
      JoinMember(projects, GalleryItem, q);
    }
  }

  /** The experience list holds list markup, escaped text, and the dates unescaped. */
  lemma ExperiencePiecesKinds(experience: seq<ExperienceRow>, q: Piece<Markup>)
    requires q in ExperiencePieces(experience)
    ensures q.Tag? || q.Esc? || q.Raw?
    ensures q.Tag? ==> !FrameMarkup(q.markup)
    ensures q.Raw? ==> exists e :: e in experience && (q.text == e.data.start_date || q.text == Elvis(e.data.end_date, "Present"))
  {
    if experience != [] {
      JoinMember(experience, ExperienceEntry, q);
    }
  }

  /** The education list holds list markup, escaped text, and the dates unescaped. */
  lemma EducationPiecesKinds(education: seq<EducationRow>, q: Piece<Markup>)
    requires q in EducationPieces(education)
    ensures q.Tag? || q.Esc? || q.Raw?
    ensures q.Tag? ==> !FrameMarkup(q.markup)
    ensures q.Raw? ==> exists e :: e in education && (q.text == e.data.start_date || q.text == NullText(e.data.end_date))
  {
    if education != [] {
      JoinMember(education, EducationEntry, q);
    }
  }

  /** The hero photo is emitted in the developer layout exactly when `profile_photo` is truthy. */
  lemma PhotoOnlyWhenTruthy(p: Profile)
    ensures Tag(PhotoOpen) in DeveloperPieces(p) <==> Truthy(p.user.profile_photo)
    ensures Truthy(p.user.profile_photo) ==> Esc(p.user.profile_photo) in DeveloperPieces(p)
  {
    ListsExclude(p, Tag(PhotoOpen));
  }

  /** The doctor layout never shows the profile photo. */
  lemma NoPhotoForDoctor(p: Profile)
    ensures Tag(PhotoOpen) !in DoctorPieces(p)
  {
    ListsExclude(p, Tag(PhotoOpen));
  }

  /** The photographer layout never shows the profile photo. */
  lemma NoPhotoForPhotographer(p: Profile)
    ensures Tag(PhotoOpen) !in PhotographerPieces(p)
  {
    ListsExclude(p, Tag(PhotoOpen));
  }

  /** A piece that is neither list markup, escaped text nor raw text occurs in no list of the profile. */
  lemma ListsExclude(p: Profile, q: Piece<Markup>)
    requires q.Tag? && FrameMarkup(q.markup)
    ensures q !in SkillsPieces(p.skills) && q !in SkillsPieces(Bucket(p.skills, "technical"))
    ensures q !in SkillsPieces(Bucket(p.skills, "tools")) && q !in SkillsPieces(Bucket(p.skills, "soft"))
    ensures q !in ExperiencePieces(p.experience) && q !in EducationPieces(p.education)
    ensures q !in ProjectsPieces(p.projects) && q !in GalleryPieces(p.projects)
  {
    if q in SkillsPieces(p.skills) { SkillsPiecesKinds(p.skills, q); }
    if q in SkillsPieces(Bucket(p.skills, "technical")) { SkillsPiecesKinds(Bucket(p.skills, "technical"), q); }
    if q in SkillsPieces(Bucket(p.skills, "tools")) { SkillsPiecesKinds(Bucket(p.skills, "tools"), q); }
    if q in SkillsPieces(Bucket(p.skills, "soft")) { SkillsPiecesKinds(Bucket(p.skills, "soft"), q); }
    if q in ExperiencePieces(p.experience) { ExperiencePiecesKinds(p.experience, q); }
    if q in EducationPieces(p.education) { EducationPiecesKinds(p.education, q); }
    if q in ProjectsPieces(p.projects) { ProjectsPiecesKinds(p.projects, q); }
    if q in GalleryPieces(p.projects) { GalleryPiecesKinds(p.projects, q); }
  }

  /** An ongoing position (falsy end date) shows "Present" in both layouts that list experience. */
  lemma OngoingPositionShowsPresent(p: Profile, e: ExperienceRow)
    requires e in p.experience && !TruthyOpt(e.data.end_date)
    ensures Raw("Present") in DeveloperPieces(p) && Raw("Present") in DoctorPieces(p)
  {
    ExperienceEndShown(e);
    JoinContains(p.experience, ExperienceEntry, e, Raw("Present"));
  }

  /** The only text the developer layout inserts unescaped is the experience and education dates. */
  lemma DeveloperRawIsDates(p: Profile, q: Piece<Markup>)
    requires q.Raw? && q in DeveloperPieces(p)
    ensures || (exists e :: e in p.experience && (q.text == e.data.start_date || q.text == Elvis(e.data.end_date, "Present")))
            || (exists e :: e in p.education && (q.text == e.data.start_date || q.text == NullText(e.data.end_date)))
  {
    if q in SkillsPieces(Bucket(p.skills, "technical")) { SkillsPiecesKinds(Bucket(p.skills, "technical"), q); }
    if q in SkillsPieces(Bucket(p.skills, "tools")) { SkillsPiecesKinds(Bucket(p.skills, "tools"), q); }
    if q in SkillsPieces(Bucket(p.skills, "soft")) { SkillsPiecesKinds(Bucket(p.skills, "soft"), q); }
    if q in ExperiencePieces(p.experience) { ExperiencePiecesKinds(p.experience, q); }
    if q in EducationPieces(p.education) { EducationPiecesKinds(p.education, q); }
    if q in ProjectsPieces(p.projects) { ProjectsPiecesKinds(p.projects, q); }
  }

  /** The only text the doctor layout inserts unescaped is the experience and education dates. */
  lemma DoctorRawIsDates(p: Profile, q: Piece<Markup>)
    requires q.Raw? && q in DoctorPieces(p)
    ensures || (exists e :: e in p.experience && (q.text == e.data.start_date || q.text == Elvis(e.data.end_date, "Present")))
            || (exists e :: e in p.education && (q.text == e.data.start_date || q.text == NullText(e.data.end_date)))
  {
    if q in SkillsPieces(p.skills) { SkillsPiecesKinds(p.skills, q); }
    if q in ExperiencePieces(p.experience) { ExperiencePiecesKinds(p.experience, q); }
    if q in EducationPieces(p.education) { EducationPiecesKinds(p.education, q); }
  }

  /** The photographer layout inserts nothing unescaped. */
  lemma PhotographerEscapesAll(p: Profile, q: Piece<Markup>)
    requires q.Raw?
    ensures q !in PhotographerPieces(p)
  {
    if q in SkillsPieces(p.skills) { SkillsPiecesKinds(p.skills, q); }
    if q in GalleryPieces(p.projects) { GalleryPiecesKinds(p.projects, q); }
  }
}
