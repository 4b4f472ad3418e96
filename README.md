# Portfolio generator: a verified model of its core

The system stores a professional's profile and turns it into a one-page HTML portfolio. The profile holds:

- contact details, a profession and a summary;
- four child lists: skills, experience, education and projects.

There are two back ends:

- A PHP/MySQL API.
  - `UserController` handles registration, login, and profile read, update and save.
  - The `User` and `PortfolioTemplate` models run the SQL.
  - `PortfolioController` picks a template row and builds the page. Doctors and photographers each get their own layout. Every other profession gets the developer layout.
- A Node service that builds one developer page from a stored document.

This project models both renderers, both HTML escapers, template selection, the users table and its four child tables, and the account and profile-save rules of the MySQL path.

Modules (one file each):

| file | module | models |
|---|---|---|
| `wrappers.dfy` | `Wrappers` | `Option` and `Response`, the `success`/`message` envelope |
| `html_escape.dfy` | `HtmlEscape` | `htmlspecialchars` / `escapeHtml`, its inverse, `escapeAttr` |
| `html.dfy` | `Html` | rendered HTML as a sequence of pieces; the list-rendering loop and its placeholder |
| `ordering.dfy` | `Ordering` | `ORDER BY` as an insertion sort over a total order; byte-wise string order |
| `store.dfy` | `Store` | the tables: rows, `WHERE user_id = u`, the child-table INSERT and DELETE |
| `templates.dfy` | `Templates` | `PortfolioTemplate`: the three queries and `create` |
| `user_model.dfy` | `UserModel` | `User`: lookups, `create`, `update`, `verifyPassword`, `getCompleteProfile` |
| `user_controller.dfy` | `UserControl` | `UserController` on the MySQL path |
| `php_render.dfy` | `PhpRenderer` | the PHP layouts, the `render*` helpers, `groupSkillsByType`, `buildPortfolioHTML` |
| `portfolio_controller.dfy` | `PortfolioControl` | `generatePortfolio`, `getPortfolio`, `getTemplates` |
| `node_render.dfy` | `NodeRenderer` | the Node renderers, `buildDeveloperHTML`, the `/generate-portfolio` route |

## How a page is represented

A rendered page is a sequence of `Piece`s. There are four kinds:

- `Tag(m)` is fixed markup named by `m`. `Spell(m)` gives its text.
- `Esc(t)` is user text passed through `htmlspecialchars` / `escapeHtml`.
- `Attr(t)` is user text passed through Node's `escapeAttr`.
- `Raw(t)` is user text inserted without escaping. This is how both back ends insert dates.

`Flatten(pieces, Spell)` is the string the source concatenates. Working over pieces lets the model state that a part is emitted "only when" a condition holds, or "once per item", by membership and counting. It also lets the model say which text goes out unescaped.

## Behaviour worth noting

The model keeps each of these as the code has it.

- `generatePortfolio` returns the complete profile with its password hash (PortfolioController.php:29-33), while `login` and `getProfile` remove it (UserController.php:89, 103).
- With no active template at all, neither for the profession nor for `developer`, `generatePortfolio` still renders the page: no builder reads the template (PortfolioController.php:22-27, 73-96).
- `groupSkillsByType` gives each skill type other than `technical`, `soft` and `tools` a bucket of its own (PortfolioController.php:305). The developer layout shows only the three fixed buckets, so skills of other types are not shown.
- `saveCompleteProfile` deletes and then inserts with no transaction (UserController.php:143-204). A statement that throws part-way leaves the earlier sections replaced and the current one partly written. The method bodies follow this order; their contracts say only that other users' rows are untouched in that case.

## Model

| member | source | states |
|---|---|---|
| HtmlEscape.EscapeIsEscaped | node-api/src/index.js:148-150 | escaped text holds no `<`, `>`, `"` or `'`, and every `&` in it begins one of `&amp; &lt; &gt; &quot; &#039;` |
| HtmlEscape.UnescapeEscape | node-api/src/index.js:148-150 | escaping loses nothing: decoding the five entities gives the input back |
| HtmlEscape.EscapeConcat | node-api/src/index.js:149 | escaping distributes over concatenation, because it works one character at a time |
| HtmlEscape.EscapeIdentity | node-api/src/index.js:149 | a string with none of the five special characters is unchanged |
| HtmlEscape.EscapeAttrIsEscape | node-api/src/index.js:151 | `escapeAttr(s) == escapeHtml(s)` for every `s`, because the second `"` replacement never matches |
| Html.AppendEach | api/controllers/PortfolioController.php:313-317 | the `$html .= …` loop yields each item's rendering concatenated in list order |
| Html.PlaceholderIffEmpty | api/controllers/PortfolioController.php:311 | a list renderer's output equals its placeholder exactly when the list is empty, when every item opens with markup longer than the placeholder |
| PhpRenderer.GroupSkillsByType | api/controllers/PortfolioController.php:302-308 | the buckets `technical`, `soft` and `tools` are always present; every other type met gets its own bucket; each bucket holds exactly the skills of its type, in input order |
| PhpRenderer.BucketMembers | api/controllers/PortfolioController.php:305 | a skill is in the bucket for `kind` if and only if its `skill_type` is `kind` |
| PhpRenderer.RenderSkills | api/controllers/PortfolioController.php:310-318 | the loop's output is the skill pieces flattened; it is 'No skills listed' if and only if there are no skills |
| PhpRenderer.RenderExperience | api/controllers/PortfolioController.php:320-333 | the loop's output is the experience pieces flattened; it is 'No experience listed' if and only if the list is empty |
| PhpRenderer.RenderEducation | api/controllers/PortfolioController.php:335-349 | the loop's output is the education pieces flattened; it is 'No education listed' if and only if the list is empty |
| PhpRenderer.RenderProjects | api/controllers/PortfolioController.php:351-365 | the loop's output is the project cards flattened; it is 'No projects listed' if and only if the list is empty |
| PhpRenderer.RenderProjectGallery | api/controllers/PortfolioController.php:367-382 | the loop's output is the gallery items flattened; it is 'No projects to display' if and only if the list is empty |
| PhpRenderer.SkillTagsPerSkill | api/controllers/PortfolioController.php:313-317 | one `skill-tag` span per skill; the only user text is the skill names, escaped, in input order |
| PhpRenderer.DurationLineText | api/controllers/PortfolioController.php:328 | the duration line contains `start - end</p>` |
| PhpRenderer.ExperienceEndShown | api/controllers/PortfolioController.php:328 | an experience entry shows `start - end`; the end is the date itself when truthy and "Present" when it is NULL, "" or "0" |
| PhpRenderer.EducationEndShown | api/controllers/PortfolioController.php:343 | an education entry shows `start - end` with no fallback; a NULL end date reads as nothing |
| PhpRenderer.CardLinks | api/controllers/PortfolioController.php:361 | a project card holds one 'View Project' link when `project_url` is truthy and none otherwise |
| PhpRenderer.ProjectLinks | api/controllers/PortfolioController.php:351-365 | the number of links equals the number of projects with a truthy `project_url` |
| PhpRenderer.GalleryImageSource | api/controllers/PortfolioController.php:373 | the gallery `src` is the escaped image when truthy, else the escaped placeholder URL; never empty |
| PhpRenderer.BuildPortfolioHtml | api/controllers/PortfolioController.php:73-96 | profession `doctor` gives the doctor layout and `photographer` the photographer layout; every other value, including the five stub professions and unknown strings, gives exactly the developer layout |
| PhpRenderer.PhotoOnlyWhenTruthy | api/controllers/PortfolioController.php:129 | the developer hero `<img>` is present if and only if `profile_photo` is truthy, and then its `src` is the escaped value |
| PhpRenderer.NoPhotoForDoctor | api/controllers/PortfolioController.php:185-243 | the doctor layout never shows the photo |
| PhpRenderer.NoPhotoForPhotographer | api/controllers/PortfolioController.php:245-300 | the photographer layout never shows the photo |
| PhpRenderer.SkillsPiecesKinds | api/controllers/PortfolioController.php:310-318 | skill lists hold only list markup and escaped names |
| PhpRenderer.CardKinds | api/controllers/PortfolioController.php:356-362 | a project card holds only list markup and escaped text |
| PhpRenderer.ProjectsPiecesKinds | api/controllers/PortfolioController.php:351-365 | the project list holds only list markup and escaped text |
| PhpRenderer.GalleryPiecesKinds | api/controllers/PortfolioController.php:367-382 | the gallery holds only list markup and escaped text |
| PhpRenderer.ExperiencePiecesKinds | api/controllers/PortfolioController.php:320-333 | the experience list holds list markup and escaped text; its only unescaped text is an entry's start date or displayed end date |
| PhpRenderer.EducationPiecesKinds | api/controllers/PortfolioController.php:335-349 | the education list holds list markup and escaped text; its only unescaped text is an entry's dates |
| PhpRenderer.ListsExclude | api/controllers/PortfolioController.php:310-382 | no list helper emits page-frame markup (head, hero, photo, section openings, page end) |
| PhpRenderer.OngoingPositionShowsPresent | api/controllers/PortfolioController.php:320-333 | a position with a falsy end date puts "Present" in both the developer and the doctor page |
| PhpRenderer.DeveloperRawIsDates | api/controllers/PortfolioController.php:99-183 | the only unescaped text in the developer page is experience and education dates |
| PhpRenderer.DoctorRawIsDates | api/controllers/PortfolioController.php:185-243 | the only unescaped text in the doctor page is experience and education dates |
| PhpRenderer.PhotographerEscapesAll | api/controllers/PortfolioController.php:245-300 | the photographer page inserts no text unescaped |
| NodeRenderer.Or | node-api/src/index.js:138 | `a \|\| b` on fields is truthy if and only if one of them is; it is `a` when `a` is truthy and `b` otherwise |
| NodeRenderer.EscapeField | node-api/src/index.js:149 | a falsy value escapes to ''; a truthy value escapes losslessly; the result is always escaped |
| NodeRenderer.TagsPlaceholderIffEmpty | node-api/src/index.js:100-103 | `renderTags` returns 'No items listed' if and only if the list is missing or empty |
| NodeRenderer.ExperiencePlaceholderIffEmpty | node-api/src/index.js:105-115 | `renderExperience` returns its placeholder if and only if the list is missing or empty |
| NodeRenderer.EducationPlaceholderIffEmpty | node-api/src/index.js:117-128 | `renderEducation` returns its placeholder if and only if the list is missing or empty |
| NodeRenderer.ProjectsPlaceholderIffEmpty | node-api/src/index.js:130-141 | `renderProjects` returns its placeholder if and only if the list is missing or empty |
| NodeRenderer.TagSpansPerItem | node-api/src/index.js:100-103 | a non-empty list gives one span per item, whose escaped labels are the items' labels in order; only markup and escaped text occur |
| NodeRenderer.TagLabelChoice | node-api/src/index.js:102 | the label is a plain string itself, else a truthy `name`, else a truthy `skill_name`, else "[object Object]" |
| NodeRenderer.DurationLineText | node-api/src/index.js:111 | the duration line contains `start - end` |
| NodeRenderer.ExperienceEntryShown | node-api/src/index.js:107-114 | the heading is `title \|\| job_title \|\| ''`, escaped; the dates read `start - end`, with "Present" for a falsy end date |
| NodeRenderer.EducationEntryShown | node-api/src/index.js:119-127 | the dates read `start - end`; a falsy end date reads as nothing |
| NodeRenderer.CardLink | node-api/src/index.js:138 | a card holds one link when `url \|\| project_url` is truthy and none otherwise |
| NodeRenderer.CardLinkTarget | node-api/src/index.js:138 | the link's `href` goes through `escapeAttr`; it is `url` when truthy, else `project_url` |
| NodeRenderer.ProjectLinks | node-api/src/index.js:130-141 | the number of links equals the number of projects with a truthy `url \|\| project_url` |
| NodeRenderer.MissingSkillsPlaceholders | node-api/src/index.js:144-145 | missing `skills` reads as three empty buckets: one 'No items listed' placeholder under each of the three headings |
| NodeRenderer.TitleFallback | node-api/src/index.js:145 | the page opens with a `<title>` holding the escaped `full_name`, or "Portfolio" when it is falsy |
| NodeRenderer.TagsPiecesKinds | node-api/src/index.js:100-103 | skill buckets hold only list markup and escaped labels |
| NodeRenderer.ExperiencePiecesKinds | node-api/src/index.js:105-115 | the experience list's only unescaped text is an entry's start date or displayed end date |
| NodeRenderer.EducationPiecesKinds | node-api/src/index.js:117-128 | the education list's only unescaped text is an entry's dates |
| NodeRenderer.ProjectsPiecesKinds | node-api/src/index.js:130-141 | the project list holds list markup and escaped text; its only attribute text is a card's truthy link target |
| NodeRenderer.PhotoOnlyWhenTruthy | node-api/src/index.js:145 | the `<img>` is present if and only if `profile_photo` is truthy, and then its `src` is that value through `escapeAttr` |
| NodeRenderer.RawIsDates | node-api/src/index.js:143-146 | the only unescaped text in the page is experience and education dates |
| NodeRenderer.AttrIsPhotoOrLink | node-api/src/index.js:143-146 | the only attribute text is the truthy photo and the truthy project link targets |
| NodeRenderer.PageIgnoresProfession | node-api/src/index.js:143-146 | the page is the same whatever the profession |
| NodeRenderer.FindOne | node-api/src/index.js:78 | the lookup finds a stored document with that id if and only if one exists |
| NodeRenderer.GeneratePortfolio | node-api/src/index.js:75-85 | 'User not found' if and only if no document has the id; otherwise the developer page of that document, together with the document |
| Ordering.SortBy | api/models/User.php:110-128 | the result is a permutation of the input, sorted under any total order |
| Templates.GetByProfession | api/models/PortfolioTemplate.php:18-28 | the active row of that profession with the smallest id; nothing if and only if there is no active row of that profession |
| Templates.GetDefault | api/models/PortfolioTemplate.php:30-39 | the active `developer` row with the smallest id; nothing if and only if there is none |
| Templates.GetAll | api/models/PortfolioTemplate.php:41-50 | exactly the active rows, as a multiset, ordered by profession and then template name |
| Templates.SelectionSurvivesInsert | api/models/PortfolioTemplate.php:18-28 | once a profession has an active template, inserting a later row does not change which one is selected |
| Templates.PortfolioTemplate.Create | api/models/PortfolioTemplate.php:52-65 | appends exactly one row carrying the object's four fields under the next id; a failing statement changes nothing |
| Store.PasswordHash | api/models/User.php:33 | the stored hash is never the plaintext |
| Store.OwnedByMembers | api/models/User.php:103-107 | `WHERE user_id = u` keeps exactly the rows of `u` |
| Store.OthersMembers | api/models/Skill.php:33-38 | deleting the rows of `u` keeps exactly the rows of every other user |
| Store.OthersOwnNothing | api/models/Skill.php:33-38 | after the delete, `u` owns no row, and a second delete changes nothing |
| Store.AppendOwned | api/models/Skill.php:18-31 | an insert for `u` appends to `u`'s rows and leaves other users' rows alone |
| Store.ChildTable.Insert | api/models/Skill.php:18-31 | appends exactly one row for the user under a fresh id |
| Store.ChildTable.DeleteByUserId | api/models/Skill.php:33-38 | removes every row of the user and no other row |
| UserModel.GetByEmail | api/models/User.php:53-59 | a row with that e-mail address, or nothing if and only if there is none |
| UserModel.GetById | api/models/User.php:62-68 | a row with that id, or nothing if and only if there is none |
| UserModel.UpdateWhereKeepsKeys | api/models/User.php:71-90 | the UPDATE rewrites the seven profile columns of the rows with that id, leaves every other row alone, and never changes an id, e-mail address or password hash |
| UserModel.User.Create | api/models/User.php:24-50 | overwrites `password` with its hash and inserts the object as a new row under the next id, against which the plaintext verifies; a duplicate e-mail address (failing with a message that quotes it) or a failing statement inserts nothing |
| UserModel.User.Update | api/models/User.php:71-90 | the users table becomes the UPDATE of the object's row with its seven columns; a failing statement changes nothing |
| UserModel.User.GetCompleteProfile | api/models/User.php:98-131 | nothing if and only if no user has the id; otherwise that user's row and a permutation of their rows of each child table, with experience and education by start date newest first and projects by id newest first |
| UserModel.User.ProfileRowsOwned | api/models/User.php:102-128 | each child list holds exactly the user's rows of that table |
| UserModel.User.ProjectsNewestFirst | api/models/User.php:123-128 | project ids strictly decrease down the list |
| UserModel.User.ProfileUserIsTheRow | api/models/User.php:98-100 | the base row is the stored row with that id |
| UserControl.SkillOf | api/controllers/UserController.php:151-155 | a stored skill takes its name and type from the entry, and its level from the entry or 50 |
| UserControl.GroupSkills | api/controllers/UserController.php:149-157 | an array group stores one row per entry, in order; any other value stores none |
| UserControl.SkillKeysIgnored | api/controllers/UserController.php:148 | the group keys play no part in what is stored |
| UserControl.FlattenedSkillsFromEntries | api/controllers/UserController.php:148-158 | every stored skill comes from one entry of one array group, its type from the entry and not the key |
| UserControl.ExperienceOf | api/controllers/UserController.php:165-171 | the stored job title is the entry's `title`; company, start and end dates and description are copied from the entry's keys of those names; `is_current` defaults to false |
| UserControl.EducationOf | api/controllers/UserController.php:180-186 | the stored education row carries the entry's degree, institution, start and end dates, grade and location |
| UserControl.ProjectOf | api/controllers/UserController.php:195-201 | the stored project takes its name, URL and image from `name`, `url` and `image`, and its technologies, duration and description from the keys of those names |
| UserControl.InsertAll | api/controllers/UserController.php:164-173 | one insert per item, in order, so the user's rows grow by exactly the items; stops at the first insert that throws |
| UserControl.ReplaceRows | api/controllers/UserController.php:162-174 | delete then insert: the user's rows become exactly the items, and other users' rows stay |
| UserControl.ReplaceSkills | api/controllers/UserController.php:144-159 | the user's skills become exactly the flattened array groups, in group-then-entry order |
| UserControl.Section | api/controllers/UserController.php:161-204 | a section whose key is absent changes nothing; one whose key is set replaces the user's rows with the items |
| UserControl.SaveSections | api/controllers/UserController.php:143-204 | the four sections in order: with no failing statement, each present key's rows are replaced and each absent key's rows are untouched; a failing statement returns its message |
| UserControl.RegisteredRow | api/controllers/UserController.php:56-64 | the registered row carries the name, e-mail address, profession and hashed password, and each of phone, location, website, profile_photo and summary as given or '' when absent |
| UserControl.ColumnsOf | api/controllers/UserController.php:116-122 | the columns written by `updateProfile`: name and profession as given, and each of phone, location, website, profile_photo and summary as given or '' when absent |
| UserControl.RegisteredUserCanLogIn | api/controllers/UserController.php:87-92 | after a registration, looking up the address finds the new row and the password verifies |
| UserControl.UserController.Register | api/controllers/UserController.php:34-74 | an e-mail address already stored gives 'Email already exists' and adds no row; otherwise exactly the registered row is appended under the next id, unless the statement throws, which returns its message |
| UserControl.UserController.Login | api/controllers/UserController.php:77-96 | success if and only if the address is stored and the password verifies, returning the row without its password; otherwise 'Invalid credentials' |
| UserControl.UserController.GetProfile | api/controllers/UserController.php:99-110 | 'User not found' if and only if no user has the id; otherwise the complete profile with the password removed |
| UserControl.UserController.UpdateProfile | api/controllers/UserController.php:113-131 | the users table becomes the UPDATE of that user's seven columns, and 'Profile updated successfully' is returned; a failing statement returns its message and changes nothing |
| UserControl.UserController.SaveCompleteProfile | api/controllers/UserController.php:134-210 | success if and only if no child statement throws, whatever the profile update did; present keys are replaced, absent keys and other users' rows untouched |
| PortfolioControl.ChooseTemplate | api/controllers/PortfolioController.php:22-25 | what `getByProfession` returns (the lowest-id active row of the profession) when there is one, else what `getDefault` returns; nothing only when neither has an active row |
| PortfolioControl.UnknownProfessionFallsBack | api/controllers/PortfolioController.php:22-25 | a profession with no active template gets the lowest-id active `developer` template |
| PortfolioControl.PageIgnoresTemplate | api/controllers/PortfolioController.php:73-96 | the page does not depend on the chosen template |
| PortfolioControl.PortfolioController.GeneratePortfolio | api/controllers/PortfolioController.php:15-37 | 'User not found' if and only if no user has the id; otherwise the layout chosen by the profession, with the complete profile |
| PortfolioControl.PortfolioController.GetPortfolio | api/controllers/PortfolioController.php:40-60 | 'User not found' if and only if no user has the id; otherwise the profile with the template chosen for its profession |
| PortfolioControl.PortfolioController.GetTemplates | api/controllers/PortfolioController.php:63-70 | every active template and no other, ordered by profession and then name |

## Left out

- Markup: the CSS of each layout is abbreviated to a short `<style>` naming its palette. Other fixed markup is a constant per name that keeps the source's whitespace; only the CSS is abbreviated. HTML parsing and well-formedness are not modelled.
- `htmlspecialchars` is modelled with the default flags of PHP 8.1 and later: `'` becomes `&#039;` and every `&` is re-encoded. `ENT_SUBSTITUTE` handling of invalid UTF-8 is not modelled.
- `password_hash` and `password_verify` are foreign cryptography. They are replaced by a deterministic stand-in, `PasswordHash(p) = "$2y$" + p`, and verification checks equality with it. Salting is not modelled.
- Database access is modelled on in-memory sequences. Connections, `api/config/database.php`, `deploy.php` and the schema are not part of this model.
- A statement that throws is an oracle parameter: `sqlError` for the single INSERT or UPDATE of a call, and `Fault` for the one numbered child statement of `saveCompleteProfile`.
- The connection uses `ERRMODE_EXCEPTION`, so a failing `execute()` throws. As a result, the 'Failed to register user' and 'Failed to update profile' branches are unreachable and have no counterpart in the model.
- The e-mail column is taken to have a unique key, as `register`'s check assumes. An insert with a duplicate address fails with MySQL's duplicate-entry message, which quotes the address; the key name in it (`users.email`) depends on the schema, which is not part of this model.
- PortfolioControl.PortfolioController.GeneratePortfolio: does not model a failing SELECT, which the `catch` turns into its message. The same holds for `GetPortfolio`, `GetTemplates`, `UserController.GetProfile` and `UserController.Login`. Their reads are functions of the tables.
- The three template queries, `getByEmail`, `getById` and `getCompleteProfile` are functions of the tables. They leave the tables unchanged, and two calls with no write between them agree.
- Templates.GetAll: `ORDER BY profession, template_name` is modelled with a binary collation (character-code order, case-sensitive). The schema is not part of this model; under MySQL's default case-insensitive collations the order can differ, e.g. ("Zeta", "alpha") comes back with "alpha" first. The same goes for `GetTemplates`.
- UserModel.GetByEmail: the equality lookups `WHERE email =` and `WHERE profession =` (also in `Templates.GetByProfession`, `Templates.GetDefault` and `register`'s duplicate check) compare strings exactly. Under a case-insensitive collation `register` would also reject "A@x.com" when "a@x.com" is stored; the model accepts it.
- UserModel.User.GetCompleteProfile: only sortedness and permutation are promised for the ordered lists. The order among equal `start_date`s and the order of the unsorted skills are left open, as collation and tie order are unspecified. `ORDER BY start_date DESC` is modelled as a descending binary comparison of the `start_date` text. This agrees with the DATE order only for zero-padded `YYYY-MM-DD` text, which is what the model assumes the column holds.
- Request bodies: keys that `register`, `updateProfile` and `saveCompleteProfile` read without `??` are taken to be present strings. PHP would read a missing key as NULL with a warning.
- `api/models/Skill.php`, `Experience.php`, `Education.php` and `Project.php` are modelled once, as the generic `Store.ChildTable`. `Insert` is their `create()` and `DeleteByUserId` is their `deleteByUserId()`.
- The Mongo back end of the PHP code (`UserMongo.php` and the Mongo branches of `UserController`) is not part of this model. Only the MySQL path is modelled.
- Node: the register, save-profile, profile and upload handlers and the Express and mongoose wiring are not modelled. Neither are ids built from `Date.now()`. The `/generate-portfolio` handler is modelled from the parsed id onward: `parseInt` is replaced by an integer parameter.
- Node values: document fields are strings or missing/null. Numbers, dates and other JavaScript values are not modelled. A skill item is a string or an object with `name`/`skill_name`. An object with neither label prints "[object Object]", as the code does.
- Request routing in `api/index.php`, uploads in `api/upload.php` and the front end in `script.js` are not part of this model.
- `saveCompleteProfile` deletes and then re-inserts with no transaction. The method bodies keep this order of statements. When a statement throws, the contracts of `SaveSections` and `SaveCompleteProfile` state only that other users' rows are untouched and that the message is returned; they do not describe how far the user's own sections got.
