# Creative-agency site: verified model of its page logic

The site is a React front end for a creative agency. Its client pages describe the
agency's work and take quote requests and messages. Its editor pages list jobs, take a CV
upload and let an editor keep a profile. Most of the code is markup. This project models
the logic inside six pages:

- **Job board** (`JobListings`): four predicates combined with AND select postings in
  list order. They are a case-insensitive search over title, company and description; a
  category selector; an employment-type selector; and a location selector with the
  special value `remote`. The module also has the reset button and the "first three
  requirements, and N more" preview.
- **Portfolio** (`Portfolio`): `all` shows every item. Any other filter shows the items
  of that category, in list order. A message appears when nothing is left.
- **CV upload** (`CVUpload`): a form record with one checkbox field. A file check looks
  at the declared MIME type first and then the size, with a 5 MiB limit. There is a
  "Remove file" button, and submitting does not clear the form.
- **Editor profile** (`EditorProfile`): a committed profile and a draft. Edit mode copies
  the profile into the draft, and leaving edit mode commits the draft. There are add,
  update and remove actions on the experience, education and certification lists. The
  skills input is a comma-separated text that is parsed and shown again with
  `join(', ')`.
- **Quote request and contact forms** (`GetQuote`, `Contact`): single-field updates, and
  a submit that resets the record to fixed defaults.

Shared modules: `Seqs` holds the stable filter (`Array.prototype.filter`) and its
characterisation. `Text` models `toLowerCase`, `includes`, `trim`, `split` and `join`.
`Forms` models the `{ ...prev, [name]: value }` update. `Categories` holds the
web/thumbnail/video enumeration. `Wrappers` holds `Option`.

Pages whose state the source updates through React state cells are classes whose fields
are those cells: `JobBoard`, `CVUploadPage`, `ProfileEditor`, `QuotePage` and
`ContactPage`. The filters, the file check, the list edits and the skills parser are
functions, and lemmas state their properties.

Three behaviours of the code are worth stating:

- The location selector `remote` matches remote postings. Because the substring test
  also applies, it matches any posting whose location contains "remote" as well.
- The file check reports the source's two message strings rather than an abstract
  rejection reason.
- Update and remove act on every record with the given identifier, not on a single
  record.

## Model

| member | source | states |
|---|---|---|
| `Seqs.Filter` | src/pages/editor/JobListings.tsx:150 | the result is a subsequence of the input; it holds exactly the input elements that pass the test and is never longer |
| `Seqs.FilterUnique` | src/pages/client/Portfolio.tsx:100 | any subsequence that holds only passing elements, each as often as the input does, is the filter's result, so the filter keeps every match in original order |
| `Seqs.FilterCount` | src/pages/client/Portfolio.tsx:100 | the filter keeps each passing element as many times as the input holds it and drops every other element |
| `Seqs.FilterAllPass` | src/pages/editor/JobListings.tsx:150 | when every element passes, the filter returns the input unchanged |
| `Seqs.FilterNonePass` | src/pages/client/Portfolio.tsx:210 | when no element passes, the filter returns the empty list |
| `Seqs.FilterConcat` | src/pages/editor/EditorProfile.tsx:140 | filtering a concatenation equals concatenating the filtered parts |
| `Seqs.FilterCongruent` | src/pages/editor/JobListings.tsx:150-168 | two tests that agree on every element select the same elements |
| `Text.Includes` | src/pages/editor/JobListings.tsx:152 | `includes` holds exactly when the needle occurs at some position of the haystack |
| `Text.LowerChar` | src/pages/editor/JobListings.tsx:152-165 | `toLowerCase` on one character: a capital A-Z becomes its small letter, any other character is kept, and no capital remains |
| `Text.Lower` | src/pages/editor/JobListings.tsx:152-165 | `toLowerCase` on a string keeps the length, lowers each character, and leaves no capital |
| `Text.LowerIdempotent` | src/pages/editor/JobListings.tsx:152-165 | lowering an already lowered string changes nothing |
| `Text.IncludesIgnoringCase` | src/pages/editor/JobListings.tsx:152-154 | the case-insensitive test holds exactly when the lowered needle occurs in the lowered haystack |
| `Text.Trim` | src/pages/editor/EditorProfile.tsx:107 | `trim` returns an unbroken stretch of its input with only white space before and after it, and the stretch has no white space at either end; so only white space is removed, and only from the two ends |
| `Text.Split` | src/pages/editor/EditorProfile.tsx:107 | `split` gives at least one piece; no piece holds the separator; joining the pieces with the separator gives the input back |
| `Text.SplitJoin` | src/pages/editor/EditorProfile.tsx:107 | splitting a join of separator-free pieces gives the pieces back |
| `Text.Join` | src/pages/editor/EditorProfile.tsx:411 | `parts.join(sep)`; its meaning is stated by `Text.Split` (joining the pieces of a split gives the text back), `Text.SplitJoin` (splitting a join gives the pieces back) and `EditorProfile.JoinAppend` (one more entry adds the separator and that entry) |
| `Categories.Parse` | src/pages/editor/JobListings.tsx:16 | a selector string reads as the category with that name, and as no category when no category has that name |
| `JobListings.ParseType` | src/pages/editor/JobListings.tsx:15 | a selector string reads as the employment type with that name, and as none when no type has that name |
| `JobListings.SearchMatch` | src/pages/editor/JobListings.tsx:152-154 | the search matches exactly when the lowered term occurs in the lowered title, company or description; the empty term matches every posting |
| `JobListings.CategoryMatch` | src/pages/editor/JobListings.tsx:157 | the category test holds exactly when the selector is `all` or names the posting's category |
| `JobListings.TypeMatch` | src/pages/editor/JobListings.tsx:160 | the type test holds exactly when the selector is `all` or names the posting's employment type |
| `JobListings.LocationMatch` | src/pages/editor/JobListings.tsx:163-165 | the location test holds exactly when the selector is `all`, or it is `remote` and the posting is remote, or the lowered selector occurs in the lowered location |
| `JobListings.Matches` | src/pages/editor/JobListings.tsx:167 | a posting passes exactly when the search term occurs in its title, company or description, the category and type selectors are `all` or name its category and type, and the location selector is `all`, or `remote` for a remote posting, or occurs in its location, all ignoring case |
| `JobListings.FilterJobs` | src/pages/editor/JobListings.tsx:150-168 | the listing is a subsequence of the postings, so it is never longer than the full list; a posting is listed if and only if all four tests hold |
| `JobListings.FilterJobsCount` | src/pages/editor/JobListings.tsx:150-168 | the listing keeps every occurrence of a matching posting and no other posting |
| `JobListings.InitialShowsAll` | src/pages/editor/JobListings.tsx:144-168 | with search `''` and all three selectors `all`, the listing is the full list in the same order |
| `JobListings.CategoryOnly` | src/pages/editor/JobListings.tsx:157 | choosing only a category lists exactly the postings of that category, in order |
| `JobListings.UnknownCategoryShowsNothing` | src/pages/editor/JobListings.tsx:157 | a category selector that is neither `all` nor a category name lists nothing |
| `JobListings.UnknownTypeShowsNothing` | src/pages/editor/JobListings.tsx:160 | a type selector that is neither `all` nor a type name lists nothing |
| `JobListings.RemoteSelector` | src/pages/editor/JobListings.tsx:163-165 | the `remote` selector accepts a posting exactly when it is remote or its lowered location contains "remote" |
| `JobListings.PreviewRequirements` | src/pages/editor/JobListings.tsx:511-516 | a card shows the first min(3, n) requirements and an "And n-3 more" line exactly when n > 3; together they account for all n |
| `JobListings.JobBoard.constructor` | src/pages/editor/JobListings.tsx:144-147 | the page starts with search `''` and every selector `all`, so the full list is shown |
| `JobListings.JobBoard.SetSearchTerm` | src/pages/editor/JobListings.tsx:199 | the search input changes the search term and no other criterion |
| `JobListings.JobBoard.SetCategoryFilter` | src/pages/editor/JobListings.tsx:245-287 | a category radio button changes the category selector and no other criterion |
| `JobListings.JobBoard.SetTypeFilter` | src/pages/editor/JobListings.tsx:309-357 | a type radio button changes the type selector and no other criterion |
| `JobListings.JobBoard.SetLocationFilter` | src/pages/editor/JobListings.tsx:376-424 | a location radio button changes the location selector and no other criterion |
| `JobListings.JobBoard.ResetFilters` | src/pages/editor/JobListings.tsx:171-176 | after a reset the search is `''` and every selector is `all`, so the full list is shown again |
| `Portfolio.FilteredItems` | src/pages/client/Portfolio.tsx:98-100 | `all` returns the items unchanged; any other filter returns a subsequence of the items that holds exactly those whose category the filter names |
| `Portfolio.FilteredItemsCount` | src/pages/client/Portfolio.tsx:100 | for a filter other than `all`, every occurrence of an item of the named category is kept and nothing else |
| `Portfolio.InitiallyAllShown` | src/pages/client/Portfolio.tsx:95-99 | with the initial filter every item is shown, in order |
| `Portfolio.CategoriesPartition` | src/pages/client/Portfolio.tsx:98-100 | the `web`, `thumbnail` and `video` views together hold every item exactly once, counted as multisets and as lengths |
| `Portfolio.ShowsEmptyMessage` | src/pages/client/Portfolio.tsx:210 | the "no items" message appears exactly when every item fails the filter; for an empty list this includes `all` |
| `CVUpload.InitialForm` | src/pages/editor/CVUpload.tsx:10-24 | the form starts with its thirteen fields: specialization `web`, availability `full-time`, relocate `false`, every other field `''` |
| `CVUpload.EventValue` | src/pages/editor/CVUpload.tsx:34-39 | a checkbox stores its checked state as a boolean; any other input stores its text |
| `CVUpload.CheckFile` | src/pages/editor/CVUpload.tsx:48-59 | a file is accepted exactly when its type is one of the three and its size is at most 5 x 1024 x 1024; the type message appears exactly for a wrong type, whatever the size; the size message appears exactly for an accepted type that is too large |
| `CVUpload.CheckExamples` | src/pages/editor/CVUpload.tsx:48-62 | concrete verdicts: a 4 MB PDF is accepted, a PNG gets the type message at any size, a 6 MB PDF gets the size message, and exactly 5 MiB is accepted while one byte more is not |
| `CVUpload.CVUploadPage.constructor` | src/pages/editor/CVUpload.tsx:10-28 | the page starts with the initial form, no file and no error message |
| `CVUpload.CVUploadPage.HandleChange` | src/pages/editor/CVUpload.tsx:31-40 | only the named form field changes, to the event's value; the file and the message stay |
| `CVUpload.CVUploadPage.HandleFileChange` | src/pages/editor/CVUpload.tsx:43-64 | with no file selected nothing changes; a rejected file clears the kept file and shows the check's message; an accepted file is kept and the message is cleared; a kept file always passed the checks with no message shown |
| `CVUpload.CVUploadPage.RemoveFile` | src/pages/editor/CVUpload.tsx:473 | the kept file is dropped; the form and the message stay, and the kept-file invariant holds |
| `CVUpload.CVUploadPage.HandleSubmit` | src/pages/editor/CVUpload.tsx:67-74 | submitting hands on the form and the kept file and changes nothing; the form is not reset |
| `Forms.SetField` | src/pages/client/GetQuote.tsx:24 | the named field takes the value; every other field keeps its value; the field names are the old ones plus the named one |
| `EditorProfile.AddEntry` | src/pages/editor/EditorProfile.tsx:112-124 | add appends exactly one record with the given id and every text field `''`; the earlier records are unchanged |
| `EditorProfile.UpdateEntry` | src/pages/editor/EditorProfile.tsx:127-134 | update keeps the length, order and ids; it changes only the named field of records with the matching id; all other records stay the same |
| `EditorProfile.RemoveEntry` | src/pages/editor/EditorProfile.tsx:137-142 | remove keeps a subsequence with no record of that id and keeps every record with another id |
| `EditorProfile.RemoveEntryCount` | src/pages/editor/EditorProfile.tsx:137-142 | remove keeps every copy of a record whose id differs and no copy of a record with that id; with the subsequence property this fixes the result |
| `EditorProfile.UpdateUnknownId` | src/pages/editor/EditorProfile.tsx:127-134 | updating an id that no record has returns the list unchanged |
| `EditorProfile.UpdateIdempotent` | src/pages/editor/EditorProfile.tsx:127-134 | a second identical update changes nothing |
| `EditorProfile.RemoveUnknownId` | src/pages/editor/EditorProfile.tsx:137-142 | removing an id that no record has returns the list unchanged |
| `EditorProfile.AddThenRemove` | src/pages/editor/EditorProfile.tsx:112-142 | adding a record with a fresh id and then removing that id restores the list |
| `EditorProfile.AddKeepsIdsUnique` | src/pages/editor/EditorProfile.tsx:112-124 | add with a fresh id keeps ids unique |
| `EditorProfile.UpdateKeepsIdsUnique` | src/pages/editor/EditorProfile.tsx:127-134 | update keeps ids unique |
| `EditorProfile.RemoveKeepsIdsUnique` | src/pages/editor/EditorProfile.tsx:137-142 | remove keeps ids unique |
| `EditorProfile.ParseSkills` | src/pages/editor/EditorProfile.tsx:105-109 | every parsed skill is non-empty, has no white space at either end and holds no comma |
| `EditorProfile.ShowSkills` | src/pages/editor/EditorProfile.tsx:411 | the skills input's `join(', ')` display; `EditorProfile.ParseShowSkills` states that parsing it gives clean skills back, and `EditorProfile.JoinAppend` that one more skill adds ", " and that skill |
| `EditorProfile.ParseShowSkills` | src/pages/editor/EditorProfile.tsx:411 | parsing the `join(', ')` display gives the skills back when each skill is non-empty, trimmed and comma-free |
| `EditorProfile.KeystrokeAsWritten` | src/pages/editor/EditorProfile.tsx:105-109 | one keystroke at the end of the skills input re-parses the displayed `join(', ')` text plus that character, and the result holds only clean skills |
| `EditorProfile.ParseIgnoresTrailingComma` | src/pages/editor/EditorProfile.tsx:107 | a comma at the end of the skills text leaves the parsed skills unchanged |
| `EditorProfile.TypedCommaVanishes` | src/pages/editor/EditorProfile.tsx:105-109 | with clean skills shown, a comma typed at the end leaves the list and its display as they were |
| `EditorProfile.TypeAsWritten` | src/pages/editor/EditorProfile.tsx:105-109 | keys typed one after the other at the end of the skills input, each through the page's re-parse; after at least one key every skill in the list is clean |
| `EditorProfile.TypingSecondSkillMerges` | src/pages/editor/EditorProfile.tsx:105-109 | typing ", b" after the skill "a" yields the single skill "ab" |
| `EditorProfile.TypeInSkillsBox` | src/pages/editor/EditorProfile.tsx:105-109 | in the intended box the text is exactly what was there plus what was typed, and the skills are the parse of that text |
| `EditorProfile.JoinAppend` | src/pages/editor/EditorProfile.tsx:411 | the `join(', ')` display of a non-empty list with one more skill is the old display, ", " and that skill |
| `EditorProfile.TypingFirstSkill` | src/pages/editor/EditorProfile.tsx:105-109 | typed into an empty box, ", " and a clean skill parse to that one skill |
| `EditorProfile.TypingAddsSkill` | src/pages/editor/EditorProfile.tsx:105-109 | in the intended box, typing ", " and a clean skill after any list of clean skills, the empty list included, appends that skill to the list |
| `EditorProfile.ProfileEditor.constructor` | src/pages/editor/EditorProfile.tsx:79-83 | the page starts outside edit mode with the draft equal to the profile |
| `EditorProfile.ProfileEditor.ToggleEditMode` | src/pages/editor/EditorProfile.tsx:86-96 | entering edit mode copies the profile into the draft; leaving it commits the draft as the profile; the mode flips |
| `EditorProfile.ProfileEditor.HandleChange` | src/pages/editor/EditorProfile.tsx:99-102 | one text field of the draft is set; the profile and the mode are untouched |
| `EditorProfile.ProfileEditor.HandleSkillsChange` | src/pages/editor/EditorProfile.tsx:105-109 | the draft's skills become the parsed input; the profile and the mode are untouched |
| `EditorProfile.ProfileEditor.AddExperience` | src/pages/editor/EditorProfile.tsx:112-124 | the draft's experience list gets one blank record; nothing else changes |
| `EditorProfile.ProfileEditor.UpdateExperience` | src/pages/editor/EditorProfile.tsx:127-134 | the draft's experience list is updated by id; nothing else changes |
| `EditorProfile.ProfileEditor.RemoveExperience` | src/pages/editor/EditorProfile.tsx:137-142 | the draft's experience list loses the records with that id; nothing else changes |
| `EditorProfile.ProfileEditor.AddEducation` | src/pages/editor/EditorProfile.tsx:145-156 | the draft's education list gets one blank record; nothing else changes |
| `EditorProfile.ProfileEditor.UpdateEducation` | src/pages/editor/EditorProfile.tsx:159-166 | the draft's education list is updated by id; nothing else changes |
| `EditorProfile.ProfileEditor.RemoveEducation` | src/pages/editor/EditorProfile.tsx:169-174 | the draft's education list loses the records with that id; nothing else changes |
| `EditorProfile.ProfileEditor.AddCertification` | src/pages/editor/EditorProfile.tsx:177-188 | the draft's certification list gets one blank record; nothing else changes |
| `EditorProfile.ProfileEditor.UpdateCertification` | src/pages/editor/EditorProfile.tsx:191-198 | the draft's certification list is updated by id; nothing else changes |
| `EditorProfile.ProfileEditor.RemoveCertification` | src/pages/editor/EditorProfile.tsx:201-206 | the draft's certification list loses the records with that id; nothing else changes |
| `GetQuote.InitialQuote` | src/pages/client/GetQuote.tsx:9-19 | the quote form's defaults: its nine fields, service `web` and every other field `''` |
| `GetQuote.QuotePage.constructor` | src/pages/client/GetQuote.tsx:9-19 | the form starts with the defaults |
| `GetQuote.QuotePage.HandleChange` | src/pages/client/GetQuote.tsx:22-25 | the named field takes the value and every other field stays |
| `GetQuote.QuotePage.HandleSubmit` | src/pages/client/GetQuote.tsx:28-45 | the entered record is handed on; afterwards the form equals the defaults, which are also the initial state, whatever was entered |
| `Contact.InitialContact` | src/pages/client/Contact.tsx:9-16 | the contact form's defaults: its six fields, service `web` and every other field `''` |
| `Contact.ContactPage.constructor` | src/pages/client/Contact.tsx:9-16 | the form starts with the defaults |
| `Contact.ContactPage.HandleChange` | src/pages/client/Contact.tsx:19-22 | the named field takes the value and every other field stays |
| `Contact.ContactPage.HandleSubmit` | src/pages/client/Contact.tsx:25-39 | the entered record is handed on; afterwards the form equals the defaults, which are also the initial state, whatever was entered |

## Findings

| source | as written | input that shows it | evidently intended | confidence | as-written member | corrected member |
|---|---|---|---|---|---|---|
| src/pages/editor/EditorProfile.tsx:105-109 | the skills input displays `formData.skills.join(', ')` (line 411) and re-parses its text on every keystroke, so a comma typed at the end is dropped at once, and a second skill typed key by key merges into the last one | skills `["a"]`, then type `,`, space, `b`: the list becomes `["ab"]` | the input keeps the typed text and the list is parsed from it, so the same keys give `["a", "b"]` | not executed | `EditorProfile.TypingSecondSkillMerges` | `EditorProfile.TypingAddsSkill` |

The page class `EditorProfile.ProfileEditor` keeps the behaviour as written, because its fields are the page's own state cells. The corrected box is modelled apart from it, as `EditorProfile.SkillsBox`.

## Left out

- Rendering, Tailwind classes and framer-motion animations in every page: presentation only.
- `console.log` and `alert` in the submit handlers are output. Each `HandleSubmit` returns the record that would be logged.
- `e.preventDefault()` and the React event objects. A handler receives the few values it reads from its event.
- React's deferred state updates. Each setter is applied at once, in program order. This makes no difference to the handlers modelled here.
- Routing and layouts (`src/App.tsx`, `src/layouts/`), the headers' scroll listener and menu toggle, the footer's current year, and the static pages (Home, About, Services): these contain markup and browser events only.
- `Date.now()` as the id of a new profile record. It is a clock call and is not guaranteed to be unique. The id is a parameter, and freshness is required only by the lemmas that need it.
- The file-size display `(size / 1024 / 1024).toFixed(2)`: floating point.
- The `required` and `accept` attributes of the inputs and the "Max 500 characters" hint. The browser applies them, or nothing does. The code does not.
- `Text.LowerChar`: `toLowerCase` is modelled for the ASCII letters A-Z only. Full Unicode case mapping is not modelled.
- The hard-coded seed arrays of jobs, portfolio items and the demo profile. The models take any list.
- `File` objects are reduced to name, declared MIME type and size. No content is read, as in the source.
- `EditorProfile.UpdateEntry`: a record's id is kept apart from its text fields. An update naming the field `id` would change the id in the source but adds a text field in the model. The page only ever passes text field names.
- `EditorProfile.ProfileEditor.HandleChange`: the profile's single-valued text fields are kept in their own map. A `name` that names the skills or a record list would replace that list in the source. The page's inputs never use such a name.
- The portfolio list inside the editor profile is carried along unchanged. The page never edits it.
