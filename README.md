# SRS wizard: a verified model of its core

The SRS wizard is a single-page React application. It walks a user through six steps: Project
Information, Functional Requirements, Non-Functional Requirements, System Architecture,
Constraints & Dependencies, and Review & Generate. Along the way it fills in one nested
Software Requirements Specification record. From that record it lays out a PDF document.
All of the logic lives in `src/pages/Index.tsx`. This project models the four parts of that
file that have behaviour of their own, and proves properties of each.

- **Step validator** (`validateCurrentStep`, module `Validation`). Steps 0, 2 and 3 test
  JavaScript truthiness, so a string of spaces passes. Steps 1 and 4 test lists with
  `some(x => x.trim())`, using JavaScript's exact whitespace set (module `Text`).
- **Wizard navigator** (class `Wizard.Wizard`). It holds the record, the current step and the
  completed steps. Its handlers are `handleNext`, `handlePrevious`, the sidebar jump, the
  Review screen's Edit buttons, and the form callbacks, which replace the record.
  `calculateProgress` is a function of the state.
- **Record editor** (module `Editor`). `addArrayItem`, `updateArrayItem` and
  `removeArrayItem` are pure record-to-record functions (spread, map and filter). The
  per-section `onChange` handlers replace one flat field. `Srs` holds the record and its
  initial value, in which every list is `['']`.
- **PDF generation**. The pure reference is module `Document`: the ordered pieces of text
  `generatePDF` draws for a record, which sections, fields and bullets it includes, the
  company fallback `SRS Generator Pro` and the sanitised file name. The imperative model is
  class `Layout.Layout`. It keeps the cursor `yPosition`, the page number and the list of
  drawing operations. It runs `addNewPage`, `checkPageSpace` and the `forEach` loops, and it
  is proved to draw exactly the reference pieces.
- **Line wrapping**. `splitTextToSize` is a parameter of the layout. It returns a line
  count of at least 1 and nothing else is assumed about it.

The model follows the code in these places, which are easy to misread:

- `removeArrayItem` does not refuse to empty a list. A list keeps at least one entry only
  because the forms offer the remove button while the list has more than one entry.
- Steps 0, 2 and 3 do not trim.
- Step 4 ignores the regulatory constraints.
- The file name replaces each disallowed character by its own `_`, not each run of them.
- Headings 1 to 3 are always drawn. A record whose only content is project data and
  functional requirements therefore gets three numbered sections (`PortalHeadings`).
- Pagination uses fixed space estimates before a block. Nothing stops a long paragraph or
  bullet from running past the bottom limit, and no "never overflows" property is claimed.
  What is proved is that every section heading starts at least 60 units above the limit.

## Model

| member | source | states |
|---|---|---|
| Text.IsWhitespace | src/pages/Index.tsx:164-165 | the characters `trim()` strips: JavaScript's WhiteSpace and LineTerminator code points, listed one by one |
| Text.TrimStart | src/pages/Index.tsx:164-165 | the result is a suffix of the input, all stripped characters are JavaScript whitespace, and the result does not start with whitespace |
| Text.TrimEnd | src/pages/Index.tsx:164-165 | the result is a prefix of the input, all stripped characters are whitespace, and the result does not end with whitespace |
| Text.Trim | src/pages/Index.tsx:164-165 | `s.trim()`: never longer than `s`, and a non-empty result neither starts nor ends with whitespace |
| Text.HasText | src/pages/Index.tsx:164-165 | the truthiness of `s.trim()`; its meaning is stated by `Text.HasTextIff` |
| Text.AnyHasText | src/pages/Index.tsx:164-173 | `xs.some(x => x.trim())`, scanned from the left; its meaning is stated by `Text.AnyHasTextIff` |
| Text.NonBlank | src/pages/Index.tsx:350-356 | the entries the `forEach` keeps with `if (x.trim())`, in list order; its meaning is stated by `Text.NonBlankMeaning` |
| Text.HasTextIff | src/pages/Index.tsx:164-165 | `s.trim()` is truthy exactly when `s` holds a non-whitespace character |
| Text.AnyHasTextIff | src/pages/Index.tsx:164-173 | `xs.some(x => x.trim())` holds exactly when some entry has text |
| Text.NonBlankAppend | src/pages/Index.tsx:350-356 | the filter keeps list order: filtering `a + b` gives the surviving entries of `a` followed by those of `b` |
| Text.NonBlankMeaning | src/pages/Index.tsx:350-356 | the filtered entries are entries of the list that have text, every entry with text survives, and the filter never lengthens the list |
| Text.NonBlankEmptyIff | src/pages/Index.tsx:342 | the filter leaves nothing exactly when the list fails its `some(x => x.trim())` guard |
| Text.BlankEntriesHaveNoText | src/pages/Index.tsx:164-165 | the lists `['']` and `[' ']` fail the `some(x => x.trim())` test |
| Srs.SetList | src/pages/Index.tsx:605-613 | writing one list field changes that list only and keeps every other list and every scalar field |
| Srs.Extensionality | src/pages/Index.tsx:41-73 | a record is determined by its seven lists and its scalar fields |
| Srs.Initial | src/pages/Index.tsx:78-110 | every list starts as `['']` and the version starts as `'1.0'` |
| Editor.MapIndexed | src/pages/Index.tsx:620-622 | the `map` keeps the length and replaces exactly the position equal to `index` |
| Editor.FilterIndexed | src/pages/Index.tsx:632 | the `filter` drops exactly the entry at an in-range `index`, keeping the others in order, and keeps the list for any other index |
| Editor.ReplaceAt | src/pages/Index.tsx:620-622 | the list `updateArrayItem` produces; its meaning is stated by `Editor.ReplaceAtMeaning` |
| Editor.RemoveAt | src/pages/Index.tsx:632 | the list `removeArrayItem` produces: for an in-range `index` one entry shorter, the entries before and after `index` kept in order; any other `index` keeps the list |
| Editor.ReplaceAtMeaning | src/pages/Index.tsx:615-624 | `updateArrayItem`'s list is `xs[index := value]` for an in-range index and `xs` otherwise |
| Editor.AddItem | src/pages/Index.tsx:605-613 | appends exactly one `''` to the chosen list; every other list and field is unchanged |
| Editor.UpdateItem | src/pages/Index.tsx:615-624 | replaces only position `index` of the chosen list, an out-of-range index changes nothing; every other list and field is unchanged |
| Editor.RemoveItem | src/pages/Index.tsx:627-635 | deletes exactly position `index`, keeping order; an out-of-range index returns the same record; every other list and field is unchanged |
| Editor.AddThenRemoveIsIdentity | src/pages/Index.tsx:605-635 | removing the entry just added gives back the original record |
| Editor.AddUpdateRemoveIsIdentity | src/pages/Index.tsx:605-635 | adding, typing into and removing the new entry gives back the original record |
| Editor.RemoveOnlyEntryEmptiesList | src/pages/Index.tsx:627-635 | removing the only entry leaves the list empty: the function itself does not refuse |
| Editor.AddKeepsListsNonEmpty | src/pages/Index.tsx:605-613 | adding keeps every list non-empty |
| Editor.UpdateKeepsListsNonEmpty | src/pages/Index.tsx:615-624 | updating keeps every list non-empty |
| Editor.RemoveKeepsListsNonEmpty | src/components/FunctionalRequirementsStep.tsx:57 | a removal from a list of more than one entry, the only removal the forms offer, keeps every list non-empty |
| Editor.EditsKeepListsNonEmpty | src/components/SystemArchitectureStep.tsx:85 | every edit the forms can issue keeps every list non-empty |
| Editor.SetProjectField | src/pages/Index.tsx:786-789 | sets one Project Information field and keeps the other fields and sections |
| Editor.SetNonFunctionalField | src/pages/Index.tsx:810-815 | sets one Non-Functional field and keeps the other fields and sections |
| Editor.SetArchitectureField | src/pages/Index.tsx:822-827 | sets one System Architecture text field and keeps the components, the other fields and the other sections |
| Editor.FieldSettersKeepLists | src/pages/Index.tsx:786-827 | replacing a flat field leaves every list as it was |
| Validation.ValidateStep | src/pages/Index.tsx:159-177 | `validateCurrentStep` for a given step; what it demands of each step, both ways, is stated by `Validation.ValidateStepMeaning` |
| Validation.SomeIff | src/pages/Index.tsx:164-173 | a list passes `some(x => x.trim())` exactly when some entry holds a non-whitespace character |
| Validation.ValidateStepMeaning | src/pages/Index.tsx:159-177 | for each step, both directions: step 0 needs non-empty company, name, description and scope; step 1 a texted user story and a texted feature; step 2 non-empty performance and security; step 3 non-empty overview and data flow; step 4 a texted technical or business constraint; any other step passes |
| Validation.RegulatoryIgnored | src/pages/Index.tsx:171-173 | replacing the regulatory constraints never changes any step's verdict |
| Validation.WhitespacePassesTruthinessTests | src/pages/Index.tsx:162-165 | a record whose required texts are single spaces passes step 0, while a single-space user story fails step 1 |
| Validation.BlankingProjectFieldFails | src/pages/Index.tsx:162 | blanking company, name, description or scope fails step 0 |
| Validation.BlankingNonFunctionalFieldFails | src/pages/Index.tsx:167-168 | blanking performance or security fails step 2 |
| Validation.BlankingArchitectureFieldFails | src/pages/Index.tsx:170 | blanking overview or data flow fails step 3 |
| Validation.BlankingStoriesOrFeaturesFails | src/pages/Index.tsx:164-165 | resetting the user stories or the features to `['']` fails step 1 |
| Validation.BlankConstraintsFail | src/pages/Index.tsx:172-173 | an example: technical `[""]` and business `[" "]` fail step 4 whatever the regulatory list holds (the general rule is `Validation.ValidateStepMeaning`) |
| Wizard.RoundHalfUp | src/pages/Index.tsx:156 | `Math.round(num / den)`: the nearest integer, halves rounded upwards |
| Wizard.Wizard.constructor | src/pages/Index.tsx:77-113 | the wizard starts on step 0 with no completed steps and the initial record |
| Wizard.Wizard.ValidFacts | src/pages/Index.tsx:582-603 | in every reachable state the completed steps are distinct steps in 0..5, in 0..4 while Next was never pressed on Review, every step before the current one is completed, and the completed set is closed downwards |
| Wizard.Wizard.CalculateProgress | src/pages/Index.tsx:155-157 | progress is 20 times the number of completed steps, and lies in 0..100 while Review was never completed |
| Wizard.Wizard.Next | src/pages/Index.tsx:582-597 | an invalid step changes nothing; a valid one records the step once (no duplicates) and advances by exactly one below step 5; the record is untouched; from below Review the guard is kept |
| Wizard.Wizard.Previous | src/pages/Index.tsx:599-603 | steps back by one exactly when above step 0 |
| Wizard.Wizard.MayJumpTo | src/pages/Index.tsx:734 | the sidebar's test: `index` is a completed step or not beyond the current step; `Wizard.Wizard.JumpTo` moves exactly when it holds and `Wizard.Wizard.EditStep` shows every Edit jump satisfies it |
| Wizard.Wizard.JumpTo | src/pages/Index.tsx:734-737 | jumps to `index` exactly when it is completed or not beyond the current step, otherwise stays |
| Wizard.Wizard.EditStep | src/pages/Index.tsx:851-856 | the Review screen's Edit sets the step directly, and that jump is always one the sidebar allows |
| Wizard.Wizard.AddArrayItem | src/pages/Index.tsx:800 | the record becomes `AddItem` of the old record, and the invariant is kept |
| Wizard.Wizard.UpdateArrayItem | src/pages/Index.tsx:797-799 | the record becomes `UpdateItem` of the old record, and the invariant is kept |
| Wizard.Wizard.RemoveArrayItem | src/components/ConstraintsStep.tsx:99 | with the remove button's condition (more than one entry) the list shrinks by one and the invariant is kept |
| Wizard.Wizard.ChangeProjectInfo | src/pages/Index.tsx:786-789 | the record becomes `SetProjectField` of the old record |
| Wizard.Wizard.ChangeNonFunctional | src/pages/Index.tsx:810-815 | the record becomes `SetNonFunctionalField` of the old record |
| Wizard.Wizard.ChangeArchitecture | src/pages/Index.tsx:822-827 | the record becomes `SetArchitectureField` of the old record |
| Document.CompanyOrDefault | src/pages/Index.tsx:193 | the company name when non-empty, `SRS Generator Pro` otherwise; never empty |
| Document.IsAsciiAlnum | src/pages/Index.tsx:562 | the class `[a-z0-9]` under the `i` flag: ASCII letters of both cases and ASCII digits only; without the `u` flag there is no Unicode case folding, so `ſ` (U+017F) and the Kelvin sign (U+212A) are outside the class; used by `Document.Sanitize` |
| Document.Sanitize | src/pages/Index.tsx:562 | same length; every character outside `[A-Za-z0-9]` becomes `_`, one for one, the others are kept |
| Document.FileName | src/pages/Index.tsx:561-563 | an empty name gives `SRS_Document.pdf`; otherwise the sanitised name followed by `_SRS.pdf` |
| Document.FileNameIsSafe | src/pages/Index.tsx:561-563 | every file name ends in `.pdf` and holds only letters, digits, `_` and `.` |
| Document.FileNamesCanCollide | src/pages/Index.tsx:562 | `A B` and `A-B` share the file name `A_B_SRS.pdf` |
| Document.SanitizeKeepsAlnum | src/pages/Index.tsx:562 | a name of letters and digits is kept as it is |
| Document.InlineField | src/pages/Index.tsx:263-291 | a caption with its value on one line, present exactly when the value is non-empty; `Document.BlockText` states that it shows the pair as its one field exactly then, and `Document.TextBlockExtract` that it draws no heading or bullet |
| Document.TextBlock | src/pages/Index.tsx:293-329 | a caption over a wrapped paragraph, present exactly when the value is non-empty, as also at 420-433 and 448-504; `Document.BlockText` states that its one paragraph is the value exactly then, and `Document.TextBlockExtract` that it draws no heading or bullet |
| Document.ListBlock | src/pages/Index.tsx:342-399 | a caption over one bullet per entry with text, present exactly when some entry has text, as also at 460-478 and 531-549; stated by `Document.ListBlockExtract` |
| Document.TextBlocks | src/pages/Index.tsx:419-434 | the `forEach` over a `{ key, title }` table of texts, one text block per entry in table order; `Document.TextBlocksValues` states that its paragraphs are exactly the non-empty values, and `Document.TextBlocksExtract` that it draws no heading or bullet |
| Document.ListBlocks | src/pages/Index.tsx:529-550 | the `forEach` over a `{ key, title }` table of lists, one list block per entry in table order; stated by `Document.ListBlocksExtract` |
| Document.NonFunctionalEntries | src/pages/Index.tsx:412-418 | `nfrSections`: performance, security, usability, reliability and scalability with their titles, in that order |
| Document.ConstraintEntries | src/pages/Index.tsx:523-527 | `constraintSections`: technical, business and regulatory with their titles, in that order |
| Document.HasArchitecture | src/pages/Index.tsx:437 | section 4's condition `overview or dataFlow`; used by `Document.ArchitecturePieces` and `Document.DocumentHeadings` |
| Document.HasConstraints | src/pages/Index.tsx:508-510 | `hasConstraints`: some technical, business or regulatory entry has text; used by `Document.ConstraintPieces` and `Document.DocumentHeadings` |
| Document.BulletPieces | src/pages/Index.tsx:350-357 | one bullet per given entry, in order |
| Document.ListBlockExtract | src/pages/Index.tsx:342-358 | a list block draws exactly the entries with text as bullets, and no heading |
| Document.TextBlockExtract | src/pages/Index.tsx:263-303 | text blocks and inline fields draw no heading and no bullet |
| Document.TextBlocksExtract | src/pages/Index.tsx:419-433 | the Non-Functional table draws no heading and no bullet |
| Document.ListBlocksExtract | src/pages/Index.tsx:529-549 | each entry of the constraint table adds its texted entries as bullets, after those of the previous entries |
| Document.TitlePieces | src/pages/Index.tsx:214-235 | the title, the subtitle only for a non-empty project name, and the rule: three pieces with a name, two without, starting with the title and ending with the rule |
| Document.ProjectPieces | src/pages/Index.tsx:251-329 | section 1 as drawn: heading 1, the three inline fields and the description, stakeholders and scope blocks, each only when non-empty; `Document.ProjectFieldsShown` states the fields and paragraphs shown, `Document.ProjectExtract` the one heading and no bullet |
| Document.FunctionalPieces | src/pages/Index.tsx:331-399 | section 2 as drawn: heading 2 and the three list blocks; stated by `Document.FunctionalExtract` |
| Document.NonFunctionalPieces | src/pages/Index.tsx:401-433 | section 3 as drawn: heading 3 and the five-entry text table; `Document.NonFunctionalValuesShown` states that each requirement is shown exactly when non-empty, `Document.NonFunctionalExtract` the one heading and no bullet |
| Document.ArchitectureBody | src/pages/Index.tsx:448-504 | the overview, components, data flow and interfaces blocks of section 4, in that order, each by its definition only when non-empty; `Document.ArchitectureFieldsShown` states the paragraphs shown and `Document.ArchitectureExtract` the bullets |
| Document.BlockText | src/pages/Index.tsx:263-399 | an inline field shows its caption and value as a field, and a text block its value as a paragraph, each exactly when the value is non-empty; a list block shows neither |
| Document.ProjectFieldsShown | src/pages/Index.tsx:251-329 | section 1 shows as fields exactly the non-empty company, project name and version, in that order, and as paragraphs exactly the non-empty description, stakeholders and scope, in that order |
| Document.TextBlocksValues | src/pages/Index.tsx:419-433 | a table of texts shows a value as a paragraph exactly when it is non-empty and is some entry's value |
| Document.NonFunctionalValuesShown | src/pages/Index.tsx:412-433 | section 3 shows each of performance, security, usability, reliability and scalability as a paragraph exactly when it is non-empty |
| Document.ArchitectureFieldsShown | src/pages/Index.tsx:436-505 | section 4 shows no inline field, and as paragraphs the non-empty overview, data flow and interfaces, in that order, when section 4 is drawn at all, and nothing otherwise |
| Document.ArchitecturePieces | src/pages/Index.tsx:436-505 | section 4 is empty exactly when both the overview and the data flow are empty, and otherwise starts with heading 4 |
| Document.ConstraintPieces | src/pages/Index.tsx:507-550 | section 5 is empty exactly when no constraint list, regulatory included, has an entry with text, and otherwise starts with heading 5 |
| Document.DocumentContent | src/pages/Index.tsx:214-557 | everything drawn, in order, page headers aside: it starts with the title and ends with the footer for the company or its default |
| Document.TitleExtract | src/pages/Index.tsx:214-235 | the title, subtitle and rule hold no heading and no bullet |
| Document.ProjectExtract | src/pages/Index.tsx:251-329 | section 1 has exactly heading 1 and no bullets |
| Document.FunctionalExtract | src/pages/Index.tsx:331-398 | section 2 has exactly heading 2 and the texted user stories, features and business rules, in that order |
| Document.NonFunctionalExtract | src/pages/Index.tsx:401-434 | section 3 has exactly heading 3 and no bullets |
| Document.ArchitectureExtract | src/pages/Index.tsx:436-505 | section 4 has heading 4 and the texted components exactly when the overview or the data flow is non-empty, and nothing otherwise |
| Document.ConstraintListsExtract | src/pages/Index.tsx:523-550 | the three constraint blocks hold no heading and the texted technical, business and regulatory entries in that order |
| Document.ConstraintExtract | src/pages/Index.tsx:507-550 | section 5 has heading 5 exactly when some constraint list, regulatory included, has text, and its bullets are the texted constraints |
| Document.DocumentHeadings | src/pages/Index.tsx:251-550 | the headings drawn are 1, 2, 3, then 4 exactly when the overview or the data flow is non-empty, then 5 exactly when some constraint has text |
| Document.DocumentBullets | src/pages/Index.tsx:342-547 | the bullets drawn are the texted entries of every list, list by list in order, with the components only when section 4 is drawn |
| Document.PortalFileName | src/pages/Index.tsx:561-563 | the project `Portal` is saved as `Portal_SRS.pdf` |
| Document.PortalProjectSection | src/pages/Index.tsx:251-329 | for a project without stakeholders, section 1 has the three inline fields, the description and the scope, and no stakeholders block |
| Document.PortalHeadings | src/pages/Index.tsx:401-434 | a record with only project data, one user story and one feature gets headings 1, 2 and 3: section 3 is drawn although it is empty |
| Layout.FirstHeader | src/pages/Index.tsx:211-212 | the first header, for page 1, is a well-formed start and draws no content |
| Layout.AppendHeader | src/pages/Index.tsx:237-242 | a new header numbered one above the last page keeps the operations well formed and adds no content |
| Layout.AppendDraw | src/pages/Index.tsx:245-249 | a piece drawn below the top offset, a heading with its 60 units free, keeps the operations well formed and adds exactly that piece |
| Layout.Layout.constructor | src/pages/Index.tsx:181-212 | the layout starts at `y = 40` on page 1 with that page's header |
| Layout.Layout.AddNewPage | src/pages/Index.tsx:237-242 | the page number grows by exactly one, `y` becomes 40, and exactly one header for the new page is drawn |
| Layout.Layout.CheckPageSpace | src/pages/Index.tsx:245-249 | when `y + r` passes `pageHeight - 40` a new page begins, otherwise nothing changes; afterwards `y + r <= pageHeight - 40` whenever `r <= pageHeight - 80` |
| Layout.Layout.Space | src/pages/Index.tsx:293-306 | whether a block opens with `checkPageSpace(n)`, as at 306, 319, 362, 423, 461 and 532, or with no check, as the description (293-303), the user stories (342) and the overview (448): the page breaks exactly when the block is checked and `y + n` passes `pageHeight - 40`, and otherwise nothing changes; the drawn content is kept either way; after a check of at most `pageHeight - 80`, `y + n <= pageHeight - 40` |
| Layout.Layout.DrawTitle | src/pages/Index.tsx:214-235 | draws the title, the subtitle only for a non-empty project name, and the rule |
| Layout.Layout.DrawHeading | src/pages/Index.tsx:252-257 | reserves 60 units, draws the heading at the top of a fresh page or at the current cursor, and advances the cursor by 15 |
| Layout.Layout.DrawField | src/pages/Index.tsx:263-271 | draws a caption and its value only when the value is non-empty |
| Layout.Layout.DrawTextBlock | src/pages/Index.tsx:305-316 | draws a caption and its wrapped value only when the value is non-empty |
| Layout.Layout.DrawBullet | src/pages/Index.tsx:351-355 | after its space check, draws `• entry` at the resulting cursor and advances the cursor by `lines * 6 + 3` |
| Layout.Layout.DrawBullets | src/pages/Index.tsx:350-356 | the loop draws one bullet for each texted entry, in list order |
| Layout.Layout.DrawListBlock | src/pages/Index.tsx:361-378 | draws a caption and the bullets only when some entry has text |
| Layout.Layout.DrawTextBlocks | src/pages/Index.tsx:419-433 | the loop over the Non-Functional table draws each entry's text block in table order |
| Layout.Layout.DrawListBlocks | src/pages/Index.tsx:529-549 | the loop over the constraint table draws each entry's list block in table order |
| Layout.Layout.DrawProject | src/pages/Index.tsx:251-329 | draws exactly section 1 of the reference content |
| Layout.Layout.DrawFunctional | src/pages/Index.tsx:331-398 | draws exactly section 2 of the reference content |
| Layout.Layout.DrawNonFunctional | src/pages/Index.tsx:401-433 | draws exactly section 3 of the reference content |
| Layout.Layout.DrawArchitecture | src/pages/Index.tsx:436-505 | draws exactly section 4 of the reference content, which is empty unless the overview or the data flow is non-empty |
| Layout.Layout.DrawConstraints | src/pages/Index.tsx:507-550 | draws exactly section 5 of the reference content, which is empty unless some constraint has text |
| Layout.Layout.DrawFooter | src/pages/Index.tsx:553-557 | the footer with the company is drawn last, 15 units above the page bottom |
| Layout.GeneratePdf | src/pages/Index.tsx:179-565 | the pieces drawn are exactly the reference content, the headers number the pages 1, 2, ... in order with the company or its default, the footer is the last operation, and the file name is `FileName(name)` |

## Left out

- JSX rendering, styling, the step forms' inputs and the "View Code" dialog with its
  clipboard write are presentation and browser APIs.
- jsPDF details are foreign-library calls: fonts, sizes, colours, line widths,
  x-coordinates and alignment, the header rule and the `Page N` text, `doc.save` and the
  blob download. The header operation records the company and the page number. The page
  number is drawn only from page 2 on.
- The footer's `new Date().toLocaleDateString()` line is left out, because it reads the clock.
- The toasts and the `try`/`catch` failure path of `generatePDF` are left out. These are UI
  side effects, and the model has no failing operation.
- The page size is modelled as integers 210 x 297. jsPDF's A4 in millimetres is
  595.28 x 841.89 points, about 210.0015 x 297.0001 mm. Every cursor value is an integer,
  so `y + r > pageHeight - 40` decides the same way with 297.
- Wizard.Wizard.CalculateProgress: exact integer arithmetic stands in for the
  floating-point `length / 5 * 100`. The two agree for the lengths 0 to 6 that can occur.
- Document.Sanitize: it works on Unicode scalar values, while JavaScript strings are UTF-16
  code units. A character outside the Basic Multilingual Plane becomes one `_` here but two
  in the browser.
- Wizard.Wizard.Next: the model treats the React state updates as immediate assignments.
  Within one click they do not interact.
- `src/components/SampleSRSViewer.tsx`, `src/pages/Home.tsx`, `src/pages/Examples.tsx` and
  `src/components/ReviewStep.tsx` (beyond the Edit buttons' step indices) are not part of
  this model. They hold static content and display code.
- Of the methods that draw text, only `DrawBullet`, `DrawHeading` and `DrawFooter` state where their piece lands.
  The other drawing methods record positions in the operations but leave them out of their
  contracts, one line each:
- Layout.Layout.DrawTitle: does not state the cursor after the title, subtitle and rule (`+10`, `+15`, `+25`).
- Layout.Layout.DrawField: does not state the field's position or the cursor advance of 10.
- Layout.Layout.DrawTextBlock: does not state the caption and paragraph positions, the cursor after `lines * 6 + gap`, or the page.
- Layout.Layout.DrawBullets: does not state the cursor or the page after the loop.
- Layout.Layout.DrawListBlock: does not state the caption position, the cursor or the page after the block.
- Layout.Layout.DrawTextBlocks: does not state the cursor or the page after the loop.
- Layout.Layout.DrawListBlocks: does not state the cursor or the page after the loop.
- Layout.Layout.DrawProject: does not state the cursor or the page after section 1.
- Layout.Layout.DrawFunctional: does not state the cursor or the page after section 2.
- Layout.Layout.DrawNonFunctional: does not state the cursor or the page after section 3.
- Layout.Layout.DrawArchitecture: does not state the cursor or the page after section 4.
- Layout.Layout.DrawConstraints: does not state the cursor or the page after section 5.
