# genRes resume builder — a Dafny model of its core

genRes is a resume builder. The React frontend keeps one immutable `ResumeData`
aggregate. Four input forms edit it copy-on-write, and it is mirrored into
local storage. Three templates (Modern, Classic, Creative) render it. An
export panel turns it into PDF, DOCX or HTML and then saves it to the backend.
A "Generate Summary" button asks a text-generation service for a professional
summary. The FastAPI backend holds its own text-generation function.

This project models that core as pure Dafny functions over immutable
datatypes, and proves what the code promises about it.

- **Data and defaults** (`Resume`, `Defaults`). The records of the aggregate:
  - optional TypeScript fields become `Option`;
  - the skill level is a closed four-value enumeration;
  - the five default instances are constants.
- **Helpers** (`Helpers`). Three validators and formatters:
  - the email and phone validators, with each regular expression written out as character predicates and proved equal to the pattern's shape;
  - the "Present" rule of `formatDate`;
  - `calculateDuration`, on year/month integers with JavaScript's truncating `%`. Its text is proved to read back as the month difference.
- **Forms** (`ListEdit`, `PersonalInfoForm`, `EducationForm`, `WorkExperienceForm`, `SkillsForm`). Append-with-fresh-id, replace-at-index and filter-out-index, nested achievement editing, the proficiency indicator and the years-input rule.
- **Builder** (`ResumeBuilder`):
  - the initial state;
  - per-key snapshot load and save over a key→string storage map;
  - one-section replacement;
  - the summary prompt and the state update after generation;
  - the export toasts.
- **Templates** (`Outline`, `SkillGrouping`, `ModernTemplate`, `CreativeTemplate`, `ClassicTemplate`, `PreviewPanel`, `TemplateSelector`).
  - Each template renders an outline: a sequence of sections (area, heading, lines).
  - Category grouping of skills follows JavaScript's own-property order: integer-like keys come first, in ascending order, and then the other keys in first-insertion order.
  - `PreviewPanel` models the id-based dispatch; `TemplateSelector` models the catalogue and its colour lookups.
- **Export** (`Generators`, `ExportControls`):
  - the PDF page-tiling loop, as exact real arithmetic with a loop invariant;
  - the DOCX placeholder text and the HTML page, as string builders;
  - the click handler, as the sequence of effects it produces.
- **Text generation** (`JsonModel`, `Hf`, `Ai`). Both sides work over an abstract JSON value:
  - the frontend service's mock-mode rule, its mock classifier, and its reply extraction, which never fails;
  - the backend `generate_text`, with its error order;
  - lemmas on where the two sides agree and where they part ways.

Parameters stand for what the code takes from its environment, namely:
- `fmt`: the locale date formatting;
- `today`: the current month;
- `freshId`: the generated ids;
- `numberText`: JavaScript's number-to-string conversion;
- `repr`: Python's `repr`;
- the encode and decode pairs for JSON storage;
- the HTTP reply;
- the outcomes of the export and the save.

## Model

| member | source | states |
|---|---|---|
| Resume.LevelFromName | frontend/src/types/resume.ts:36-42 | a stored level string is a level exactly when it is one of "Beginner", "Intermediate", "Advanced", "Expert" |
| Resume.LevelNameRoundTrip | frontend/src/types/resume.ts:39 | every level prints as its name and reads back as itself, and a name that reads as a level is that level's name |
| Defaults.DefaultResumeData | frontend/src/utils/default.ts:12-28 | the default resume has all five lists empty, every personal string empty, linkedIn and portfolio present but empty, and a non-empty placeholder summary |
| Defaults.DefaultTemplate | frontend/src/utils/default.ts:30-37 | the default template is "modern" in blue |
| Defaults.DefaultEducation | frontend/src/utils/default.ts:39-48 | a new education entry has id "", empty text fields, is not in progress and has no GPA |
| Defaults.DefaultWorkExperience | frontend/src/utils/default.ts:50-59 | a new job has id "", empty text fields, no achievements, no location and is not current |
| Defaults.DefaultSkill | frontend/src/utils/default.ts:61-66 | a new skill has id "", an empty name, level Intermediate, category "Technical" and no years |
| Helpers.ValidateEmailMatchesPattern | frontend/src/utils/helpers.ts:7-10 | an email is accepted iff it is local "@" domain with both parts free of whitespace and '@', the local part non-empty, and the domain holding a '.' that is neither its first nor its last character |
| Helpers.ValidEmailHasOneAt | frontend/src/utils/helpers.ts:8 | an accepted email contains no whitespace and exactly one '@', not at position 0 |
| Helpers.StripPhone | frontend/src/utils/helpers.ts:14 | stripping keeps exactly the characters that are not whitespace, '-', '(' or ')' and never lengthens the text |
| Helpers.StripPhoneAppend | frontend/src/utils/helpers.ts:14 | stripping works character by character: the stripped concatenation is the concatenation of the stripped parts |
| Helpers.FormattingIsIgnored | frontend/src/utils/helpers.ts:12-15 | inserting a formatting character anywhere never changes the phone verdict |
| Helpers.ValidPhoneShape | frontend/src/utils/helpers.ts:12-15 | a phone is accepted exactly when its stripped form is a '+' followed by 1 to 16 digits not starting with 0, or such a digit run alone |
| Helpers.PlusSignAccepted | frontend/src/utils/helpers.ts:13 | one leading '+' is allowed: "+12" is accepted |
| Helpers.LonePlusRejected | frontend/src/utils/helpers.ts:13 | a '+' with no digits after it is rejected |
| Helpers.DoublePlusRejected | frontend/src/utils/helpers.ts:13 | the '+' is optional but cannot repeat: "++1" is rejected |
| Helpers.LongNumberRejected | frontend/src/utils/helpers.ts:13 | at most 16 digits: a longer digit run is rejected with or without the '+' |
| Helpers.EmptyPhoneRejected | frontend/src/utils/helpers.ts:13 | the empty phone is rejected |
| Helpers.LeadingZeroRejected | frontend/src/utils/helpers.ts:13 | a phone whose stripped form starts with '0' is rejected |
| Helpers.DotRejected | frontend/src/utils/helpers.ts:13-14 | a phone containing '.' is rejected, as a dot is neither stripped nor a digit |
| Helpers.FormatDate | frontend/src/utils/helpers.ts:17-23 | the empty date formats to "Present"; any other date goes to the locale formatter |
| Helpers.JsRem | frontend/src/utils/helpers.ts:37 | JavaScript's `%` takes the sign of the dividend: non-negative below the divisor for a non-negative dividend, non-positive above its negation otherwise |
| Helpers.DurationSplit | frontend/src/utils/helpers.ts:33-37 | for a non-negative difference, years * 12 + remaining months is the difference, with the remainder in 0..11 |
| Helpers.NegativeDifferenceParts | frontend/src/utils/helpers.ts:36-37 | for an end less than a year before the start, floor division gives -1 years while the truncating remainder keeps the negative months, so the two parts no longer add up |
| Helpers.CurrentJobIgnoresEndDate | frontend/src/utils/helpers.ts:31 | while currently working, the stored end date is ignored and the duration runs to today |
| Helpers.ZeroMonths | frontend/src/utils/helpers.ts:39-40 | a zero difference reads "0 months", in the plural |
| Helpers.DurationTextRoundTrip | frontend/src/utils/helpers.ts:39-47 | the duration text of any non-negative month count reads back as that count, so the year/month/plural choice loses nothing |
| Helpers.DurationRoundTrip | frontend/src/utils/helpers.ts:25-48 | for a non-negative difference, `calculateDuration` reads back as 12 * (year difference) + (month difference) |
| ListEdit.RemoveAt | frontend/src/components/InputForms/EducationForm.tsx:26-29 | filtering out index i keeps the other entries in order, drops the length by one when i is in range, and is the identity otherwise |
| ListEdit.FilterOutIndexIsRemoveAt | frontend/src/components/InputForms/EducationForm.tsx:27 | the element-by-element filter on index equals the slice-based removal |
| ListEdit.ReplaceLaws | frontend/src/components/InputForms/EducationForm.tsx:20-24 | writing back the same entry is the identity and a second write at an index overrides the first |
| PersonalInfoForm.HandleChange | frontend/src/components/InputForms/PersonalInfoForm.tsx:14-21 | the edited field holds the new string (present even when empty) and every other field is unchanged |
| PersonalInfoForm.FieldsDetermineRecord | frontend/src/types/resume.ts:1-10 | two personal records that agree on every field are equal, so the field view is complete |
| PersonalInfoForm.HandleChangeIdempotent | frontend/src/components/InputForms/PersonalInfoForm.tsx:17-20 | the same change twice is the change once, and setting a field to its current value changes nothing |
| PersonalInfoForm.HandleChangeCommutes | frontend/src/components/InputForms/PersonalInfoForm.tsx:17-20 | changes to two different fields commute |
| EducationForm.AddEducation | frontend/src/components/InputForms/EducationForm.tsx:16-18 | the list grows by one with the prefix unchanged and ends with the default entry under the fresh id |
| EducationForm.UpdateEducation | frontend/src/components/InputForms/EducationForm.tsx:20-24 | only index i changes and the length is kept |
| EducationForm.RemoveEducation | frontend/src/components/InputForms/EducationForm.tsx:26-29 | removal is the list without index i, in order; an out-of-range index leaves it unchanged |
| EducationForm.SetCurrentlyStudying | frontend/src/components/InputForms/EducationForm.tsx:163-167 | the toggle sets only the flag and keeps the end date |
| EducationForm.RemoveAfterAdd | frontend/src/components/InputForms/EducationForm.tsx:16-29 | removing the entry just added gives back the original list |
| WorkExperienceForm.AddWorkExperience | frontend/src/components/InputForms/WorkExperienceForm.tsx:16-21 | the list grows by one with the prefix unchanged and ends with the default job under the fresh id |
| WorkExperienceForm.UpdateWorkExperience | frontend/src/components/InputForms/WorkExperienceForm.tsx:23-30 | only index i changes and the length is kept |
| WorkExperienceForm.RemoveWorkExperience | frontend/src/components/InputForms/WorkExperienceForm.tsx:32-35 | removal is the list without index i, in order; an out-of-range index is a no-op |
| WorkExperienceForm.SetCurrentlyWorking | frontend/src/components/InputForms/WorkExperienceForm.tsx:189-194 | the toggle sets only the flag and does not clear the end date |
| WorkExperienceForm.AddAchievement | frontend/src/components/InputForms/WorkExperienceForm.tsx:37-44 | entry i gains a trailing "" achievement; its other fields and all other entries are unchanged |
| WorkExperienceForm.UpdateAchievement | frontend/src/components/InputForms/WorkExperienceForm.tsx:46-58 | exactly achievement j of entry i changes; everything else is unchanged |
| WorkExperienceForm.RemoveAchievement | frontend/src/components/InputForms/WorkExperienceForm.tsx:60-69 | achievement j of entry i is filtered out, the rest keep their order, other entries and fields are unchanged, and an out-of-range j is a no-op |
| WorkExperienceForm.RemoveAfterAdd | frontend/src/components/InputForms/WorkExperienceForm.tsx:16-35 | removing the job just added gives back the original list |
| WorkExperienceForm.RemoveAchievementAfterAdd | frontend/src/components/InputForms/WorkExperienceForm.tsx:37-69 | removing the achievement just added gives back the original list |
| SkillsForm.AddSkill | frontend/src/components/InputForms/SkillsForm.tsx:13-15 | the list grows by one with the prefix unchanged and ends with the default skill under the fresh id |
| SkillsForm.UpdateSkill | frontend/src/components/InputForms/SkillsForm.tsx:17-21 | only index i changes and the length is kept |
| SkillsForm.RemoveSkill | frontend/src/components/InputForms/SkillsForm.tsx:23-26 | removal is the list without index i, in order; an out-of-range index is a no-op |
| SkillsForm.RemoveAfterAdd | frontend/src/components/InputForms/SkillsForm.tsx:13-26 | removing the skill just added gives back the original list |
| SkillsForm.CategoryFacts | frontend/src/components/InputForms/SkillsForm.tsx:28-37 | there are eight distinct categories, containing the default "Technical" and "Other"; the blank choice is selectable but is not one of them |
| SkillsForm.Rank | frontend/src/components/InputForms/SkillsForm.tsx:39-60 | a level's rank is its position in the proficiency list |
| SkillsForm.LevelOrder | frontend/src/components/InputForms/SkillsForm.tsx:39-60 | Beginner < Intermediate < Advanced < Expert is a strict total order and the rank is injective |
| SkillsForm.LevelIndex | frontend/src/components/InputForms/SkillsForm.tsx:189-191 | the index lookup is -1 exactly for a string that is not a level, and otherwise finds that level |
| SkillsForm.Indicator | frontend/src/components/InputForms/SkillsForm.tsx:187-191 | there are four bars, and bar k is lit iff the level's index is at least k |
| SkillsForm.IndicatorLightsRankPlusOne | frontend/src/components/InputForms/SkillsForm.tsx:187-191 | level r lights exactly bars 0..r, which is r + 1 bars; a string that is not a level lights none |
| SkillsForm.YearsFromInput | frontend/src/components/InputForms/SkillsForm.tsx:169-173 | the empty input clears the years; any other input stores its parsed number |
| ResumeBuilder.InitialState | frontend/src/components/ResumeBuilder/ResumeBuilder.tsx:13-20 | the builder starts from the default resume and template with the toast hidden |
| ResumeBuilder.Stored | frontend/src/components/ResumeBuilder/ResumeBuilder.tsx:24-27 | a stored value counts only when the key is present and its value is non-empty |
| ResumeBuilder.LoadKey | frontend/src/components/ResumeBuilder/ResumeBuilder.tsx:27-41 | a stored value that parses replaces the state, with no shape check; an absent or unparsable one keeps it |
| ResumeBuilder.Load | frontend/src/components/ResumeBuilder/ResumeBuilder.tsx:23-42 | each key is loaded on its own and the toast is untouched |
| ResumeBuilder.Save | frontend/src/components/ResumeBuilder/ResumeBuilder.tsx:45-51 | the aggregate is written under "resumeData", the template under "selectedTemplate", and every other key is kept |
| ResumeBuilder.SaveThenLoad | frontend/src/components/ResumeBuilder/ResumeBuilder.tsx:23-51 | with an encoding that decodes back, a load after a save restores both the aggregate and the template |
| ResumeBuilder.LoadKeysIndependent | frontend/src/components/ResumeBuilder/ResumeBuilder.tsx:27-41 | a valid template loads whatever the data key holds, and an empty data value keeps the data without blocking the template |
| ResumeBuilder.ApplyChange | frontend/src/components/ResumeBuilder/ResumeBuilder.tsx:115-145 | each form callback replaces exactly its own section (or the template); everything else, including the toast, is unchanged |
| ResumeBuilder.ChangesCommuteOrOverride | frontend/src/components/ResumeBuilder/ResumeBuilder.tsx:61-63 | changes to different sections commute, and a second change to the same section overrides the first |
| ResumeBuilder.Positions | frontend/src/components/ResumeBuilder/ResumeBuilder.tsx:73-74 | the positions are listed in the order of the jobs |
| ResumeBuilder.PromptMentions | frontend/src/components/ResumeBuilder/ResumeBuilder.tsx:67-75 | the prompt contains the full name, every skill name and every position |
| ResumeBuilder.PromptSkillsSnoc | frontend/src/components/ResumeBuilder/ResumeBuilder.tsx:69-72 | a new skill extends the prompt's skill list by ", " and its name, in list order |
| ResumeBuilder.GenerateSummary | frontend/src/components/ResumeBuilder/ResumeBuilder.tsx:65-88 | on success the resume is the one captured at the click with only the summary replaced, by the generated text or "", and "Generated summary added" is shown; on failure the resume stays and "AI generation failed" is shown; the template is never touched |
| ResumeBuilder.GenerationTouchesOnlySummary | frontend/src/components/ResumeBuilder/ResumeBuilder.tsx:77-82 | captured resumes that differ only in their summary give the same result; with no edits while pending, only the summary and the notification change |
| ResumeBuilder.PendingEditsOverwritten | frontend/src/components/ResumeBuilder/ResumeBuilder.tsx:79-82 | a successful result's resume does not depend on the state the request settles in, so edits made while it was pending are lost |
| ResumeBuilder.ExportSucceeded | frontend/src/components/ResumeBuilder/ResumeBuilder.tsx:153-155 | a successful export shows "Resume exported successfully!" as a success and leaves the resume and template alone |
| ResumeBuilder.ExportFailed | frontend/src/components/ResumeBuilder/ResumeBuilder.tsx:156-158 | a failed export shows "Export failed: " and the error as an error and leaves the resume and template alone |
| Outline.LineIf | frontend/src/components/PreviewPanel/templates/ModernTemplate.tsx:27-29 | a conditional line appears exactly when its condition holds |
| Outline.EndLabel | frontend/src/components/PreviewPanel/templates/ModernTemplate.tsx:68-71 | the end label is "Present" while in progress or when the end date is empty, and the formatted end date otherwise |
| Outline.DateRangeIgnoresEnd | frontend/src/components/PreviewPanel/templates/ModernTemplate.tsx:68-71 | an in-progress entry's range reads "start - Present", whatever its stored end date |
| Outline.SummarySection | frontend/src/components/PreviewPanel/templates/ModernTemplate.tsx:40-49 | the summary section appears exactly when the summary is non-empty, no other section comes with it, and it carries the summary in the area the template gives it (full width in Modern, the main column in Creative) |
| Outline.LabelledIf | frontend/src/components/PreviewPanel/templates/ModernTemplate.tsx:30-35 | an optional contact item appears, with its label prefix, exactly when it is present and non-empty |
| Outline.SkillNames | frontend/src/components/PreviewPanel/templates/ModernTemplate.tsx:203-209 | the skill names are listed in the order of the skills |
| SkillGrouping.CategoryKey | frontend/src/components/PreviewPanel/templates/ModernTemplate.tsx:192 | a blank category groups under "Other", and any other category under itself |
| SkillGrouping.AccumulateSpec | frontend/src/components/PreviewPanel/templates/ModernTemplate.tsx:191-196 | the accumulator holds one group per distinct key in first-occurrence order, each with its skills in input order |
| SkillGrouping.Keep | frontend/src/components/PreviewPanel/templates/ModernTemplate.tsx:190 | the split of the entries keeps exactly the groups whose key is, or is not, integer-like |
| SkillGrouping.SortByIndex | frontend/src/components/PreviewPanel/templates/ModernTemplate.tsx:190 | the integer-like keys are sorted ascending without losing or adding a group |
| SkillGrouping.GroupSkillsPartition | frontend/src/components/PreviewPanel/templates/ModernTemplate.tsx:190-197 | the groups have distinct keys, each group holds exactly the skills of its key in input order, and a group exists iff some skill has that key |
| SkillGrouping.GroupSkillsOrder | frontend/src/components/PreviewPanel/templates/ModernTemplate.tsx:190-197 | integer-like keys come first in ascending order, then the other keys in first-occurrence order |
| SkillGrouping.GroupSkillsFirstOccurrence | frontend/src/components/PreviewPanel/templates/CreativeTemplate.tsx:14-19 | with no integer-like category, the groups follow the first occurrence of each key |
| ModernTemplate.Contacts | frontend/src/components/PreviewPanel/templates/ModernTemplate.tsx:27-35 | an item is shown exactly when it is the non-empty email, phone or address, or the labelled non-empty LinkedIn or portfolio; one item per such field, the email first and the portfolio last |
| ModernTemplate.Render | frontend/src/components/PreviewPanel/templates/ModernTemplate.tsx:22-25 | the header comes first and opens with "firstName lastName" |
| ModernTemplate.SummaryFollowsHeader | frontend/src/components/PreviewPanel/templates/ModernTemplate.tsx:39-51 | a non-empty summary follows the header across the full width, before the columns |
| ModernTemplate.Sections | frontend/src/components/PreviewPanel/templates/ModernTemplate.tsx:40-237 | the summary appears iff it is non-empty; experience, education, projects, skills and certifications each appear iff their list is non-empty |
| ModernTemplate.WorkEntriesAppend | frontend/src/components/PreviewPanel/templates/ModernTemplate.tsx:61-95 | jobs render in list order: a job added last adds its own lines at the end |
| ModernTemplate.WorkLinesShape | frontend/src/components/PreviewPanel/templates/ModernTemplate.tsx:61-95 | a job's lines open with its title, date range and company and end with its achievements, one line each |
| ModernTemplate.JobEndHiddenWhileCurrent | frontend/src/components/PreviewPanel/templates/ModernTemplate.tsx:68-71 | a current job's stored end date never reaches the page |
| ModernTemplate.SchoolEndHiddenWhileStudying | frontend/src/components/PreviewPanel/templates/ModernTemplate.tsx:114-117 | an ongoing study's stored end date never reaches the page |
| ModernTemplate.IssuedLine | frontend/src/components/PreviewPanel/templates/ModernTemplate.tsx:229-231 | a certification line always starts with "Issued: " and the formatted issue date |
| ModernTemplate.ExpirySuffixIffExpiring | frontend/src/components/PreviewPanel/templates/ModernTemplate.tsx:230-231 | the expiry suffix appears iff an expiration date is present, and is then the separator and the formatted date |
| CreativeTemplate.NameSection | frontend/src/components/PreviewPanel/templates/CreativeTemplate.tsx:26-29 | the name block shows "firstName lastName" |
| CreativeTemplate.Contacts | frontend/src/components/PreviewPanel/templates/CreativeTemplate.tsx:40-42 | an item is shown exactly when it is the non-empty email, phone or LinkedIn, unlabelled; one item per such field, the email first and LinkedIn last |
| CreativeTemplate.Render | frontend/src/components/PreviewPanel/templates/CreativeTemplate.tsx:26-64 | the name block comes first and the sidebar is always there |
| CreativeTemplate.Sections | frontend/src/components/PreviewPanel/templates/CreativeTemplate.tsx:36-145 | contact and skills headings always appear; summary, experience, education and projects appear iff their content is non-empty; there is never a certifications section |
| CreativeTemplate.IgnoresCertifications | frontend/src/components/PreviewPanel/templates/CreativeTemplate.tsx:10-11 | certifications never affect the page |
| CreativeTemplate.IgnoresAddressAndPortfolio | frontend/src/components/PreviewPanel/templates/CreativeTemplate.tsx:39-43 | the address and the portfolio never affect the page |
| CreativeTemplate.IgnoresAchievements | frontend/src/components/PreviewPanel/templates/CreativeTemplate.tsx:84-100 | achievements never affect the page |
| CreativeTemplate.JobEndHiddenWhileCurrent | frontend/src/components/PreviewPanel/templates/CreativeTemplate.tsx:92-94 | a current job's stored end date never reaches the page |
| CreativeTemplate.SchoolEndHiddenWhileStudying | frontend/src/components/PreviewPanel/templates/CreativeTemplate.tsx:120-122 | an ongoing study's stored end date never reaches the page |
| ClassicTemplate.Contacts | frontend/src/components/PreviewPanel/templates/ClassicTemplate.tsx:17-21 | an item is shown exactly when it is the non-empty email, phone or address; one item per such field, email first and address last |
| ClassicTemplate.Render | frontend/src/components/PreviewPanel/templates/ClassicTemplate.tsx:13-25 | the page is the header alone, opening with "firstName lastName"; no list-backed section ever appears |
| ClassicTemplate.HeaderOnly | frontend/src/components/PreviewPanel/templates/ClassicTemplate.tsx:13-25 | the page depends only on the name, email, phone and address, so LinkedIn, portfolio, summary and every list are never rendered |
| TemplateSelector.Catalogue | frontend/src/components/TemplateSelector/TemplateSelector.tsx:10-35 | the catalogue is exactly modern/blue, classic/green and creative/purple, in that order |
| TemplateSelector.Find | frontend/src/components/TemplateSelector/TemplateSelector.tsx:42 | the lookup fails iff no entry has the id, and otherwise returns the first entry with it |
| TemplateSelector.ColorOf | frontend/src/components/TemplateSelector/TemplateSelector.tsx:42-43 | the three catalogue ids have their colours and any other id has none |
| TemplateSelector.GetTemplateColor | frontend/src/components/TemplateSelector/TemplateSelector.tsx:41-53 | the catalogue ids give their bg classes and any unknown id "bg-gray-500" |
| TemplateSelector.GetTemplateBorderColor | frontend/src/components/TemplateSelector/TemplateSelector.tsx:55-67 | the catalogue ids give their border and ring classes and any unknown id the gray ones |
| TemplateSelector.BadgeColor | frontend/src/components/TemplateSelector/TemplateSelector.tsx:119-125 | blue and green get their badge classes and every other colour falls to purple, not gray |
| TemplateSelector.SelectedCount | frontend/src/components/TemplateSelector/TemplateSelector.tsx:85 | no card is highlighted iff no card's id equals the selected id |
| TemplateSelector.SelectedCountDistinct | frontend/src/components/TemplateSelector/TemplateSelector.tsx:81-89 | among cards with distinct ids, exactly one is highlighted when the selected id is listed, and none otherwise |
| TemplateSelector.ClickSelectsThatCard | frontend/src/components/TemplateSelector/TemplateSelector.tsx:85-107 | after a click exactly the clicked card is highlighted, a card is selected by id alone, and the default template is the first card |
| PreviewPanel.Dispatch | frontend/src/components/PreviewPanel/PreviewPanel.tsx:29-38 | "classic" and "creative" pick their renderers and every other id, known or not, picks Modern |
| PreviewPanel.RenderTemplate | frontend/src/components/PreviewPanel/PreviewPanel.tsx:26-39 | the preview is the chosen renderer applied to the unchanged resume |
| PreviewPanel.OnlyIdMatters | frontend/src/components/PreviewPanel/PreviewPanel.tsx:27-37 | templates with the same id render alike, and an unknown id renders as the default template |
| PreviewPanel.InitialPanel | frontend/src/components/PreviewPanel/PreviewPanel.tsx:24 | the panel starts not exporting |
| Generators.ImageHeight | frontend/src/services/export/generators.ts:21-23 | the image height keeps the canvas's aspect ratio at the page width of 210 |
| Generators.PageCount | frontend/src/services/export/generators.ts:27-35 | n pages cover an image height h with (n - 1) * 295 <= h < n * 295 |
| Generators.PageCountUnique | frontend/src/services/export/generators.ts:27-35 | that bracket determines the page count, which is 1 + floor(h / 295) |
| Generators.ExactMultipleAddsBlankPage | frontend/src/services/export/generators.ts:30-35 | an image exactly m pages tall gets m + 1 pages, the last one drawn wholly above the page |
| Generators.TilePages | frontend/src/services/export/generators.ts:21-35 | the loop ends, emits PageCount(imgHeight) pages, and page k draws the image at offset -k * 295 |
| Generators.RawEnd | frontend/src/services/export/generators.ts:86-105 | the placeholder text shows "Present" while in progress and the raw end date otherwise |
| Generators.WorkBlocks | frontend/src/services/export/generators.ts:86-94 | one work block per job, in list order |
| Generators.EducationBlocks | frontend/src/services/export/generators.ts:97-105 | one education block per entry, in list order |
| Generators.DocxWorkSnoc | frontend/src/services/export/generators.ts:86-94 | a new job adds its block after a newline to the end of the work text |
| Generators.DocxEducationSnoc | frontend/src/services/export/generators.ts:97-105 | a new entry adds its block after a newline to the end of the education text |
| Generators.DocxOpensWithContact | frontend/src/services/export/generators.ts:75-81 | the text carries the "Resume for" name line and the Email and Phone lines |
| Generators.DocxListsWorkEntry | frontend/src/services/export/generators.ts:86-94 | every job's block occurs in the text |
| Generators.DocxListsEducationEntry | frontend/src/services/export/generators.ts:97-105 | every education entry's block occurs in the text |
| Generators.DocxCurrentJobIgnoresEnd | frontend/src/services/export/generators.ts:90 | a current job's stored end date never reaches the text |
| Generators.DocxOngoingStudyIgnoresEnd | frontend/src/services/export/generators.ts:102 | an ongoing study's stored end date never reaches the text |
| Generators.DocxIgnoresAchievements | frontend/src/services/export/generators.ts:73-107 | achievements never reach the text |
| Generators.HtmlHeaderOnly | frontend/src/services/export/generators.ts:109-134 | the page depends only on the name, email, phone and address, never on the template; it carries the title, the h1 and the contact line |
| ExportControls.Extension | frontend/src/components/PreviewPanel/ExportControls.tsx:39-52 | every format has one of the extensions pdf, docx, html |
| ExportControls.ParseFilename | frontend/src/components/PreviewPanel/ExportControls.tsx:39-52 | a name that parses is the download name of the parsed first name and format |
| ExportControls.FilenameRoundTrip | frontend/src/components/PreviewPanel/ExportControls.tsx:39-52 | firstName + "_Resume." + extension reads back as that first name and format |
| ExportControls.ExportErrorText | frontend/src/components/PreviewPanel/ExportControls.tsx:74 | an Error reports its message and anything else "Export failed" |
| ExportControls.SaveErrorText | frontend/src/components/PreviewPanel/ExportControls.tsx:71 | a non-empty message is reported as is, otherwise "Failed to save resume to backend"; the report is never empty |
| ExportControls.SavePayload | frontend/src/components/PreviewPanel/ExportControls.tsx:61-68 | the saved payload is exactly the six sections of the resume |
| ExportControls.HandleExport | frontend/src/components/PreviewPanel/ExportControls.tsx:30-78 | without a preview nothing happens; otherwise the flag is raised first, the export is given the derived file name, and the flag is lowered last |
| ExportControls.ExportingFlagBrackets | frontend/src/components/PreviewPanel/ExportControls.tsx:33-77 | the flag is up between the first and the last effect and down after the click, on every path |
| ExportControls.ExportOutcomes | frontend/src/components/PreviewPanel/ExportControls.tsx:56-74 | success is reported before the save is tried, a failed save adds one error report, and a failed export only reports its error |
| ExportControls.SaveIffExported | frontend/src/components/PreviewPanel/ExportControls.tsx:56-74 | the save happens iff the export succeeded, and an error is reported iff the export or the save failed |
| JsonModel.JsString | frontend/src/services/hf.ts:102-135 | `String` throws exactly on an object with its own `toString` key or an array holding one; otherwise a string is itself, an object "[object Object]" and an empty array "" |
| JsonModel.PyStr | backend/app/ai.py:42-53 | `str` of a string is itself, of anything else its repr |
| JsonModel.PyOr | backend/app/ai.py:33 | `a or b` is a when a is truthy, else b |
| Hf.ToLowerChar | frontend/src/services/hf.ts:23 | lower-casing leaves no ASCII capital and keeps lower-case letters |
| Hf.Lower | frontend/src/services/hf.ts:23 | the prompt is lower-cased character by character, keeping its length |
| Hf.LowerIdempotent | frontend/src/services/hf.ts:23 | lower-casing twice is lower-casing once |
| Hf.MockClassification | frontend/src/services/hf.ts:16-36 | each canned answer is given exactly when its needle is in the lower-cased prompt and no earlier needle is: "summary", then "bullet" or "point", then "skill", then the generic text |
| Hf.MockIgnoresCase | frontend/src/services/hf.ts:16-36 | the classifier ignores case and the token budget |
| Hf.ExtractText | frontend/src/services/hf.ts:98-135 | for an array the first element is read: its string generated_text is the answer, otherwise its `String`, and an empty array gives "undefined"; any other value is read the same way itself; it throws exactly when the value read holds a non-string generated_text, or has no generated_text and `String` throws on it |
| Hf.GenerateTextHF | frontend/src/services/hf.ts:1-54 | in mock mode (flag "true" or no token) the answer is the mock for the prompt, with no request |
| Hf.AnswerProvenance | frontend/src/services/hf.ts:38-144 | an answer is either the prompt's mock or, exactly when the request got a 2xx JSON body with extractable text, that text |
| Hf.OwnToStringGivesMock | frontend/src/services/hf.ts:129-142 | a 200 body that is an object with its own `toString` key gets the mock answer, because `String` throws on it |
| Hf.FailuresGiveMock | frontend/src/services/hf.ts:86-143 | a failed request, a non-2xx status or a body that is not JSON gives the mock answer and never an error |
| Ai.DefaultModel | backend/app/ai.py:7 | the model default is the environment's value when set, else "gpt2" |
| Ai.ResolveModel | backend/app/ai.py:17 | an absent or empty model name takes the default |
| Ai.ResolvedModelNonEmpty | backend/app/ai.py:17 | with a non-empty default the chosen model is never empty |
| Ai.FailureDetail | backend/app/ai.py:30-36 | a non-200 dict body reports its truthy 'error', else the whole dict; any other body reports the raw text |
| Ai.Extract | backend/app/ai.py:38-53 | a dict with 'error' raises with it and an empty list raises; otherwise the first element of a list, or the body itself, gives its generated_text when it has one and its `str` when not |
| Ai.GenerateText | backend/app/ai.py:16-53 | a missing or empty token raises first; a value is returned only from a 200 reply with a JSON body, and then it is exactly what that body yields |
| Ai.ErrorOrdering | backend/app/ai.py:18-41 | with a token, a failed request, a non-200 status, an undecodable body and an 'error' key each raise in that order of precedence |
| Ai.SidesReadTheSameSource | backend/app/ai.py:42-50 | both sides read generated_text from the same value; the backend returns it whatever it is, the frontend only when it is a string |
| Ai.SidesStringifyDifferently | backend/app/ai.py:42-53 | without the key the backend uses `str` and the frontend `String` of the same value, and an empty list raises on one side and gives "undefined" on the other |
| Ai.SidesAgreeOnListReply | backend/app/ai.py:42-46 | on a list whose first dict has a string generated_text, the frontend service and the backend return the same text |
| Ai.SidesDifferOnErrorKey | backend/app/ai.py:40-41 | a dict with both 'error' and a string generated_text is returned by the frontend service but raises in the backend |
| Ai.SidesDifferOnNon200Success | backend/app/ai.py:30 | a 2xx status other than 200 is read by the frontend service but raises in the backend |

## Left out

- Rendering is modelled as an outline of sections and lines: JSX markup, CSS classes, icons and layout are not modelled.
- The non-empty branch of `formatDate` (locale formatting through `Date`) is the parameter `fmt`. In `calculateDuration`, date parsing and time zones are left out: dates are year/month pairs, and "now" is the parameter `today`.
- `generateId` (clock and random) is left out; the forms take the fresh id as a parameter.
- `exportToJson` and `importFromJson` in `frontend/src/utils/helpers.ts` are file I/O and are not modelled.
- ListEdit.Replace, EducationForm.UpdateEducation, WorkExperienceForm.UpdateWorkExperience, SkillsForm.UpdateSkill, WorkExperienceForm.AddAchievement, WorkExperienceForm.UpdateAchievement, WorkExperienceForm.RemoveAchievement: these require an index within the list. The forms only pass indices of rendered rows, and JavaScript would grow a sparse array, or throw on an undefined entry, for any other index.
- `JSON.parse`, `JSON.stringify` and `localStorage` are given as decoder and encoder parameters and a key→string map. The load does not check a parsed value's shape: the model's typed decoders return the stored aggregate as is.
- html2canvas, jsPDF, `Blob`, object URLs and anchor clicks are left out. The page tiling uses exact reals, so floating-point rounding is not modelled, and neither is a canvas of width 0.
- `String` of a number in JavaScript, and Python's `repr`, are the parameters `numberText` and `repr`.
- The request URL, headers, payload and timeout of both text-generation sides, the default model and token budget of the frontend service, the message texts of the backend's `RuntimeError`s, and all console logging, are left out.
- Hf.ToLowerChar: models `toLowerCase` only for ASCII capitals and the Kelvin sign. Every other character either keeps its case or lower-cases to characters outside ASCII. The one exception, U+0130, lower-cases to "i" followed by U+0307, and U+0307 can never precede the "n" or "l" of a needle. So no other mapping can create or destroy a match of the ASCII needles.
- ResumeBuilder.GenerateSummary: models `resp.generated_text` as an optional string. A truthy non-string value, which the code would store as is, is not represented. The resume captured at the click and the state the request settles in are separate parameters: as in the code, a success writes back the captured resume, so edits made while the request is pending are overwritten. Which edits happen meanwhile is not modelled.
- `api.generateText` and `api.saveResume` (`frontend/src/services/api.ts`) are not part of this model. Their outcome is a parameter: a `Generation` result, and an optional save fault.
- The export callbacks and the form callbacks are assumed not to throw.
- `showToast`'s four-second hiding timer, which restores a stale toast, is left out; the model keeps the toast that was last shown.
- A skill category spelling an `Object.prototype` member (such as "constructor") would make `acc[cat]` find an inherited value. The grouping model treats every category as an ordinary key.
- The Modern certification line keeps the source's separator as written, " â€¢ Expires: ", a mis-encoded bullet.
- The Classic template renders only its header, as the code does.
- CreativeTemplate.NameSection: the line under the name prints `(personalInfo as any).position`. `PersonalInfo` has no such field, so the line is empty for every aggregate the model can represent; a loaded aggregate carrying a `position` key, which the load would not reject, is not represented.
- The code has no ATS keyword scoring, so none is modelled.
- Supabase storage, authentication, FastAPI routing and HTTP status mapping, and the static pages are outside the core.
