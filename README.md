# Moodle multi-marker grading, feedback comments, task progress, grade import and usage filter — a Dafny model

This project models six small parts of Moodle and proves properties of the model.

- **Marker allocation** (`markerallocation.dfy`, module `MarkerAllocation`). An assignment allocates markers to each student. It keeps one mark row per grade and marker. Unless the multimark method is Manual, it derives the overall grade from the marks of the markers allocated right now: the first one, the maximum, or the average under one of four roundings. It also derives the overall workflow state from the allocated markers' states. The aggregator's own implementation is not part of this model. The model is built against the assertions of `public/mod/assign/tests/markerallocation_test.php`.
- **Feedback comments** (`feedbackcomments.dfy`, module `FeedbackComments`). The comments table is keyed by (grade, optional mark). A null mark is the overall comment. The model covers:
  - lookup, and saving by update-or-insert;
  - the editor text accessors;
  - quick-grading save and its modification check;
  - the form's modification check;
  - the file-area and item-id choice;
  - the merge of submission texts into feedback;
  - `can_upgrade`.
- **Pollable task** (`pollabletask.dfy`, module `PollableTask`). A task finds its type and id, keeps a single row in `task_progress` while it polls, and records its progress there. This covers the setters and the progress percentage.
- **Offline grade import** (`importgrades.dfy`, module `ImportGrades`). This is the confirmation loop of the worksheet import. For each record it covers:
  - mark normalisation and scale conversion;
  - the first-match skip chain;
  - the grade-modified and mark-modified tests;
  - the marker-column filter on feedback columns;
  - the list of update lines, and whether anything is to be updated.
- **Question usage filter** (`questionusage.dfy`, module `QuestionUsage`). `build_query_from_filter` turns a mode and up to two timestamps into a condition on `attempts.lastused` with named parameters, or raises an error.
- **Marking-agreement names** (`markingagreement.dfy`, module `MarkingAgreement`). This hook collects display names by class name.

`wrappers.dfy` holds the `Option` and `Result` datatypes.

Stateful parts are classes: `Assignment`, `CommentsPlugin`, `ProgressTable`, `Task` and `NameRegistry`. Each method states what it changes and what it keeps. The marking methods of `Assignment` state this per student: the rows and marks of the students they write, and that every other student's are kept. They do not spell out the whole new tables. Pure parts are functions with lemmas. Each test scenario is a method that builds fresh objects, runs the calls the test makes, and proves the test's expected values.

Where the code and its prose description disagree, the code is followed:

- **Workflow test** (`public/mod/assign/tests/markerallocation_test.php:597-614`). The overall state stays "in marking" after the first marker reports "ready for review". At that point the second marker has no mark row at all; it is not in "in marking". The model therefore treats a marker without a state as still marking.
- **Scale indexes.** They come from `make_menu_from_list` (in `lib/weblib.php`, which is not part of this model). It keys the options from 1 and builds the menu from the last option to the first. So a scale grade is never 0 in `importgradesform.php`, and `array_search` finds the last of repeated options.
- **`get_editor_text` and the mark id.** `importgradesform.php:209` passes a mark id to `get_editor_text`. The comments plugin's `get_editor_text` (`public/mod/assign/feedback/comments/locallib.php:256-265`) takes no mark id and always returns the overall comment. The import model therefore takes the editor text as a function supplied by the caller, with the mark id as an argument.

## Model

| member | source | states |
|---|---|---|
| MarkerAllocation.Round | public/mod/assign/tests/markerallocation_test.php:446-575 | no rounding keeps the mean; down, up and natural give the whole numbers at most 1 below, at most 1 above, and within one half of the mean |
| MarkerAllocation.Aggregate | public/mod/assign/tests/markerallocation_test.php:349-439 | a grade exists iff the method is not Manual and every allocated marker (at least one) has marked; First gives the first allocated marker's mark; Max gives a mark that is at least every other mark |
| MarkerAllocation.AverageWithinMarks | public/mod/assign/tests/markerallocation_test.php:446-478 | the unrounded average of complete marks lies between the lowest and the highest mark |
| MarkerAllocation.SingleMarkerDecides | public/mod/assign/tests/markerallocation_test.php:380-439 | with one allocated marker, First and Max give that mark and Average gives it rounded |
| MarkerAllocation.TwoMarksAggregate | public/mod/assign/tests/markerallocation_test.php:349-575 | for marks x then y: Manual gives none, First x, Max the larger, Average the rounded (x+y)/2 |
| MarkerAllocation.UnallocatedMarkIgnored | public/mod/assign/tests/markerallocation_test.php:631-662 | a mark row of a marker who is not allocated never changes the overall grade |
| MarkerAllocation.IncompleteMarksLeaveGradeUnset | public/mod/assign/tests/markerallocation_test.php:631-662 | if any allocated marker has no mark, the overall grade is -1 |
| MarkerAllocation.EarliestState | public/mod/assign/tests/markerallocation_test.php:582-624 | the combined state is no later than any allocated marker's effective state, and is one of them |
| MarkerAllocation.AllAgreeGivesThatState | public/mod/assign/tests/markerallocation_test.php:616-623 | when every allocated marker reports the same state, that is the overall state |
| MarkerAllocation.AdvancesOnlyWhenAllReached | public/mod/assign/tests/markerallocation_test.php:606-623 | the overall state gets past "in marking" only when every allocated marker has reported a state at least that far along |
| MarkerAllocation.CombineTwo | public/mod/assign/tests/markerallocation_test.php:582-624 | with two allocated markers, the first reporting p, the overall state is the earlier of p and the second's effective state |
| MarkerAllocation.AverageOfNinetyAndTwentyFive | public/mod/assign/tests/markerallocation_test.php:446-575 | marks 90 and 25 average to 57.5, 57, 58 and 58 under none, down, up and natural rounding |
| MarkerAllocation.Assignment.constructor | public/mod/assign/tests/markerallocation_test.php:304-311 | a new assignment has no allocations, grades, marks or flags |
| MarkerAllocation.Assignment.GetAllocatedMarkers | public/mod/assign/tests/markerallocation_test.php:309-319 | the markers last allocated to the student, none before any allocation |
| MarkerAllocation.Assignment.UpdateAllocatedMarkers | public/mod/assign/tests/markerallocation_test.php:313-319 | replaces the student's allocation, keeps every mark row |
| MarkerAllocation.Assignment.GetUserGrade | public/mod/assign/tests/markerallocation_test.php:322-323 | the student's grade row; creates one with grade -1 only when asked and none exists; otherwise nothing changes |
| MarkerAllocation.Assignment.GetMark | public/mod/assign/tests/markerallocation_test.php:322-341 | the marker's row on the grade, or no mark ("false"); with create, a fresh empty row; otherwise nothing changes |
| MarkerAllocation.Assignment.UpdateMark | public/mod/assign/tests/markerallocation_test.php:327-341 | the marker's row holds the new mark and state, keeps its id, and no other row changes; the overall grade is untouched under Manual and recomputed from the allocated markers otherwise |
| MarkerAllocation.Assignment.CalculateAndSaveOverallWorkflowState | public/mod/assign/tests/markerallocation_test.php:582-624 | the student's flags hold the combination of the allocated markers' states, and no other flags change |
| MarkerAllocation.Assignment.SaveGrade | public/mod/assign/tests/markerallocation_test.php:201-258 | the student and, with "apply to all", every team member the actor is allocated to get the actor's mark and, unless Manual, a grade recomputed from their allocated markers' marks; no other marker's mark changes for anyone; every student who had a grade row keeps its id; every other student keeps their grade id, grade row and marks |
| MarkerAllocation.Assignment.MarkTeam | public/mod/assign/tests/markerallocation_test.php:201-258 | exactly the team members the actor is allocated to get the actor's mark and, unless Manual, a recomputed grade; no other marker's mark changes; every other student keeps their grade id, grade row and marks |
| MarkerAllocation.Assignment.MarkFor | public/mod/assign/tests/markerallocation_test.php:322-341 | one student gets the actor's mark (grade row and mark row created if missing) and, unless Manual, a recomputed grade; an existing grade id is kept; no other marker's mark and no other student's row or mark changes |
| MarkerAllocation.MultipleMarkerAllocation | public/mod/assign/tests/markerallocation_test.php:304-341 | 0 markers, then 2; no mark before marking; marks 99 and 11 are found under their own markers and kept apart |
| MarkerAllocation.TwoMarkerGrade | public/mod/assign/tests/markerallocation_test.php:349-575 | the overall grade after two allocated markers mark: -1 for Manual, the first mark for First, the larger for Max, the rounded mean for Average |
| MarkerAllocation.UnallocatedMarkerNotCounted | public/mod/assign/tests/markerallocation_test.php:631-662 | a replaced marker's mark is not counted: the grade stays -1 |
| MarkerAllocation.WorkflowFollowsMarkers | public/mod/assign/tests/markerallocation_test.php:582-624 | the overall workflow state is empty, then in marking, then still in marking, then ready for review |
| MarkerAllocation.TeamMarksReachAllocatedMembers | public/mod/assign/tests/markerallocation_test.php:201-229 | apply-to-all copies the mark 50 to all three members the marker is allocated to |
| MarkerAllocation.TeamMarksSkipUnallocatedMember | public/mod/assign/tests/markerallocation_test.php:231-257 | apply-to-all reaches the two allocated members; the third has no mark of that marker |
| FeedbackComments.UpsertOneRowPerKey | public/mod/assign/feedback/comments/locallib.php:559-572 | writing a comment keeps one row per key: the table grows only for a new key, the row holds the text, an existing row keeps its format and assignment, a new row gets the given format and the instance, and every other row is untouched |
| FeedbackComments.FileAreaFor | public/mod/assign/feedback/comments/locallib.php:833-840 | a marker comment uses the marker area with its mark id, the overall comment the feedback area with its grade id |
| FeedbackComments.FileAreasKeepCommentsApart | public/mod/assign/feedback/comments/locallib.php:538-546 | two different comment rows of one grade, or any overall comment versus a marker comment, never share a file area and item id |
| FeedbackComments.GuardsDisagreeOnlyOnZero | public/mod/assign/feedback/comments/locallib.php:311-313 | the quick-grading guard as written and the corrected one disagree exactly on the value "0" |
| FeedbackComments.QuickgradeWritesRows | public/mod/assign/feedback/comments/locallib.php:309-324 | quick-grading save writes the submitted marker comment under its mark key and any submitted overall comment; unwritten comments keep their text; all other rows are untouched |
| FeedbackComments.QuickgradeWritesRowsAsWritten | public/mod/assign/feedback/comments/locallib.php:309-324 | the same with the guard as written: the overall comment is written only when that guard lets it through |
| FeedbackComments.QuickgradeSaveSettles | public/mod/assign/feedback/comments/locallib.php:303-363 | after quick-grading save, neither submitted comment differs from what is stored |
| FeedbackComments.ZeroCommentStaysModified | public/mod/assign/feedback/comments/locallib.php:311-313 | as written, an overall comment "0" is not stored and still counts as modified afterwards |
| FeedbackComments.CanUpgrade | public/mod/assign/feedback/comments/locallib.php:666-673 | upgrade only from upload, uploadsingle, online or offline, and only from version 2011112900 |
| FeedbackComments.CanUpgradeCharacterised | public/mod/assign/feedback/comments/locallib.php:666-673 | both directions of that rule, and an upgradable type stays upgradable at every later version |
| FeedbackComments.RunningFormatMerges | public/mod/assign/feedback/comments/locallib.php:442-453 | the merged format is none without fields, the common format when all fields agree, and plain once two differ |
| FeedbackComments.FeedbackFormat | public/mod/assign/feedback/comments/locallib.php:446-459 | the stored format: HTML without fields, the common format, or plain |
| FeedbackComments.ConvertSubmissionTextToFeedback | public/mod/assign/feedback/comments/locallib.php:406-464 | the text is the cleaned texts of the fields of every enabled, visible, non-empty plugin that has fields, in order; the format is their merged format |
| FeedbackComments.AppendFields | public/mod/assign/feedback/comments/locallib.php:442-453 | appending one plugin's fields extends the text by their cleaned texts and the running format by their formats, as if the fields had been listed after the earlier ones |
| FeedbackComments.CommentsPlugin.constructor | public/mod/assign/feedback/comments/locallib.php:64-70 | a plugin over an assignment with an empty comments table |
| FeedbackComments.CommentsPlugin.GetFeedbackComments | public/mod/assign/feedback/comments/locallib.php:64-70 | the row stored under exactly (grade, mark), the whole row, and none iff there is no such row |
| FeedbackComments.CommentsPlugin.SentinelMatchesNoRow | public/mod/assign/feedback/comments/locallib.php:170-172 | the mark id -1 never finds a row, so it never finds the overall comment |
| FeedbackComments.CommentsPlugin.MarkerKey | public/mod/assign/feedback/comments/locallib.php:168-173 | the id of the marker's mark row when there is one, or -1 when there is none; never the overall key |
| FeedbackComments.CommentsPlugin.FormMarkKey | public/mod/assign/feedback/comments/locallib.php:202-206 | a mark id exactly when marking and the marker has a mark row, and then that row's id; the overall key otherwise |
| FeedbackComments.CommentsPlugin.FormLoadKey | public/mod/assign/feedback/comments/locallib.php:479-495 | the comment the form loads: the same choice, a mark id exactly when marking and the user has a mark row |
| FeedbackComments.CommentsPlugin.FormLoadedText | public/mod/assign/feedback/comments/locallib.php:496-511 | the editor holds the text resubmitted after a failed validation, else the stored comment under the form's key, else with inline comments and a submission the submission's text, else nothing ("" and "0" count as no text) |
| FeedbackComments.CommentsPlugin.UntouchedFormUnmodified | public/mod/assign/feedback/comments/locallib.php:201-228 | a text is modified iff it differs from the stored comment under the form's key; a form loaded from the stored comment, or left empty over an empty comment, reads unmodified when submitted untouched; the inline copy of the submission over an empty comment reads modified iff it has text; resubmitted text is modified iff it differs from the stored comment; a marker without a mark row is shown, and compared against, the overall comment |
| FeedbackComments.CommentsPlugin.IsQuickgradingModified | public/mod/assign/feedback/comments/locallib.php:159-197 | the marker check: a value was submitted and differs from the marker's stored comment; the overall check: the same for the overall comment, or the marker check |
| FeedbackComments.CommentsPlugin.GetEditorText | public/mod/assign/feedback/comments/locallib.php:256-265 | the overall comment's text for field "comments", else the empty text |
| FeedbackComments.CommentsPlugin.SetEditorText | public/mod/assign/feedback/comments/locallib.php:275-294 | for "comments", stores the overall comment (new rows as HTML) and reads back; any other name fails and changes nothing |
| FeedbackComments.CommentsPlugin.Save | public/mod/assign/feedback/comments/locallib.php:536-573 | stores text and format under the marker's mark row when marking (created if missing) or the overall key otherwise; reports the matching file area and item id; a created mark row is a fresh empty row under the next mark id, and otherwise no mark changes; the saved text then reads as unmodified, and every other text as modified |
| FeedbackComments.CommentsPlugin.SaveQuickgradingChangesMarker | public/mod/assign/feedback/comments/locallib.php:333-363 | no submitted marker comment: nothing changes; otherwise the comment is stored under the user's mark row, which is created if missing as a fresh empty row under the next mark id; an existing mark row leaves the marks unchanged |
| FeedbackComments.CommentsPlugin.SaveQuickgradingChanges | public/mod/assign/feedback/comments/locallib.php:303-325 | marker comment first, then the overall comment whenever one was submitted (corrected guard); a mark row is created, fresh and empty, only for a submitted marker comment without one; afterwards nothing reads as modified |
| FeedbackComments.FeedbackModifiedAfterSave | public/mod/assign/feedback/comments/tests/feedback_test.php:67-82 | modified before saving, unmodified for the same text after saving, modified for an altered text |
| FeedbackComments.MarkerCommentKeyedByMark | public/mod/assign/feedback/comments/tests/feedback_test.php:109-127 | a marker's comment is stored under the grade and that marker's mark id, in the marker file area |
| PollableTask.TaskTypeOf | lib/classes/task/pollable_task_trait.php:55-67 | scheduled iff a scheduled-task subclass, adhoc iff an ad hoc subclass, none iff neither |
| PollableTask.TaskIdAsWritten | lib/classes/task/pollable_task_trait.php:75-92 | as written: an id exactly when the type is known; the row's id, or 0 when the row is missing |
| PollableTask.TaskIdDiffersOnlyOnMissingRow | lib/classes/task/pollable_task_trait.php:75-92 | the lookup as written and the corrected one differ exactly for a known type whose row is missing |
| PollableTask.TaskId | lib/classes/task/pollable_task_trait.php:75-92 | corrected: an id exactly when the type is known and the task's row exists, and then that row's id |
| PollableTask.MissingTaskRowReadsAsZero | lib/classes/task/pollable_task_trait.php:75-92 | as written, a scheduled task without a row reads task id 0; the corrected lookup gives none |
| PollableTask.RoundHalfAwayFromZero | lib/classes/task/pollable_task_trait.php:263 | the nearest integer, halves away from zero |
| PollableTask.PercentIsProgress | lib/classes/task/pollable_task_trait.php:254-264 | for 0 <= current <= max, the percentage lies in 0..100, never decreases with the iteration, and is 0 at the start and 100 at the end |
| PollableTask.CalculateTaskProgress | lib/classes/task/pollable_task_trait.php:254-264 | a missing row fails; no maximum gives null; a maximum of 0 fails with a division by zero; any other maximum gives the rounded percentage of current over max, a null current counting as 0 |
| PollableTask.TimeLeftGuard | lib/classes/task/pollable_task_trait.php:273-289 | "-" iff the row has no known type; an estimate only from 5 percent on |
| PollableTask.WithoutTaskRows | lib/classes/task/pollable_task_trait.php:152-162 | exactly the rows of other tasks remain, unchanged |
| PollableTask.ProgressTable.Insert | lib/classes/task/pollable_task_trait.php:133-136 | a new row under a fresh positive id |
| PollableTask.ProgressTable.DeleteTaskRows | lib/classes/task/pollable_task_trait.php:152-162 | removes exactly the rows of (type, task id) |
| PollableTask.Task.constructor | lib/classes/task/pollable_task_trait.php:104-119 | type, task id and progress id start null |
| PollableTask.Task.CanPoll | lib/classes/task/pollable_task_trait.php:104-119 | (corrected lookup, see Findings) succeeds iff type and id are both known, and then stores both; otherwise leaves them unchanged |
| PollableTask.Task.EndPolling | lib/classes/task/pollable_task_trait.php:152-162 | deletes every progress row of the task's (type, id) |
| PollableTask.Task.StartPolling | lib/classes/task/pollable_task_trait.php:126-145 | (corrected lookup, see Findings) nothing when the task cannot poll; otherwise the task's rows are replaced by one fresh row whose id is remembered, and it is the only row of the task |
| PollableTask.Task.SetTaskProgress | lib/classes/task/pollable_task_trait.php:185-198 | before polling nothing changes; afterwards only the percentage of the task's row |
| PollableTask.Task.SetTaskProgressIterations | lib/classes/task/pollable_task_trait.php:208-221 | before polling nothing changes; afterwards only the maximum iterations of the task's row |
| PollableTask.Task.UpdateTaskProgressIteration | lib/classes/task/pollable_task_trait.php:231-245 | before polling nothing changes; afterwards the row gets the new iteration together with the percentage of the row as it was before the write; a failing calculation writes nothing |
| PollableTask.IterationPercentLags | lib/classes/task/pollable_task_trait.php:231-264 | with ten iterations, reporting iterations 5 and 10 stores 0 and then 50 percent |
| PollableTask.RestartKeepsOneRow | lib/classes/task/pollable_task_trait.php:126-198 | setters before polling leave the table empty; starting polling twice leaves exactly one row of the task |
| PollableTask.UnsupportedClassNeverPolls | lib/classes/task/pollable_task_trait.php:55-67 | a class that is neither kind of task never polls and writes no row |
| ImportGrades.NormaliseMark | public/mod/assign/feedback/offline/importgradesform.php:90 | a mark cell that is unset, empty or "0" is no mark; any other is kept |
| ImportGrades.ScaleMenu | public/mod/assign/feedback/offline/importgradesform.php:71 | the menu of a scale: one entry per option, keyed from 1, listing the last option (key n) first and the first option (key 1) last |
| ImportGrades.ArraySearch | public/mod/assign/feedback/offline/importgradesform.php:109-110 | the key of the first entry, in the array's order, whose item is equal; none iff no item is equal |
| ImportGrades.ToScale | public/mod/assign/feedback/offline/importgradesform.php:107-113 | a scale value becomes the 1-based index of the last equal option, or the empty string iff no option is equal |
| ImportGrades.RepeatedOptionTakesLast | public/mod/assign/feedback/offline/importgradesform.php:107-113 | on the scale "Pass,Fail,Pass" the value "Pass" becomes index 3 |
| ImportGrades.Convert | public/mod/assign/feedback/offline/importgradesform.php:107-116 | with a scale, the 1-based index of the last equal option (never below 1), or the empty string iff none is equal; without, the parsed number, or null iff the cell is unset or does not parse |
| ImportGrades.SkipReasonOf | public/mod/assign/feedback/offline/importgradesform.php:118-142 | a record is skipped iff one of the five rules applies; each reason is reported only when every earlier rule fails |
| ImportGrades.ModifiedMeansNewPositive | public/mod/assign/feedback/offline/importgradesform.php:145-152 | a grade or mark is listed iff it is a positive number other than the stored one; 0 is never listed |
| ImportGrades.ColumnMarkId | public/mod/assign/feedback/offline/importgradesform.php:180-198 | null for an overall column; for the user's own marker column, the user's mark id or -1 without a mark row |
| ImportGrades.FeedbackLinesFromOwnColumns | public/mod/assign/feedback/offline/importgradesform.php:179-216 | every feedback line comes from a column the user may change and carries its new text |
| ImportGrades.OtherMarkersColumnsIgnored | public/mod/assign/feedback/offline/importgradesform.php:184-207 | columns of other markers never produce a line |
| ImportGrades.GradeLineBeforeMarkLine | public/mod/assign/feedback/offline/importgradesform.php:154-176 | a record that is not skipped and changes both lists the grade line, then the mark line |
| ImportGrades.StaleRecordListsNothing | public/mod/assign/feedback/offline/importgradesform.php:105-134 | a stale record that is not forced lists nothing and updates nothing |
| ImportGrades.PreviewImport | public/mod/assign/feedback/offline/importgradesform.php:86-219 | the listed lines are those of every record in order; an update is due iff some record is not skipped or lists a feedback change |
| ImportGrades.FeedbackColumnLines | public/mod/assign/feedback/offline/importgradesform.php:179-216 | one line per feedback column the importing user may change whose new text differs from the stored one, in column order; it reports a change exactly when a line is listed |
| ImportGrades.GradeMarkPart | public/mod/assign/feedback/offline/importgradesform.php:88-176 | the grade and mark lines of one record, and that it is applied iff no skip rule applies to its converted grade and mark |
| ImportGrades.ProcessRecord | public/mod/assign/feedback/offline/importgradesform.php:88-217 | one record's grade and mark lines, then its feedback lines; it updates iff it is not skipped or lists a feedback line |
| QuestionUsage.BuildQueryFromFilter | question/bank/usage/classes/questionusage_condition.php:63-105 | no mode or no values: empty condition; unknown mode: invaliddatetimemode; after or before: one strict bound on the first or second value; between: both bounds, or invaliddatetimebetween iff the start is after the end |
| QuestionUsage.PlaceholdersMatchParams | question/bank/usage/classes/questionusage_condition.php:79-103 | the placeholders of the returned condition are exactly the keys of the returned parameters |
| QuestionUsage.BetweenAcceptsOrderedRange | question/bank/usage/classes/questionusage_condition.php:86-95 | between with two values succeeds iff start <= end; an empty range is accepted |
| MarkingAgreement.NameRegistry.constructor | public/mod/assign/classes/hook/marking_agreement_get_names.php:5 | a new hook has no names |
| MarkingAgreement.NameRegistry.Add | public/mod/assign/classes/hook/marking_agreement_get_names.php:6-8 | the class now maps to the name; every other entry is kept; the map grows by one exactly for a new class |
| MarkingAgreement.TwoMethodsListed | public/mod/assign/classes/hook/marking_agreement_get_names.php:5-8 | two classes added give both entries |
| MarkingAgreement.SameClassTwiceKeepsLater | public/mod/assign/classes/hook/marking_agreement_get_names.php:7 | adding one class twice keeps one entry holding the later name |

## Left out

- The aggregator's own code is not part of this model. Its behaviour is fixed only by the tests. Four rules are choices the tests do not decide:
  - an empty allocation gives an unset grade;
  - a marker without a state counts as "in marking";
  - while no allocated marker has reported a state, the current overall state is kept;
  - `SaveGrade` always writes the student it is called for, even when the actor is not allocated to them. The tests only call it for allocated students. Only team members are filtered by allocation.
- SaveGrade: models only the mark writes of `save_grade` and the recomputed grade. The submission, the attempt number and the push to the gradebook are left out.
- A marker list may name the same marker twice; nothing in the model excludes it, and the model's Average then counts that marker's mark twice. Whether the aggregator removes duplicates is not known from the tests.
- The mark-id uniqueness of mark rows is not stated as an invariant. Ids come from a counter that only grows.
- Marks and grades are `real`. The database's decimal precision (the `"99.00000"` text) and PHP float rounding are not modelled.
- PHP's loose string comparison is modelled as exact equality. Under it, numeric strings compare as numbers; this affects the text comparisons and `array_search`. The loose comparisons between stored decimals and converted values are written out (`ImportGrades.LooseEq`).
- `clean_text`, locale `unformat_float` and `format_float`, `get_string`, `fullname` and blind-marking user descriptions are left out. The first two are parameters; the formatted text of update lines is reduced to the line's value.
- In the import, the editor text of each plugin is a caller-supplied function. The comments plugin's own `get_editor_text` ignores the mark id the import passes (see above).
- File storage is not modelled: `file_prepare_standard_editor`, `file_postupdate_standard_editor`, file copying in `convert_submission_text_to_feedback`, `file_rewrite_urls_to_pluginfile` and `format_text`. `is_feedback_modified` therefore compares the editor text as given, and `Save` returns the file area and item id instead of moving files.
- Forms and rendering are not modelled beyond the text `get_form_elements_for_user` puts in the editor (`FormLoadKey`, `FormLoadedText`): `get_quickgrading_html`, `view_text`, `view_summary`, settings and upgrade.
- `optional_param`, `$USER` and the `is_marking` flag are explicit inputs.
- The arithmetic of `calculate_task_time_left` beyond its guards is left out; it uses the wall clock and float division. So are `poll`, `mtrace` and the polling web service.
- `get_task_id` pulls in the task row lookup, which becomes a parameter (`registered`). Database failures other than a missing row are not modelled.
- Date parsing and time zones in `build_query_from_filter` are left out. Values are parsed timestamps, and a missing value reads as the current time (a parameter). `get_initial_values` depends on the clock.
- Marking-agreement dispatch and `should_respond` (`public/mod/assign/classes/markingagreement/method.php`) are not part of this model; they are hook plumbing around the registry.
- CSV parsing through the grade importer is not modelled. Records reach the model as already-parsed values.

## Findings

| source | as written | input that shows it | evidently intended | confidence | as-written member | corrected member |
|---|---|---|---|---|---|---|
| public/mod/assign/feedback/comments/locallib.php:311 | the guard `!$x && $x !== ''` skips every falsy value but `''`, so it also skips `"0"` | quick-grading overall comment `"0"`: nothing is stored, yet `is_quickgrading_modified` (line 183) keeps reporting it as modified | store every submitted value (skip only null) | medium, not executed | FeedbackComments.ZeroCommentStaysModified | FeedbackComments.QuickgradeSaveSettles |
| lib/classes/task/pollable_task_trait.php:75-92 | `get_task_id` returns `get_field`'s `false` for a missing row, and the `?int` return type turns it into 0 | a scheduled task with no `task_scheduled` row: `can_poll` succeeds with task id 0 | a missing row gives null, so `can_poll` fails | medium, not executed | PollableTask.MissingTaskRowReadsAsZero | PollableTask.TaskId |
