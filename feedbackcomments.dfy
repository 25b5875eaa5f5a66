/**
 * The feedback comments plugin of an assignment: a table of comment rows keyed by (grade, mark),
 * where a null mark is the overall comment of the grade and a mark id is one marker's comment.
 */
module FeedbackComments {
  import opened Wrappers
  import opened MarkerAllocation

  /** Moodle's text formats: FORMAT_MOODLE, FORMAT_HTML, FORMAT_PLAIN, FORMAT_MARKDOWN. */
  datatype TextFormat = FormatMoodle | FormatHtml | FormatPlain | FormatMarkdown

  const Component: string := "assignfeedback_comments"
  const FileArea: string := "feedback"
  const FileAreaMarker: string := "feedback_marker"

  /** The mark id looked up for a marker who has no mark row yet; it is no mark id, so it matches no row. */
  const NoMarkSentinel: int := -1

  /** The only editor field of the plugin. */
  const CommentsField: string := "comments"

  /** A comment row; its grade and mark are the key it is stored under. */
  datatype Comment = Comment(commenttext: string, commentformat: TextFormat, assignment: int)

  type CommentKey = (GradeId, Option<int>)

  // ---------------------------------------------------------------------------------------------
  // Row-level operations on the table
  // ---------------------------------------------------------------------------------------------

  /** The text stored under `key`, the empty text when there is no row. */
  function StoredText(comments: map<CommentKey, Comment>, key: CommentKey): string {
    if key in comments then comments[key].commenttext else ""
  }

  /**
   * Update-or-insert of a comment's text: an existing row keeps its format and assignment, a
   * new row gets `newFormat` and the assignment instance.
   */
  function Upsert(comments: map<CommentKey, Comment>, key: CommentKey, text: string, newFormat: TextFormat,
                  instance: int): map<CommentKey, Comment>
  {
    comments[key := if key in comments then comments[key].(commenttext := text) else Comment(text, newFormat, instance)]
  }

  /**
   * Writing a row never adds a second row for its key: the table grows by one row exactly when
   * the key was new, the row then holds the text, and every other row is untouched.
   */
  lemma UpsertOneRowPerKey(comments: map<CommentKey, Comment>, key: CommentKey, text: string,
                           newFormat: TextFormat, instance: int)
    ensures var c := Upsert(comments, key, text, newFormat, instance);
      && c.Keys == comments.Keys + {key}
      && |c| == (if key in comments then |comments| else |comments| + 1)
      && StoredText(c, key) == text
      && (key in comments ==> c[key].commentformat == comments[key].commentformat && c[key].assignment == comments[key].assignment)
      && (key !in comments ==> c[key] == Comment(text, newFormat, instance))
      && (forall k :: k in comments && k != key ==> c[k] == comments[k])
  {
    var c := Upsert(comments, key, text, newFormat, instance);
    if key in comments {
      assert c.Keys == comments.Keys;
    } else {
      assert c.Keys == comments.Keys + {key};
    }
  }

  /**
   * The file area and item id of a comment's embedded files (rewrite_feedback_comments_urls,
   * and the same choice in save): a marker comment files under the marker area with its mark id,
   * the overall comment under the feedback area with its grade id.
   */
  function FileAreaFor(gradeid: GradeId, markid: Option<int>): (r: (string, int))
    ensures markid.Some? ==> r == (FileAreaMarker, markid.value)
    ensures markid.None? ==> r == (FileArea, gradeid as int)
  {
    if markid.Some? then (FileAreaMarker, markid.value) else (FileArea, gradeid)
  }

  /** Two different comment rows never share a file area and item id. */
  lemma FileAreasKeepCommentsApart(g1: GradeId, m1: Option<int>, g2: GradeId, m2: Option<int>)
    requires (g1, m1) != (g2, m2)
    requires m1.None? || m2.None? || g1 == g2
    ensures FileAreaFor(g1, m1) != FileAreaFor(g2, m2)
  {
    assert FileArea != FileAreaMarker by {
      assert |FileArea| != |FileAreaMarker|;
    }
  }

  /** A submitted quick-grading value counts as modified iff one was submitted and it differs from the stored text. */
  predicate Differs(newvalue: Option<string>, stored: string) {
    newvalue.Some? && newvalue.value != stored
  }

  /** The quick-grading form values of one row: the overall comment and the acting marker's comment, each absent when not in the form. */
  datatype QuickgradeParams = QuickgradeParams(overall: Option<string>, marker: Option<string>)

  /** Is a submitted value falsy in PHP: null, the empty string or "0"? */
  predicate Falsy(v: Option<string>) {
    v.None? || v.value == "" || v.value == "0"
  }

  /** The guard of save_quickgrading_changes as written: a falsy value other than '' is not written. */
  predicate WritesOverallAsWritten(v: Option<string>) {
    !(Falsy(v) && v != Some(""))
  }

  /** The guard as intended by the modification check: any submitted value is written. */
  predicate WritesOverall(v: Option<string>) {
    v.Some?
  }

  lemma GuardsDisagreeOnlyOnZero(v: Option<string>)
    ensures WritesOverallAsWritten(v) != WritesOverall(v) <==> v == Some("0")
  {
  }

  /**
   * The table after save_quickgrading_changes, `markKey` being the mark row of the acting marker
   * (found or created by the marker part when a marker comment was submitted).
   */
  function QuickgradeWrites(comments: map<CommentKey, Comment>, g: GradeId, markKey: Option<int>,
                            params: QuickgradeParams, instance: int): map<CommentKey, Comment>
  {
    var afterMarker := if params.marker.Some? then Upsert(comments, (g, markKey), params.marker.value, FormatHtml, instance)
                       else comments;
    if WritesOverall(params.overall) then Upsert(afterMarker, (g, None), params.overall.value, FormatHtml, instance)
    else afterMarker
  }

  /** The same, with the guard as written. */
  function QuickgradeWritesAsWritten(comments: map<CommentKey, Comment>, g: GradeId, markKey: Option<int>,
                                     params: QuickgradeParams, instance: int): map<CommentKey, Comment>
  {
    var afterMarker := if params.marker.Some? then Upsert(comments, (g, markKey), params.marker.value, FormatHtml, instance)
                       else comments;
    if WritesOverallAsWritten(params.overall) then Upsert(afterMarker, (g, None), params.overall.value, FormatHtml, instance)
    else afterMarker
  }

  /**
   * What save_quickgrading_changes writes: the marker comment under its mark key when one was
   * submitted, then the overall comment when one was submitted; a comment not written keeps its
   * stored text, and every other row is untouched.
   */
  lemma QuickgradeWritesRows(comments: map<CommentKey, Comment>, g: GradeId, markKey: Option<int>,
                             params: QuickgradeParams, instance: int)
    requires markKey.Some?
    ensures var c := QuickgradeWrites(comments, g, markKey, params, instance);
      && (forall k :: k in comments && k != (g, None) && k != (g, markKey) ==> k in c && c[k] == comments[k])
      && StoredText(c, (g, markKey)) == (if params.marker.Some? then params.marker.value else StoredText(comments, (g, markKey)))
      && StoredText(c, (g, None)) == (if WritesOverall(params.overall) then params.overall.value else StoredText(comments, (g, None)))
  {
    MarkerCommentRows(comments, g, markKey, params.marker, instance);
    var afterMarker := if params.marker.Some? then Upsert(comments, (g, markKey), params.marker.value, FormatHtml, instance)
                       else comments;
    if WritesOverall(params.overall) {
      UpsertOneRowPerKey(afterMarker, (g, None), params.overall.value, FormatHtml, instance);
    }
  }

  /** The same with the guard as written: the overall comment is written only when the guard lets it through. */
  lemma QuickgradeWritesRowsAsWritten(comments: map<CommentKey, Comment>, g: GradeId, markKey: Option<int>,
                                      params: QuickgradeParams, instance: int)
    requires markKey.Some?
    ensures var c := QuickgradeWritesAsWritten(comments, g, markKey, params, instance);
      && (forall k :: k in comments && k != (g, None) && k != (g, markKey) ==> k in c && c[k] == comments[k])
      && StoredText(c, (g, markKey)) == (if params.marker.Some? then params.marker.value else StoredText(comments, (g, markKey)))
      && StoredText(c, (g, None)) == (if WritesOverallAsWritten(params.overall) then params.overall.value else StoredText(comments, (g, None)))
  {
    MarkerCommentRows(comments, g, markKey, params.marker, instance);
    var afterMarker := if params.marker.Some? then Upsert(comments, (g, markKey), params.marker.value, FormatHtml, instance)
                       else comments;
    if WritesOverallAsWritten(params.overall) {
      UpsertOneRowPerKey(afterMarker, (g, None), params.overall.value, FormatHtml, instance);
    }
  }

  /** The marker part of the save: only the marker's row changes, and the overall comment is kept. */
  lemma MarkerCommentRows(comments: map<CommentKey, Comment>, g: GradeId, markKey: Option<int>, marker: Option<string>,
                          instance: int)
    requires markKey.Some?
    ensures var c := if marker.Some? then Upsert(comments, (g, markKey), marker.value, FormatHtml, instance) else comments;
      && (forall k :: k in comments && k != (g, markKey) ==> k in c && c[k] == comments[k])
      && StoredText(c, (g, markKey)) == (if marker.Some? then marker.value else StoredText(comments, (g, markKey)))
      && StoredText(c, (g, None)) == StoredText(comments, (g, None))
  {
    if marker.Some? {
      UpsertOneRowPerKey(comments, (g, markKey), marker.value, FormatHtml, instance);
    }
  }

  /** After saving quick-grading changes, the stored texts are the submitted ones: nothing is left modified. */
  lemma QuickgradeSaveSettles(comments: map<CommentKey, Comment>, g: GradeId, markKey: Option<int>,
                              params: QuickgradeParams, instance: int)
    requires markKey.Some?
    ensures var c := QuickgradeWrites(comments, g, markKey, params, instance);
      !Differs(params.overall, StoredText(c, (g, None))) && !Differs(params.marker, StoredText(c, (g, markKey)))
  {
    var afterMarker := if params.marker.Some? then Upsert(comments, (g, markKey), params.marker.value, FormatHtml, instance)
                       else comments;
    if params.marker.Some? {
      UpsertOneRowPerKey(comments, (g, markKey), params.marker.value, FormatHtml, instance);
    }
    if params.overall.Some? {
      UpsertOneRowPerKey(afterMarker, (g, None), params.overall.value, FormatHtml, instance);
    }
  }

  /**
   * As written, an overall comment of "0" is never saved, yet the modification check keeps
   * reporting it as modified after the save.
   */
  lemma ZeroCommentStaysModified(g: GradeId, instance: int)
    ensures var params := QuickgradeParams(Some("0"), None);
      Differs(params.overall, StoredText(QuickgradeWritesAsWritten(map[], g, None, params, instance), (g, None)))
  {
    var params := QuickgradeParams(Some("0"), None);
    assert !WritesOverallAsWritten(params.overall);
    assert QuickgradeWritesAsWritten(map[], g, None, params, instance) == map[];
  }

  /** can_upgrade: the old assignment types that carried comments, from version 2011112900 on. */
  function CanUpgrade(oldType: string, version: int): (r: bool)
    ensures r ==> version >= 2011112900
    ensures r ==> oldType in {"upload", "uploadsingle", "online", "offline"}
  {
    (oldType == "upload" || oldType == "uploadsingle" || oldType == "online" || oldType == "offline")
    && version >= 2011112900
  }

  /** An upgradable old type stays upgradable at every later version, and no other type ever is. */
  lemma CanUpgradeCharacterised(oldType: string, version: int)
    ensures CanUpgrade(oldType, version) <==> oldType in {"upload", "uploadsingle", "online", "offline"} && version >= 2011112900
    ensures CanUpgrade(oldType, version) ==> forall later :: later >= version ==> CanUpgrade(oldType, later)
  {
  }

  // ---------------------------------------------------------------------------------------------
  // Submission text to feedback
  // ---------------------------------------------------------------------------------------------

  /** One editor field of a submission plugin: its text and format. */
  datatype EditorField = EditorField(text: string, format: TextFormat)

  /** A submission plugin as convert_submission_text_to_feedback sees it. */
  datatype SubmissionPlugin = SubmissionPlugin(enabled: bool, visible: bool, isEmpty: bool, fields: seq<EditorField>)

  predicate Contributes(p: SubmissionPlugin) {
    p.enabled && p.visible && !p.isEmpty && |p.fields| > 0
  }

  /** The editor fields whose text goes into the feedback, in plugin and field order. */
  function SubmittedFields(plugins: seq<SubmissionPlugin>): seq<EditorField> {
    if plugins == [] then []
    else
      var last := plugins[|plugins| - 1];
      SubmittedFields(plugins[..|plugins| - 1]) + (if Contributes(last) then last.fields else [])
  }

  /** The concatenation of the cleaned texts of the fields, in order. */
  function Texts(clean: string -> string, fields: seq<EditorField>): string {
    if fields == [] then "" else Texts(clean, fields[..|fields| - 1]) + clean(fields[|fields| - 1].text)
  }

  /** The running format: none before any field, then each field's format, or plain once two formats differ. */
  function RunningFormat(fields: seq<EditorField>): Option<TextFormat> {
    if fields == [] then None
    else
      var sofar := RunningFormat(fields[..|fields| - 1]);
      var next := fields[|fields| - 1].format;
      if sofar.Some? && next != sofar.value then Some(FormatPlain) else Some(next)
  }

  predicate SameFormat(fields: seq<EditorField>) {
    forall i :: 0 <= i < |fields| ==> fields[i].format == fields[0].format
  }

  /**
   * The merged format: none without fields, the common format when every field agrees, and
   * plain as soon as any two fields differ.
   */
  lemma {:induction false} RunningFormatMerges(fields: seq<EditorField>)
    ensures fields == [] ==> RunningFormat(fields) == None
    ensures fields != [] && SameFormat(fields) ==> RunningFormat(fields) == Some(fields[0].format)
    ensures fields != [] && !SameFormat(fields) ==> RunningFormat(fields) == Some(FormatPlain)
  {
    if fields != [] {
      var init := fields[..|fields| - 1];
      var next := fields[|fields| - 1].format;
      RunningFormatMerges(init);
      if init == [] {
        assert SameFormat(fields);
      } else if SameFormat(init) {
        assert init[0] == fields[0];
        if next == fields[0].format {
          assert SameFormat(fields) by {
            forall i | 0 <= i < |fields| ensures fields[i].format == fields[0].format {
              if i < |init| { assert fields[i] == init[i]; }
            }
          }
        } else {
          assert !SameFormat(fields);
        }
      } else {
        assert !SameFormat(fields) by {
          var i :| 0 <= i < |init| && init[i].format != init[0].format;
          assert fields[i] == init[i] && fields[0] == init[0];
        }
      }
    }
  }

  /** The format stored with the converted text: the merged format, HTML when there were no fields. */
  function FeedbackFormat(fields: seq<EditorField>): (r: TextFormat)
    ensures fields == [] ==> r == FormatHtml
    ensures fields != [] && SameFormat(fields) ==> r == fields[0].format
    ensures fields != [] && !SameFormat(fields) ==> r == FormatPlain
  {
    RunningFormatMerges(fields);
    RunningFormat(fields).GetOr(FormatHtml)
  }

  lemma SubmittedFieldsStep(plugins: seq<SubmissionPlugin>, i: nat)
    requires i < |plugins|
    ensures SubmittedFields(plugins[..i + 1])
         == SubmittedFields(plugins[..i]) + (if Contributes(plugins[i]) then plugins[i].fields else [])
  {
    assert plugins[..i + 1][..i] == plugins[..i];
  }

  /** The inner loop of convert_submission_text_to_feedback: one plugin's fields appended to the running text and format. */
  method AppendFields(done: seq<EditorField>, fields: seq<EditorField>, clean: string -> string,
                      text0: string, running0: Option<TextFormat>)
    returns (text: string, running: Option<TextFormat>)
    requires text0 == Texts(clean, done) && running0 == RunningFormat(done)
    ensures text == Texts(clean, done + fields) && running == RunningFormat(done + fields)
  {
    text, running := text0, running0;
    var j := 0;
    assert done + fields[..0] == done;
    while j < |fields|
      invariant 0 <= j <= |fields|
      invariant text == Texts(clean, done + fields[..j])
      invariant running == RunningFormat(done + fields[..j])
    {
      var field := fields[j];
      var rawtext := clean(field.text);
      if running.Some? && field.format != running.value {
        running := Some(FormatPlain);
      } else {
        running := Some(field.format);
      }
      text := text + rawtext;
      assert (done + fields[..j + 1])[..|done| + j] == done + fields[..j];
      j := j + 1;
    }
    assert done + fields[..|fields|] == done + fields;
  }

  /**
   * convert_submission_text_to_feedback: the feedback text is the cleaned texts of the fields of
   * every enabled, visible, non-empty plugin with fields, concatenated; the format is their
   * merged format.
   */
  method ConvertSubmissionTextToFeedback(plugins: seq<SubmissionPlugin>, clean: string -> string)
    returns (text: string, format: TextFormat)
    ensures text == Texts(clean, SubmittedFields(plugins))
    ensures format == FeedbackFormat(SubmittedFields(plugins))
  {
    var running: Option<TextFormat> := None;
    text := "";
    var i := 0;
    while i < |plugins|
      invariant 0 <= i <= |plugins|
      invariant text == Texts(clean, SubmittedFields(plugins[..i]))
      invariant running == RunningFormat(SubmittedFields(plugins[..i]))
    {
      var plugin := plugins[i];
      SubmittedFieldsStep(plugins, i);
      if Contributes(plugin) {
        text, running := AppendFields(SubmittedFields(plugins[..i]), plugin.fields, clean, text, running);
      } else {
        assert SubmittedFields(plugins[..i + 1]) == SubmittedFields(plugins[..i]);
      }
      i := i + 1;
    }
    assert plugins[..|plugins|] == plugins;
    format := if running.None? then FormatHtml else running.value;
  }

  // ---------------------------------------------------------------------------------------------
  // The plugin's table
  // ---------------------------------------------------------------------------------------------

  class CommentsPlugin {
    const assignment: Assignment
    /** The id of the assignment instance new rows are stored with. */
    const instanceId: int
    var comments: map<CommentKey, Comment>

    /** Every row's mark is a mark id or null, so the sentinel -1 never finds a row. */
    ghost predicate Valid()
      reads this, assignment
    {
      assignment.Valid() && forall k :: k in comments && k.1.Some? ==> k.1.value >= 0
    }

    constructor (a: Assignment, instance: int)
      requires a.Valid()
      ensures Valid() && assignment == a && instanceId == instance && comments == map[]
    {
      assignment, instanceId, comments := a, instance, map[];
    }

    /** get_feedback_comments: the row stored under exactly (gradeid, markid). */
    function GetFeedbackComments(gradeid: GradeId, markid: Option<int>): (r: Option<Comment>)
      reads this
      ensures r.Some? <==> (gradeid, markid) in comments
      ensures r.Some? ==> r.value == comments[(gradeid, markid)]
      ensures r.Some? ==> r.value.commenttext == StoredText(comments, (gradeid, markid))
    {
      if (gradeid, markid) in comments then Some(comments[(gradeid, markid)]) else None
    }

    lemma SentinelMatchesNoRow(gradeid: GradeId)
      requires Valid()
      ensures GetFeedbackComments(gradeid, Some(NoMarkSentinel)) == None
    {
    }

    /** The mark key the quick-grading check uses for `marker`: the marker's mark id, or the sentinel. */
    function MarkerKey(g: GradeId, marker: UserId): (r: Option<int>)
      reads this, assignment
      ensures r.Some?
      ensures assignment.MarkOf(g, marker).None? ==> r == Some(NoMarkSentinel)
      ensures assignment.MarkOf(g, marker).Some? ==> r == Some(assignment.MarkOf(g, marker).value.id as int)
    {
      var mark := assignment.MarkOf(g, marker);
      if mark.Some? then Some(mark.value.id) else Some(NoMarkSentinel)
    }

    /**
     * The mark key is_feedback_modified compares against: the overall comment when not marking,
     * and when marking the marker's own comment, or the overall comment while the marker has no
     * mark row.
     */
    function FormMarkKey(g: GradeId, grader: UserId, isMarking: bool): (r: Option<int>)
      reads this, assignment
      ensures r.Some? <==> isMarking && assignment.MarkOf(g, grader).Some?
      ensures r.Some? ==> r == Some(assignment.MarkOf(g, grader).value.id as int)
    {
      if isMarking && assignment.MarkOf(g, grader).Some? then Some(assignment.MarkOf(g, grader).value.id) else None
    }

    /**
     * The comment get_form_elements_for_user loads into the editor for the current user: the
     * same choice of key, the overall comment while the user has no mark row.
     */
    function FormLoadKey(g: GradeId, current: UserId, isMarking: bool): (r: Option<int>)
      reads this, assignment
      ensures r.Some? <==> isMarking && assignment.MarkOf(g, current).Some?
      ensures r.Some? ==> r == Some(assignment.MarkOf(g, current).value.id as int)
    {
      var mark := if isMarking then assignment.MarkOf(g, current) else None;
      if mark.Some? then Some(mark.value.id) else None
    }

    /** is_feedback_modified: the form text differs from the comment stored under the form's key. */
    function IsFeedbackModified(g: GradeId, grader: UserId, isMarking: bool, formtext: string): bool
      reads this, assignment
    {
      StoredText(comments, (g, FormMarkKey(g, grader, isMarking))) != formtext
    }

    /**
     * The text get_form_elements_for_user puts in the editor for the current user: the text
     * resubmitted after a failed validation, else the stored comment under FormLoadKey, else
     * (inline comments enabled and a submission present) the submission's text, else nothing.
     * PHP's `empty` counts "" and "0" as no text.
     */
    function FormLoadedText(g: GradeId, current: UserId, isMarking: bool, resubmitted: string,
                            commentinline: bool, submission: Option<seq<SubmissionPlugin>>, clean: string -> string): (r: string)
      reads this, assignment
      ensures !Falsy(Some(resubmitted)) ==> r == resubmitted
      ensures Falsy(Some(resubmitted)) && !Falsy(Some(StoredText(comments, (g, FormLoadKey(g, current, isMarking))))) ==>
        r == StoredText(comments, (g, FormLoadKey(g, current, isMarking)))
      ensures Falsy(Some(resubmitted)) && Falsy(Some(StoredText(comments, (g, FormLoadKey(g, current, isMarking))))) ==>
        r == (if commentinline && submission.Some? then Texts(clean, SubmittedFields(submission.value)) else "")
    {
      var stored := StoredText(comments, (g, FormLoadKey(g, current, isMarking)));
      if !Falsy(Some(resubmitted)) then resubmitted
      else if !Falsy(Some(stored)) then stored
      else if commentinline && submission.Some? then Texts(clean, SubmittedFields(submission.value))
      else ""
    }

    /**
     * The form and its modification check look at the same comment. A form loaded from the
     * stored comment, or left empty over an empty comment, reads as unmodified when submitted
     * untouched; the inline copy of the submission reads as modified whenever it has text; any
     * text other than the stored one is modified. A marker without a mark row sees, and is
     * compared against, the overall comment.
     */
    lemma UntouchedFormUnmodified(g: GradeId, grader: UserId, isMarking: bool, resubmitted: string, commentinline: bool,
                                  submission: Option<seq<SubmissionPlugin>>, clean: string -> string, text: string)
      ensures var stored := StoredText(comments, (g, FormMarkKey(g, grader, isMarking)));
        var loaded := FormLoadedText(g, grader, isMarking, resubmitted, commentinline, submission, clean);
        && (IsFeedbackModified(g, grader, isMarking, text) <==> text != stored)
        && (Falsy(Some(resubmitted)) && !Falsy(Some(stored)) ==> !IsFeedbackModified(g, grader, isMarking, loaded))
        && (Falsy(Some(resubmitted)) && stored == "" && !(commentinline && submission.Some?) ==>
              !IsFeedbackModified(g, grader, isMarking, loaded))
        && (Falsy(Some(resubmitted)) && stored == "" && commentinline && submission.Some? ==>
              (IsFeedbackModified(g, grader, isMarking, loaded) <==> Texts(clean, SubmittedFields(submission.value)) != ""))
        && (!Falsy(Some(resubmitted)) ==> (IsFeedbackModified(g, grader, isMarking, loaded) <==> resubmitted != stored))
      ensures isMarking && assignment.MarkOf(g, grader).None? ==>
        StoredText(comments, (g, FormLoadKey(g, grader, isMarking))) == StoredText(comments, (g, None))
    {
      assert FormLoadKey(g, grader, isMarking) == FormMarkKey(g, grader, isMarking);
    }

    /**
     * is_quickgrading_modified: the submitted marker comment (with `checkmarker`), or either
     * submitted comment (without), differs from the stored one.
     */
    function IsQuickgradingModified(g: Option<GradeId>, params: QuickgradeParams, user: UserId, checkmarker: bool): (r: bool)
      reads this, assignment
      ensures checkmarker ==> (r <==> Differs(params.marker, if g.Some? then StoredText(comments, (g.value, MarkerKey(g.value, user))) else ""))
      ensures !checkmarker ==> (r <==> Differs(params.overall, if g.Some? then StoredText(comments, (g.value, None)) else "")
                                       || IsQuickgradingModified(g, params, user, true))
      decreases if checkmarker then 0 else 1
    {
      var newvalue := if checkmarker then params.marker else params.overall;
      var stored := if g.None? then "" else StoredText(comments, (g.value, if checkmarker then MarkerKey(g.value, user) else None));
      var result := Differs(newvalue, stored);
      if checkmarker then result else result || IsQuickgradingModified(g, params, user, true)
    }

    /** get_editor_text: the overall comment's text for field 'comments', the empty text otherwise. */
    function GetEditorText(name: string, gradeid: GradeId): (r: string)
      reads this
      ensures name != CommentsField ==> r == ""
      ensures name == CommentsField ==> r == StoredText(comments, (gradeid, None))
    {
      if name == CommentsField then StoredText(comments, (gradeid, None)) else ""
    }

    /** set_editor_text: writes the overall comment for field 'comments'; any other field is refused. */
    method SetEditorText(name: string, value: string, gradeid: GradeId) returns (ok: bool)
      requires Valid()
      modifies this`comments
      ensures Valid()
      ensures ok <==> name == CommentsField
      ensures name == CommentsField ==> comments == Upsert(old(comments), (gradeid, None), value, FormatHtml, instanceId)
      ensures name != CommentsField ==> comments == old(comments)
      ensures name == CommentsField ==> GetEditorText(name, gradeid) == value
    {
      if name == CommentsField {
        UpsertOneRowPerKey(comments, (gradeid, None), value, FormatHtml, instanceId);
        comments := Upsert(comments, (gradeid, None), value, FormatHtml, instanceId);
        ok := true;
      } else {
        ok := false;
      }
    }

    /**
     * save: stores the editor's text and format under the marker's own mark row when marking
     * (creating the mark row if needed), under the overall comment otherwise; reports the file
     * area and item id the editor's files were saved under.
     */
    method Save(g: GradeId, grader: UserId, isMarking: bool, text: string, format: TextFormat)
      returns (ok: bool, area: string, itemid: int)
      requires Valid() && g in assignment.grades
      modifies this`comments, assignment`marks, assignment`nextMarkId
      ensures Valid()
      ensures ok
      ensures isMarking ==> assignment.MarkOf(g, grader).Some?
      ensures !isMarking || old(assignment.MarkOf(g, grader)).Some? ==> assignment.marks == old(assignment.marks)
      ensures isMarking && old(assignment.MarkOf(g, grader)).None? ==>
        assignment.marks == old(assignment.marks)[(g, grader) := Mark(old(assignment.nextMarkId), None, None)]
      ensures var key := (g, if isMarking then Some(assignment.MarkOf(g, grader).value.id as int) else None);
        && comments == old(comments)[key := Comment(text, format,
             if key in old(comments) then old(comments)[key].assignment else instanceId)]
        && (area, itemid) == FileAreaFor(g, key.1)
      ensures !IsFeedbackModified(g, grader, isMarking, text)
      ensures forall t :: t != text ==> IsFeedbackModified(g, grader, isMarking, t)
    {
      var markid: Option<int> := None;
      itemid := g;
      area := FileArea;
      if isMarking {
        var mark := assignment.GetMark(g, grader, true);
        markid := Some(mark.value.id);
        itemid := mark.value.id;
        area := FileAreaMarker;
      }
      var existing := GetFeedbackComments(g, markid);
      if existing.Some? {
        comments := comments[(g, markid) := existing.value.(commenttext := text, commentformat := format)];
      } else {
        comments := comments[(g, markid) := Comment(text, format, instanceId)];
      }
      ok := true;
    }

    /** save_quickgrading_changes_marker: stores a submitted marker comment under the acting user's mark row. */
    method SaveQuickgradingChangesMarker(g: GradeId, value: Option<string>, user: UserId) returns (ok: bool)
      requires Valid() && g in assignment.grades
      modifies this`comments, assignment`marks, assignment`nextMarkId
      ensures Valid() && ok
      ensures value.None? ==> comments == old(comments) && assignment.marks == old(assignment.marks)
      ensures old(assignment.MarkOf(g, user)).Some? ==> assignment.marks == old(assignment.marks)
      ensures value.Some? && old(assignment.MarkOf(g, user)).None? ==>
        assignment.marks == old(assignment.marks)[(g, user) := Mark(old(assignment.nextMarkId), None, None)]
      ensures value.Some? ==>
        && assignment.MarkOf(g, user).Some?
        && comments == Upsert(old(comments), (g, Some(assignment.MarkOf(g, user).value.id as int)), value.value, FormatHtml, instanceId)
    {
      if value.None? {
        return true;
      }
      var mark := assignment.GetMark(g, user, true);
      var key := (g, Some(mark.value.id as int));
      comments := Upsert(comments, key, value.value, FormatHtml, instanceId);
      ok := true;
    }

    /**
     * save_quickgrading_changes: the marker comment first, then the overall comment whenever one
     * was submitted. Afterwards neither submitted comment is reported as modified.
     */
    method SaveQuickgradingChanges(g: GradeId, params: QuickgradeParams, user: UserId) returns (ok: bool)
      requires Valid() && g in assignment.grades
      modifies this`comments, assignment`marks, assignment`nextMarkId
      ensures Valid() && ok
      ensures params.marker.None? || old(assignment.MarkOf(g, user)).Some? ==> assignment.marks == old(assignment.marks)
      ensures params.marker.Some? && old(assignment.MarkOf(g, user)).None? ==>
        assignment.marks == old(assignment.marks)[(g, user) := Mark(old(assignment.nextMarkId), None, None)]
      ensures params.marker.Some? ==> assignment.MarkOf(g, user).Some?
      ensures comments == QuickgradeWrites(old(comments), g, MarkerKey(g, user), params, instanceId)
      ensures !IsQuickgradingModified(Some(g), params, user, false)
    {
      var _ := SaveQuickgradingChangesMarker(g, params.marker, user);
      var value := params.overall;
      if !WritesOverall(value) {
        ok := true;
      } else {
        comments := Upsert(comments, (g, None), value.value, FormatHtml, instanceId);
        ok := true;
      }
      QuickgradeSaveSettles(old(comments), g, MarkerKey(g, user), params, instanceId);
    }
  }

  // ---------------------------------------------------------------------------------------------
  // The scenarios of the comments tests, run against the model
  // ---------------------------------------------------------------------------------------------

  /**
   * An overall comment is modified against an empty table, not modified once saved with the same
   * text, and modified again for a different text.
   */
  method FeedbackModifiedAfterSave(student: UserId, teacher: UserId) returns (first: bool, same: bool, altered: bool)
    ensures first && !same && altered
  {
    var a := new Assignment(Manual, RoundNone);
    var g := a.GetUserGrade(student, true);
    var plugin := new CommentsPlugin(a, 1);
    first := plugin.IsFeedbackModified(g.value, teacher, false, "Feedback text");
    var _, _, _ := plugin.Save(g.value, teacher, false, "Feedback text", FormatHtml);
    same := plugin.IsFeedbackModified(g.value, teacher, false, "Feedback text");
    altered := plugin.IsFeedbackModified(g.value, teacher, false, "Altered text");
  }

  /** A marker's comment is stored against the grade and that marker's mark row. */
  method MarkerCommentKeyedByMark(student: UserId, teacher: UserId) returns (stored: bool, area: string)
    ensures stored && area == FileAreaMarker
  {
    var a := new Assignment(Manual, RoundNone);
    a.UpdateAllocatedMarkers(student, [teacher]);
    var g := a.GetUserGrade(student, true);
    var plugin := new CommentsPlugin(a, 1);
    var _, fileArea, _ := plugin.Save(g.value, teacher, true, "Marker feedback", FormatHtml);
    var mark := a.GetMark(g.value, teacher, false);
    stored := mark.Some? && (g.value, Some(mark.value.id as int)) in plugin.comments;
    area := fileArea;
  }
}
