/**
 * The confirmation step of the offline grading worksheet import: for each uploaded record,
 * whether its grade and mark are applied, and which grade, mark and feedback changes are listed.
 */
module ImportGrades {
  import opened Wrappers
  import opened MarkerAllocation

  /**
   * A grade or mark after conversion: null, the empty string (a scale value not in the scale),
   * or a number (a parsed point value, or a 1-based scale index).
   */
  datatype Value = Null | Blank | Num(x: real)

  /** mark normalisation: an unset, empty or "0" mark cell means no mark. */
  function NormaliseMark(raw: Option<string>): (r: Option<string>)
    ensures r.None? <==> raw.None? || raw.value == "" || raw.value == "0"
    ensures r.Some? ==> r == raw
  {
    if raw.None? || raw.value == "" || raw.value == "0" then None else raw
  }

  /**
   * make_menu_from_list: the scale's options keyed from 1, built by walking the option list
   * backwards, so the menu lists the last option (key |options|) first.
   */
  function ScaleMenu(options: seq<string>): (menu: seq<(nat, string)>)
    ensures |menu| == |options|
    ensures forall i :: 0 <= i < |menu| ==> menu[i] == (|options| - i, options[|options| - 1 - i])
  {
    if options == [] then []
    else [(|options|, options[|options| - 1])] + ScaleMenu(options[..|options| - 1])
  }

  /** array_search: the key of the first entry, in the array's order, whose item equals `s`. */
  function ArraySearch(s: string, menu: seq<(nat, string)>): (r: Option<nat>)
    ensures r.Some? ==> exists i :: 0 <= i < |menu| && menu[i] == (r.value, s) && forall j :: 0 <= j < i ==> menu[j].1 != s
    ensures r.None? <==> forall j :: 0 <= j < |menu| ==> menu[j].1 != s
  {
    if menu == [] then None
    else if menu[0].1 == s then Some(menu[0].0)
    else
      var r := ArraySearch(s, menu[1..]);
      assert forall j :: 1 <= j < |menu| ==> menu[1..][j - 1] == menu[j];
      r
  }

  /**
   * A worksheet value on a scale becomes the 1-based position of the LAST equal option, since
   * the menu lists the options backwards, or the empty string when it is not one of them; null
   * searches as the empty text.
   */
  function ToScale(raw: Option<string>, options: seq<string>): (r: Value)
    ensures r.Num? ==>
      exists k :: 0 <= k < |options| && options[k] == raw.GetOr("") && r == Num((k + 1) as real)
                  && forall j :: k < j < |options| ==> options[j] != raw.GetOr("")
    ensures r == Blank <==> forall j :: 0 <= j < |options| ==> options[j] != raw.GetOr("")
    ensures r.Num? || r == Blank
  {
    var menu := ScaleMenu(options);
    var found := ArraySearch(raw.GetOr(""), menu);
    if found.None? then
      assert forall j :: 0 <= j < |options| ==> options[j] == menu[|options| - 1 - j].1;
      Blank
    else
      var i :| 0 <= i < |menu| && menu[i] == (found.value, raw.GetOr("")) && forall j :: 0 <= j < i ==> menu[j].1 != raw.GetOr("");
      var k := |options| - 1 - i;
      assert forall j :: k < j < |options| ==> options[j] == menu[|options| - 1 - j].1;
      Num(found.value as real)
  }

  /** A scale "Pass,Fail,Pass": the value "Pass" takes the index of its last occurrence. */
  lemma RepeatedOptionTakesLast()
    ensures ToScale(Some("Pass"), ["Pass", "Fail", "Pass"]) == Num(3.0)
  {
    var r := ToScale(Some("Pass"), ["Pass", "Fail", "Pass"]);
    assert ["Pass", "Fail", "Pass"][2] == "Pass";
  }

  /**
   * The assignment settings the import reads: the maximum grade (negative for a scale) and the
   * options of that scale (empty when there is none), and the locale number parser.
   */
  datatype Settings = Settings(maxGrade: int, scaleOptions: seq<string>, unformat: string -> Option<real>)

  predicate UsesScale(s: Settings) {
    |s.scaleOptions| > 0
  }

  /** The conversion of a grade or mark cell: a scale index, or a parsed number. */
  function Convert(s: Settings, raw: Option<string>): (r: Value)
    ensures UsesScale(s) ==> r.Num? || r == Blank
    ensures UsesScale(s) ==> (r == Blank <==> forall j :: 0 <= j < |s.scaleOptions| ==> s.scaleOptions[j] != raw.GetOr(""))
    ensures UsesScale(s) && r.Num? ==>
      r.x >= 1.0 && exists k :: 0 <= k < |s.scaleOptions| && s.scaleOptions[k] == raw.GetOr("") && r.x == (k + 1) as real
                              && forall j :: k < j < |s.scaleOptions| ==> s.scaleOptions[j] != raw.GetOr("")
    ensures !UsesScale(s) ==> r.Num? || r == Null
    ensures !UsesScale(s) ==> (r == Null <==> raw.None? || s.unformat(raw.value).None?)
    ensures !UsesScale(s) && r.Num? ==> raw.Some? && s.unformat(raw.value) == Some(r.x)
  {
    if UsesScale(s) then ToScale(raw, s.scaleOptions)
    else if raw.None? then Null
    else match s.unformat(raw.value)
      case Some(x) => Num(x)
      case None => Null
  }

  /** The student's existing grade row, and the importing marker's existing mark row on it. */
  datatype ExistingGrade = ExistingGrade(id: GradeId, grade: real, timemodified: int)
  datatype ExistingMark = ExistingMark(id: MarkId, mark: Option<real>)

  /**
   * A feedback column of a record: its marker number when it is a marker's column, and the
   * marker holding that number for this student (none when there is none).
   */
  datatype FeedbackColumn = FeedbackColumn(
    markerNumber: Option<int>, columnMarker: Option<UserId>,
    plugin: string, field: string, description: string, value: string)

  datatype ImportRecord = ImportRecord(
    user: UserId, grade: string, mark: Option<string>, modified: int,
    feedback: seq<FeedbackColumn>,
    usergrade: Option<ExistingGrade>, usermark: Option<ExistingMark>, gradingDisabled: bool)

  /** The importing marker's mark row is only looked up when the student has a grade row. */
  function UserMark(r: ImportRecord): Option<ExistingMark> {
    if r.usergrade.None? then None else r.usermark
  }

  /**
   * PHP's loose equality between a stored decimal (or null) and a converted value: a stored
   * number equals only that number; a stored null equals null, the empty string and zero.
   */
  predicate LooseEq(stored: Option<real>, v: Value) {
    match stored
    case Some(s) => v == Num(s)
    case None => v == Null || v == Blank || v == Num(0.0)
  }

  /** No value, or a negative one. */
  predicate NoValue(v: Value) {
    v.Null? || v.Blank? || (v.Num? && v.x < 0.0)
  }

  /** Outside [0, max] for a point grade; the empty string compares below 0, null compares with nothing. */
  predicate OutOfRange(maxGrade: int, v: Value) {
    maxGrade > -1 && (v.Blank? || (v.Num? && (v.x < 0.0 || v.x > maxGrade as real)))
  }

  /** The grade was changed in the gradebook more than a minute after the worksheet was downloaded. */
  predicate Stale(r: ImportRecord) {
    r.usergrade.Some? && r.usergrade.value.timemodified > r.modified + 60
  }

  predicate Unchanged(r: ImportRecord, grade: Value, mark: Value) {
    r.usergrade.Some? && LooseEq(Some(r.usergrade.value.grade), grade)
    && UserMark(r).Some? && LooseEq(UserMark(r).value.mark, mark)
  }

  datatype SkipReason = NothingChanged | NoValues | StaleRecord | GradingLocked | GradeOutOfRange

  /** The skip chain: the first rule that applies decides. */
  function SkipReasonOf(s: Settings, r: ImportRecord, grade: Value, mark: Value, ignoremodified: bool): (reason: Option<SkipReason>)
    ensures reason.Some? <==>
      Unchanged(r, grade, mark) || (NoValue(grade) && NoValue(mark)) || (!ignoremodified && Stale(r))
      || r.gradingDisabled || OutOfRange(s.maxGrade, grade)
    ensures reason == Some(NothingChanged) <==> Unchanged(r, grade, mark)
    ensures reason == Some(NoValues) <==> !Unchanged(r, grade, mark) && NoValue(grade) && NoValue(mark)
    ensures reason == Some(StaleRecord) <==>
      !Unchanged(r, grade, mark) && !(NoValue(grade) && NoValue(mark)) && !ignoremodified && Stale(r)
    ensures reason == Some(GradingLocked) <==>
      !Unchanged(r, grade, mark) && !(NoValue(grade) && NoValue(mark)) && !(!ignoremodified && Stale(r)) && r.gradingDisabled
    ensures reason == Some(GradeOutOfRange) <==>
      !Unchanged(r, grade, mark) && !(NoValue(grade) && NoValue(mark)) && !(!ignoremodified && Stale(r)) && !r.gradingDisabled
      && OutOfRange(s.maxGrade, grade)
  {
    if Unchanged(r, grade, mark) then Some(NothingChanged)
    else if NoValue(grade) && NoValue(mark) then Some(NoValues)
    else if !ignoremodified && Stale(r) then Some(StaleRecord)
    else if r.gradingDisabled then Some(GradingLocked)
    else if OutOfRange(s.maxGrade, grade) then Some(GradeOutOfRange)
    else None
  }

  /** A truthy, non-empty, non-negative value: a positive number. */
  predicate Positive(v: Value) {
    v.Num? && v.x > 0.0
  }

  function GradeModified(grade: Value, usergrade: Option<ExistingGrade>): bool {
    Positive(grade) && (usergrade.None? || !LooseEq(Some(usergrade.value.grade), grade))
  }

  function MarkModified(mark: Value, usermark: Option<ExistingMark>): bool {
    Positive(mark) && (usermark.None? || !LooseEq(usermark.value.mark, mark))
  }

  /**
   * A grade (or mark) is listed as changed exactly when it is a positive number other than the
   * stored one; in particular a new grade or mark of 0 is never listed.
   */
  lemma ModifiedMeansNewPositive(v: Value, g: Option<ExistingGrade>, m: Option<ExistingMark>)
    ensures GradeModified(v, g) <==> v.Num? && v.x > 0.0 && (g.None? || v.x != g.value.grade)
    ensures MarkModified(v, m) <==> v.Num? && v.x > 0.0 && (m.None? || m.value.mark.None? || v.x != m.value.mark.value)
    ensures !GradeModified(Num(0.0), g) && !MarkModified(Num(0.0), m)
  {
  }

  datatype UpdateLine =
    | GradeUpdate(student: UserId, grade: Value)
    | MarkUpdate(student: UserId, mark: Value)
    | FeedbackUpdate(student: UserId, field: string, text: string)

  /** The editor text a feedback plugin returns for (plugin, field, grade id, mark id). */
  type EditorText = (string, string, GradeId, Option<int>) -> string

  /** A marker's column is compared only when its marker is the importing user. */
  predicate ColumnApplies(col: FeedbackColumn, user: UserId) {
    col.markerNumber.None? || col.columnMarker == Some(user)
  }

  /** The mark id the old feedback text is read with: null for the overall column, the user's mark id, or -1 without a mark row. */
  function ColumnMarkId(col: FeedbackColumn, r: ImportRecord, user: UserId): (m: Option<int>)
    ensures col.markerNumber.None? ==> m == None
    ensures col.markerNumber.Some? && col.columnMarker == Some(user) && UserMark(r).None? ==> m == Some(-1)
    ensures col.markerNumber.Some? && col.columnMarker == Some(user) && UserMark(r).Some? ==> m == Some(UserMark(r).value.id as int)
  {
    if col.markerNumber.Some? && col.columnMarker == Some(user) then
      if UserMark(r).Some? then Some(UserMark(r).value.id as int) else Some(-1)
    else None
  }

  function OldValue(col: FeedbackColumn, r: ImportRecord, user: UserId, editorText: EditorText): string {
    if r.usergrade.None? then "" else editorText(col.plugin, col.field, r.usergrade.value.id, ColumnMarkId(col, r, user))
  }

  predicate ColumnChanged(col: FeedbackColumn, r: ImportRecord, user: UserId, editorText: EditorText) {
    ColumnApplies(col, user) && col.value != OldValue(col, r, user, editorText)
  }

  /** The feedback lines of the record's columns, in column order. */
  function FeedbackLines(cols: seq<FeedbackColumn>, r: ImportRecord, user: UserId, editorText: EditorText): seq<UpdateLine> {
    if cols == [] then []
    else
      var col := cols[|cols| - 1];
      FeedbackLines(cols[..|cols| - 1], r, user, editorText)
      + (if ColumnChanged(col, r, user, editorText) then [FeedbackUpdate(r.user, col.description, col.value)] else [])
  }

  /** Every feedback line comes from a column the importing user may change, and carries its new text. */
  lemma {:induction false} FeedbackLinesFromOwnColumns(cols: seq<FeedbackColumn>, r: ImportRecord, user: UserId, editorText: EditorText)
    ensures forall line :: line in FeedbackLines(cols, r, user, editorText) ==>
      exists j :: 0 <= j < |cols| && ColumnChanged(cols[j], r, user, editorText)
        && line == FeedbackUpdate(r.user, cols[j].description, cols[j].value)
  {
    if cols != [] {
      var init := cols[..|cols| - 1];
      FeedbackLinesFromOwnColumns(init, r, user, editorText);
      forall line | line in FeedbackLines(cols, r, user, editorText)
        ensures exists j ::
          0 <= j < |cols| && ColumnChanged(cols[j], r, user, editorText) && line == FeedbackUpdate(r.user, cols[j].description, cols[j].value)
      {
        if line in FeedbackLines(init, r, user, editorText) {
          var j :| 0 <= j < |init| && ColumnChanged(init[j], r, user, editorText)
            && line == FeedbackUpdate(r.user, init[j].description, init[j].value);
          assert cols[j] == init[j];
        } else {
          assert ColumnChanged(cols[|cols| - 1], r, user, editorText);
        }
      }
    }
  }

  /** Columns of other markers never produce a line. */
  lemma {:induction false} OtherMarkersColumnsIgnored(cols: seq<FeedbackColumn>, r: ImportRecord, user: UserId, editorText: EditorText)
    requires forall j :: 0 <= j < |cols| ==> !ColumnApplies(cols[j], user)
    ensures FeedbackLines(cols, r, user, editorText) == []
  {
    if cols != [] {
      OtherMarkersColumnsIgnored(cols[..|cols| - 1], r, user, editorText);
    }
  }

  /** The grade and mark lines of a record that is not skipped: the grade line first. */
  function GradeMarkLines(s: Settings, r: ImportRecord, ignoremodified: bool): seq<UpdateLine> {
    var grade := Convert(s, Some(r.grade));
    var mark := Convert(s, NormaliseMark(r.mark));
    if SkipReasonOf(s, r, grade, mark, ignoremodified).Some? then []
    else
      (if GradeModified(grade, r.usergrade) then [GradeUpdate(r.user, grade)] else [])
      + (if MarkModified(mark, UserMark(r)) then [MarkUpdate(r.user, mark)] else [])
  }

  /** The feedback lines of a record: only when it is not stale, or stale records are imported anyway. */
  function RecordFeedbackLines(r: ImportRecord, user: UserId, ignoremodified: bool, editorText: EditorText): seq<UpdateLine> {
    if ignoremodified || !Stale(r) then FeedbackLines(r.feedback, r, user, editorText) else []
  }

  /** Does the record make the import an update: it is not skipped, or a feedback line is listed? */
  predicate RecordUpdates(s: Settings, r: ImportRecord, user: UserId, ignoremodified: bool, editorText: EditorText) {
    var grade := Convert(s, Some(r.grade));
    var mark := Convert(s, NormaliseMark(r.mark));
    SkipReasonOf(s, r, grade, mark, ignoremodified).None? || |RecordFeedbackLines(r, user, ignoremodified, editorText)| > 0
  }

  function AllLines(s: Settings, records: seq<ImportRecord>, user: UserId, ignoremodified: bool, editorText: EditorText): seq<UpdateLine> {
    if records == [] then []
    else
      var r := records[|records| - 1];
      AllLines(s, records[..|records| - 1], user, ignoremodified, editorText)
      + GradeMarkLines(s, r, ignoremodified) + RecordFeedbackLines(r, user, ignoremodified, editorText)
  }

  predicate AnyUpdate(s: Settings, records: seq<ImportRecord>, user: UserId, ignoremodified: bool, editorText: EditorText) {
    exists i :: 0 <= i < |records| && RecordUpdates(s, records[i], user, ignoremodified, editorText)
  }

  /** A record that is not skipped and changes both grade and mark lists the grade update, then the mark update. */
  lemma GradeLineBeforeMarkLine(s: Settings, r: ImportRecord, ignoremodified: bool)
    requires SkipReasonOf(s, r, Convert(s, Some(r.grade)), Convert(s, NormaliseMark(r.mark)), ignoremodified).None?
    requires GradeModified(Convert(s, Some(r.grade)), r.usergrade)
    requires MarkModified(Convert(s, NormaliseMark(r.mark)), UserMark(r))
    ensures GradeMarkLines(s, r, ignoremodified) == [GradeUpdate(r.user, Convert(s, Some(r.grade))), MarkUpdate(r.user, Convert(s, NormaliseMark(r.mark)))]
  {
  }

  /** A stale record that is not forced in lists nothing and updates nothing. */
  lemma StaleRecordListsNothing(s: Settings, r: ImportRecord, user: UserId, editorText: EditorText)
    requires Stale(r)
    ensures GradeMarkLines(s, r, false) == [] && RecordFeedbackLines(r, user, false, editorText) == []
    ensures !RecordUpdates(s, r, user, false, editorText)
  {
  }

  /**
   * The confirmation loop of the import form: the listed changes of all records in order, and
   * whether anything is to be updated.
   */
  method PreviewImport(s: Settings, records: seq<ImportRecord>, user: UserId, ignoremodified: bool, editorText: EditorText)
    returns (updates: seq<UpdateLine>, update: bool)
    ensures updates == AllLines(s, records, user, ignoremodified, editorText)
    ensures update <==> AnyUpdate(s, records, user, ignoremodified, editorText)
  {
    updates := [];
    update := false;
    var i := 0;
    while i < |records|
      invariant 0 <= i <= |records|
      invariant updates == AllLines(s, records[..i], user, ignoremodified, editorText)
      invariant update <==> AnyUpdate(s, records[..i], user, ignoremodified, editorText)
    {
      var lines, recordUpdate := ProcessRecord(s, records[i], user, ignoremodified, editorText);
      AllLinesStep(s, records, i, user, ignoremodified, editorText);
      AnyUpdateStep(s, records, i, user, ignoremodified, editorText);
      updates := updates + lines;
      update := update || recordUpdate;
      i := i + 1;
    }
    assert records[..|records|] == records;
  }

  lemma AllLinesStep(s: Settings, records: seq<ImportRecord>, i: nat, user: UserId, ignoremodified: bool, editorText: EditorText)
    requires i < |records|
    ensures AllLines(s, records[..i + 1], user, ignoremodified, editorText)
         == AllLines(s, records[..i], user, ignoremodified, editorText)
            + (GradeMarkLines(s, records[i], ignoremodified) + RecordFeedbackLines(records[i], user, ignoremodified, editorText))
  {
    var prefix := records[..i + 1];
    assert prefix[..i] == records[..i];
    assert prefix[i] == records[i];
  }

  lemma AnyUpdateStep(s: Settings, records: seq<ImportRecord>, i: nat, user: UserId, ignoremodified: bool, editorText: EditorText)
    requires i < |records|
    ensures AnyUpdate(s, records[..i + 1], user, ignoremodified, editorText)
        <==> AnyUpdate(s, records[..i], user, ignoremodified, editorText) || RecordUpdates(s, records[i], user, ignoremodified, editorText)
  {
    var prefix := records[..i + 1];
    assert prefix[i] == records[i];
    assert forall k :: 0 <= k < i ==> prefix[k] == records[..i][k];
  }

  /** The feedback columns of one record: a line for each column the importing user may change whose text differs. */
  method FeedbackColumnLines(r: ImportRecord, user: UserId, editorText: EditorText)
    returns (lines: seq<UpdateLine>, changed: bool)
    ensures lines == FeedbackLines(r.feedback, r, user, editorText)
    ensures changed <==> |lines| > 0
  {
    lines := [];
    changed := false;
    var j := 0;
    while j < |r.feedback|
      invariant 0 <= j <= |r.feedback|
      invariant lines == FeedbackLines(r.feedback[..j], r, user, editorText)
      invariant changed <==> |lines| > 0
    {
      var col := r.feedback[j];
      assert r.feedback[..j + 1][..j] == r.feedback[..j];
      if ColumnApplies(col, user) {
        var oldvalue := OldValue(col, r, user, editorText);
        if col.value != oldvalue {
          changed := true;
          lines := lines + [FeedbackUpdate(r.user, col.description, col.value)];
        }
      }
      j := j + 1;
    }
    assert r.feedback[..|r.feedback|] == r.feedback;
  }

  /** The grade and mark part of one turn: the record's grade and mark lines, and whether it is applied. */
  method GradeMarkPart(s: Settings, r: ImportRecord, ignoremodified: bool) returns (lines: seq<UpdateLine>, update: bool)
    ensures lines == GradeMarkLines(s, r, ignoremodified)
    ensures update <==> SkipReasonOf(s, r, Convert(s, Some(r.grade)), Convert(s, NormaliseMark(r.mark)), ignoremodified).None?
  {
    lines := [];
    update := false;
    var grade := Convert(s, Some(r.grade));
    var mark := Convert(s, NormaliseMark(r.mark));
    var skip := SkipReasonOf(s, r, grade, mark, ignoremodified).Some?;
    var grademodified := GradeModified(grade, r.usergrade);
    var markmodified := MarkModified(mark, UserMark(r));
    if !skip {
      update := true;
      if grademodified {
        lines := lines + [GradeUpdate(r.user, grade)];
      }
      if markmodified {
        lines := lines + [MarkUpdate(r.user, mark)];
      }
    }
  }

  /** One turn of the confirmation loop: the record's grade and mark lines, then its feedback lines. */
  method ProcessRecord(s: Settings, r: ImportRecord, user: UserId, ignoremodified: bool, editorText: EditorText)
    returns (lines: seq<UpdateLine>, update: bool)
    ensures lines == GradeMarkLines(s, r, ignoremodified) + RecordFeedbackLines(r, user, ignoremodified, editorText)
    ensures update <==> RecordUpdates(s, r, user, ignoremodified, editorText)
  {
    lines, update := GradeMarkPart(s, r, ignoremodified);
    if ignoremodified || !Stale(r) {
      var feedback, feedbackUpdate := FeedbackColumnLines(r, user, editorText);
      lines := lines + feedback;
      update := update || feedbackUpdate;
    }
  }
}
