/**
 * The "last used" date-range filter of the question bank: a filter (a mode and up to two
 * timestamps) becomes an SQL condition on `attempts.lastused` together with its named
 * parameters. Timestamps are taken as already parsed integers.
 */
module QuestionUsage {
  import opened Wrappers

  const ModeBefore := "before"
  const ModeAfter := "after"
  const ModeBetween := "between"

  const AfterParam := "lastusedafter"
  const BeforeParam := "lastusedbefore"

  const AfterText := "attempts.lastused > "
  const BeforeText := "attempts.lastused < "
  /** `attempts.lastused > :lastusedafter` */
  const AfterCondition := AfterText + (":" + AfterParam)
  /** `attempts.lastused < :lastusedbefore` */
  const BeforeCondition := BeforeText + (":" + BeforeParam)
  /** Both bounds, joined by AND: `attempts.lastused > :lastusedafter AND attempts.lastused < :lastusedbefore` */
  const BetweenCondition := AfterText + (":" + (AfterParam + (" AND " + BeforeCondition)))

  /** A condition string and the values of its named placeholders. */
  datatype Query = Query(condition: string, params: map<string, int>)

  datatype QueryError =
    | InvalidDateTimeMode(mode: string)
    | InvalidDateTimeBetween(before: int, after: int)

  predicate ValidMode(mode: string) {
    mode == ModeAfter || mode == ModeBefore || mode == ModeBetween
  }

  /**
   * The timestamp at position `i` of the filter values; a missing position parses as the
   * current time, as a date-time built from nothing does.
   */
  function ValueAt(values: seq<int>, i: nat, now: int): (t: int)
    ensures i < |values| ==> t == values[i]
    ensures i >= |values| ==> t == now
  {
    if i < |values| then values[i] else now
  }

  /**
   * build_query_from_filter. No mode or no values: no condition. An unknown mode is an error;
   * "after" and "before" bound the last use strictly by the first or the second value;
   * "between" bounds it on both sides and refuses a range whose start is after its end.
   */
  function BuildQueryFromFilter(mode: Option<string>, values: seq<int>, now: int): (r: Result<Query, QueryError>)
    ensures mode.None? || values == [] ==> r == Success(Query("", map[]))
    ensures mode.Some? && values != [] && !ValidMode(mode.value) ==> r == Failure(InvalidDateTimeMode(mode.value))
    ensures mode == Some(ModeAfter) && values != [] ==>
      r == Success(Query(AfterCondition, map[AfterParam := values[0]]))
    ensures mode == Some(ModeBefore) && values != [] ==>
      r == Success(Query(BeforeCondition, map[BeforeParam := ValueAt(values, 1, now)]))
    ensures mode == Some(ModeBetween) && values != [] ==>
      (r.Failure? <==> values[0] > ValueAt(values, 1, now))
    ensures r.Failure? && r.error.InvalidDateTimeBetween? ==>
      mode == Some(ModeBetween) && r.error.after > r.error.before
    ensures r.Success? && mode == Some(ModeBetween) && values != [] ==>
      r.value == Query(BetweenCondition, map[AfterParam := values[0], BeforeParam := ValueAt(values, 1, now)])
  {
    if mode.None? || values == [] then Success(Query("", map[]))
    else if !ValidMode(mode.value) then Failure(InvalidDateTimeMode(mode.value))
    else
      var after := ValueAt(values, 0, now);
      var before := ValueAt(values, 1, now);
      if mode.value == ModeAfter then Success(Query(AfterCondition, map[AfterParam := after]))
      else if mode.value == ModeBefore then Success(Query(BeforeCondition, map[BeforeParam := before]))
      else if after > before then Failure(InvalidDateTimeBetween(before, after))
      else Success(Query(BetweenCondition, map[AfterParam := after, BeforeParam := before]))
  }

  /** The characters of a placeholder name. */
  predicate IsNameChar(c: char) {
    ('a' <= c <= 'z') || ('0' <= c <= '9') || c == '_'
  }

  /** The name that starts a string: its longest prefix of name characters. */
  function NameRun(s: string): (name: string)
    ensures |name| <= |s| && name == s[..|name|]
    ensures forall k :: 0 <= k < |name| ==> IsNameChar(name[k])
    ensures |name| < |s| ==> !IsNameChar(s[|name|])
  {
    if s == [] || !IsNameChar(s[0]) then [] else [s[0]] + NameRun(s[1..])
  }

  /** The named placeholders of a condition string: every `:` followed by a name. */
  function Placeholders(s: string): set<string>
    decreases |s|
  {
    if s == [] then {}
    else if s[0] == ':' then {NameRun(s[1..])} + Placeholders(s[1..])
    else Placeholders(s[1..])
  }

  /** Text without a colon in front of a string adds no placeholder. */
  lemma {:induction false} PlaceholdersSkipText(a: string, b: string)
    requires forall k :: 0 <= k < |a| ==> a[k] != ':'
    ensures Placeholders(a + b) == Placeholders(b)
  {
    if a != [] {
      var ab := a + b;
      assert ab != [] && ab[0] == a[0] && a[0] != ':';
      assert ab[1..] == a[1..] + b;
      assert Placeholders(ab) == Placeholders(ab[1..]);
      PlaceholdersSkipText(a[1..], b);
    } else {
      assert a + b == b;
    }
  }

  lemma {:induction false} NameRunOf(name: string, rest: string)
    requires forall k :: 0 <= k < |name| ==> IsNameChar(name[k])
    requires rest != [] ==> !IsNameChar(rest[0])
    ensures NameRun(name + rest) == name
  {
    if name == [] {
      assert name + rest == rest;
    } else {
      assert (name + rest)[0] == name[0];
      assert (name + rest)[1..] == name[1..] + rest;
      NameRunOf(name[1..], rest);
    }
  }

  lemma NameHasNoColon(name: string)
    requires forall k :: 0 <= k < |name| ==> IsNameChar(name[k])
    ensures forall k :: 0 <= k < |name| ==> name[k] != ':'
  {
    forall k | 0 <= k < |name|
      ensures name[k] != ':'
    {
      assert IsNameChar(name[k]);
    }
  }

  /** `:name rest` names exactly `name` and the placeholders of rest. */
  lemma ColonNameStep(name: string, rest: string)
    requires forall k :: 0 <= k < |name| ==> IsNameChar(name[k])
    requires rest != [] ==> !IsNameChar(rest[0])
    ensures Placeholders(":" + (name + rest)) == {name} + Placeholders(rest)
  {
    var tail := ":" + (name + rest);
    assert tail[0] == ':';
    assert tail[1..] == name + rest;
    NameRunOf(name, rest);
    NameHasNoColon(name);
    PlaceholdersSkipText(name, rest);
  }

  /** `text :name rest`, with a colon-free text and name, names exactly `name` and the placeholders of rest. */
  lemma PlaceholderStep(text: string, name: string, rest: string)
    requires forall k :: 0 <= k < |text| ==> text[k] != ':'
    requires forall k :: 0 <= k < |name| ==> IsNameChar(name[k])
    requires rest != [] ==> !IsNameChar(rest[0])
    ensures Placeholders(text + (":" + (name + rest))) == {name} + Placeholders(rest)
  {
    var tail := ":" + (name + rest);
    PlaceholdersSkipText(text, tail);
    ColonNameStep(name, rest);
  }

  lemma NameChars(name: string)
    requires name == AfterParam || name == BeforeParam
    ensures forall k :: 0 <= k < |name| ==> IsNameChar(name[k])
  {
  }

  lemma AfterPlaceholders()
    ensures Placeholders(AfterCondition) == {AfterParam}
  {
    NameChars(AfterParam);
    assert AfterParam + "" == AfterParam;
    PlaceholderStep(AfterText, AfterParam, "");
  }

  lemma BeforePlaceholders()
    ensures Placeholders(BeforeCondition) == {BeforeParam}
  {
    NameChars(BeforeParam);
    assert BeforeParam + "" == BeforeParam;
    PlaceholderStep(BeforeText, BeforeParam, "");
  }

  lemma BetweenPlaceholders()
    ensures Placeholders(BetweenCondition) == {AfterParam, BeforeParam}
  {
    NameChars(AfterParam);
    var rest := " AND " + BeforeCondition;
    assert rest[0] == ' ';
    PlaceholderStep(AfterText, AfterParam, rest);
    PlaceholdersSkipText(" AND ", BeforeCondition);
    BeforePlaceholders();
  }

  /**
   * Every placeholder of a built condition has a parameter, and there is no parameter without
   * a placeholder.
   */
  lemma PlaceholdersMatchParams(mode: Option<string>, values: seq<int>, now: int)
    requires BuildQueryFromFilter(mode, values, now).Success?
    ensures Placeholders(BuildQueryFromFilter(mode, values, now).value.condition)
         == BuildQueryFromFilter(mode, values, now).value.params.Keys
  {
    var q := BuildQueryFromFilter(mode, values, now).value;
    if mode.None? || values == [] {
      assert q.condition == "";
    } else if mode.value == ModeAfter {
      AfterPlaceholders();
    } else if mode.value == ModeBefore {
      BeforePlaceholders();
    } else {
      BetweenPlaceholders();
    }
  }

  /** A "between" filter is accepted exactly when its range is not reversed; an equal start and end is accepted. */
  lemma BetweenAcceptsOrderedRange(after: int, before: int, now: int)
    ensures BuildQueryFromFilter(Some(ModeBetween), [after, before], now).Success? <==> after <= before
    ensures BuildQueryFromFilter(Some(ModeBetween), [after, after], now).Success?
  {
  }
}
