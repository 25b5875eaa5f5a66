/**
 * Multi-marker grading of one assignment: which markers are allocated to each student, one mark
 * row per (grade, marker), and the overall grade and overall workflow state derived from the
 * marks of the markers that are currently allocated.
 */
module MarkerAllocation {
  import opened Wrappers
  import opened RealArith

  type UserId = int
  type GradeId = nat
  type MarkId = nat

  /** The assignment's multimarkmethod setting. */
  datatype MultimarkMethod = Manual | First | Max | Average

  /** The assignment's multimarkrounding setting, used by the Average method. */
  datatype Rounding = RoundNone | RoundDown | RoundUp | RoundNatural

  /** The marking workflow states, in the order a submission moves through them. */
  datatype WorkflowState = NotMarked | InMarking | ReadyForReview | InReview | ReadyForRelease | Released

  /** Position of a state in the marking progression. */
  function Rank(s: WorkflowState): nat {
    match s
    case NotMarked => 0
    case InMarking => 1
    case ReadyForReview => 2
    case InReview => 3
    case ReadyForRelease => 4
    case Released => 5
  }

  /** One marker's row for one grade: its mark (null until given) and its own workflow state. */
  datatype Mark = Mark(id: MarkId, mark: Option<real>, workflowstate: Option<WorkflowState>)

  /** The overall grade row of one student. */
  datatype Grade = Grade(userid: UserId, grade: real)

  /** The overall grade value that means "not graded yet". */
  const Unset: real := -1.0

  // ---------------------------------------------------------------------------------------------
  // Aggregation of the allocated markers' marks into one overall grade
  // ---------------------------------------------------------------------------------------------

  predicate AllMarked(vals: seq<Option<real>>) {
    forall i :: 0 <= i < |vals| ==> vals[i].Some?
  }

  /** The mark values of a complete set of marks, in allocation order. */
  function Values(vals: seq<Option<real>>): (r: seq<real>)
    requires AllMarked(vals)
    ensures |r| == |vals|
    ensures forall i :: 0 <= i < |vals| ==> r[i] == vals[i].value
  {
    if vals == [] then [] else [vals[0].value] + Values(vals[1..])
  }

  function Sum(xs: seq<real>): real {
    if xs == [] then 0.0 else xs[0] + Sum(xs[1..])
  }

  function Maximum(xs: seq<real>): (r: real)
    requires |xs| > 0
    ensures forall i :: 0 <= i < |xs| ==> xs[i] <= r
    ensures exists i :: 0 <= i < |xs| && xs[i] == r
  {
    if |xs| == 1 then xs[0]
    else
      var m := Maximum(xs[1..]);
      assert forall i :: 1 <= i < |xs| ==> xs[i] == xs[1..][i - 1];
      if xs[0] >= m then xs[0] else m
  }

  function Minimum(xs: seq<real>): (r: real)
    requires |xs| > 0
    ensures forall i :: 0 <= i < |xs| ==> r <= xs[i]
    ensures exists i :: 0 <= i < |xs| && xs[i] == r
  {
    if |xs| == 1 then xs[0]
    else
      var m := Minimum(xs[1..]);
      assert forall i :: 1 <= i < |xs| ==> xs[i] == xs[1..][i - 1];
      if xs[0] <= m then xs[0] else m
  }

  function CeilOf(x: real): (n: int)
    ensures n as real - 1.0 < x <= n as real
  {
    var f := FloorOf(x);
    if f as real == x then f else f + 1
  }

  predicate IsWhole(r: real) {
    r.Floor as real == r
  }

  /** The mean of the marks, rounded as the assignment's rounding setting says. */
  function Round(rounding: Rounding, x: real): (r: real)
    ensures rounding == RoundNone ==> r == x
    ensures rounding != RoundNone ==> IsWhole(r)
    ensures rounding == RoundDown ==> r <= x < r + 1.0
    ensures rounding == RoundUp ==> r - 1.0 < x <= r
    ensures rounding == RoundNatural ==> r - 0.5 <= x < r + 0.5
  {
    match rounding
    case RoundNone => x
    case RoundDown => FloorOf(x) as real
    case RoundUp => CeilOf(x) as real
    case RoundNatural => FloorOf(x + 0.5) as real
  }

  /**
   * The overall grade the multimark method gives for the allocated markers' marks (in allocation
   * order), or None when it gives none: the Manual method never computes one, and the other
   * methods need every allocated marker to have a mark.
   */
  function Aggregate(mm: MultimarkMethod, rounding: Rounding, vals: seq<Option<real>>): (r: Option<real>)
    ensures r.Some? <==> mm != Manual && |vals| > 0 && AllMarked(vals)
    ensures mm == First && r.Some? ==> r.value == vals[0].value
    ensures mm == Max && r.Some? ==>
      (forall i :: 0 <= i < |vals| ==> vals[i].value <= r.value) &&
      (exists i :: 0 <= i < |vals| && vals[i].value == r.value)
  {
    if mm == Manual || |vals| == 0 || !AllMarked(vals) then None
    else
      var xs := Values(vals);
      match mm
      case First => Some(xs[0])
      case Max => Some(Maximum(xs))
      case Average => Some(Round(rounding, Sum(xs) / |xs| as real))
  }

  lemma {:induction false} SumAtMost(xs: seq<real>, b: real)
    requires forall i :: 0 <= i < |xs| ==> xs[i] <= b
    ensures Sum(xs) <= |xs| as real * b
  {
    if xs != [] {
      var tail := xs[1..];
      assert forall i :: 0 <= i < |tail| ==> tail[i] == xs[i + 1];
      SumAtMost(tail, b);
      assert |xs| as real * b == |tail| as real * b + b;
    }
  }

  lemma {:induction false} SumAtLeast(xs: seq<real>, b: real)
    requires forall i :: 0 <= i < |xs| ==> b <= xs[i]
    ensures |xs| as real * b <= Sum(xs)
  {
    if xs != [] {
      var tail := xs[1..];
      assert forall i :: 0 <= i < |tail| ==> tail[i] == xs[i + 1];
      SumAtLeast(tail, b);
      assert |xs| as real * b == |tail| as real * b + b;
    }
  }

  lemma MulDiv(n: real, h: real)
    requires n > 0.0
    ensures (n * h) / n == h
  {
  }

  /** The mean of values that all lie in [lo, hi] lies in [lo, hi]. */
  lemma MeanBetween(xs: seq<real>, lo: real, hi: real)
    requires |xs| > 0
    requires forall i :: 0 <= i < |xs| ==> lo <= xs[i] <= hi
    ensures lo <= Sum(xs) / |xs| as real <= hi
  {
    SumAtMost(xs, hi);
    SumAtLeast(xs, lo);
    var n := |xs| as real;
    var s := Sum(xs);
    DivMonotone(s, n * hi, n);
    DivMonotone(n * lo, s, n);
    MulDiv(n, hi);
    MulDiv(n, lo);
  }

  /** Unrounded averaging of a complete set of marks lies between the lowest and the highest mark. */
  lemma AverageWithinMarks(vals: seq<Option<real>>)
    requires |vals| > 0 && AllMarked(vals)
    ensures Minimum(Values(vals)) <= Aggregate(Average, RoundNone, vals).value <= Maximum(Values(vals))
  {
    var xs := Values(vals);
    MeanBetween(xs, Minimum(xs), Maximum(xs));
  }

  /** A single allocated marker: every method except Manual takes that marker's mark unrounded or rounded. */
  lemma SingleMarkerDecides(mm: MultimarkMethod, rounding: Rounding, x: real)
    requires mm != Manual
    ensures mm != Average ==> Aggregate(mm, rounding, [Some(x)]) == Some(x)
    ensures mm == Average ==> Aggregate(mm, rounding, [Some(x)]) == Some(Round(rounding, x))
  {
    assert Values([Some(x)]) == [x];
    assert Sum([x]) == x by {
      assert [x][1..] == [];
    }
  }

  /** The marks of the allocated markers for grade `g`, in allocation order (None: no mark yet). */
  function AllocatedMarks(alloc: seq<UserId>, marks: map<(GradeId, UserId), Mark>, g: GradeId): seq<Option<real>> {
    seq(|alloc|, i requires 0 <= i < |alloc| => MarkValue(marks, g, alloc[i]))
  }

  /** The mark `marker` gave on grade `g`, None when there is no row or no mark in it. */
  function MarkValue(marks: map<(GradeId, UserId), Mark>, g: GradeId, marker: UserId): Option<real> {
    if (g, marker) in marks then marks[(g, marker)].mark else None
  }

  /** The marks of two allocated markers, in allocation order. */
  lemma TwoMarkValues(marks: map<(GradeId, UserId), Mark>, g: GradeId, t1: UserId, t2: UserId)
    ensures AllocatedMarks([t1, t2], marks, g) == [MarkValue(marks, g, t1), MarkValue(marks, g, t2)]
  {
  }

  /** The two-marker aggregates: what each method gives for complete marks `x` then `y`. */
  lemma TwoMarksAggregate(mm: MultimarkMethod, rounding: Rounding, x: real, y: real)
    ensures mm == Manual ==> Aggregate(mm, rounding, [Some(x), Some(y)]) == None
    ensures mm == First ==> Aggregate(mm, rounding, [Some(x), Some(y)]) == Some(x)
    ensures mm == Max ==> Aggregate(mm, rounding, [Some(x), Some(y)]) == Some(if x >= y then x else y)
    ensures mm == Average ==> Aggregate(mm, rounding, [Some(x), Some(y)]) == Some(Round(rounding, (x + y) / 2.0))
  {
    var vals := [Some(x), Some(y)];
    assert AllMarked(vals);
    assert Values(vals) == [x, y] by {
      assert vals[1..] == [Some(y)];
      assert Values(vals[1..]) == [y];
    }
    assert Sum([x, y]) == x + y by {
      assert [x, y][1..] == [y];
      assert [y][1..] == [];
      assert Sum([y]) == y + Sum([]);
    }
    assert Maximum([x, y]) == (if x >= y then x else y) by {
      assert [x, y][1..] == [y];
    }
    if mm == Average {
      assert |Values(vals)| as real == 2.0;
      assert Aggregate(mm, rounding, vals) == Some(Round(rounding, Sum([x, y]) / 2.0));
    }
  }

  /** The overall grade stored for grade `g`: the aggregate, or Unset when there is none. */
  function OverallGrade(mm: MultimarkMethod, rounding: Rounding, alloc: seq<UserId>,
                        marks: map<(GradeId, UserId), Mark>, g: GradeId): real
  {
    Aggregate(mm, rounding, AllocatedMarks(alloc, marks, g)).GetOr(Unset)
  }

  /** The overall grade of `g` depends only on the marks given on `g`. */
  lemma OverallGradeFrame(mm: MultimarkMethod, rounding: Rounding, alloc: seq<UserId>,
                          m1: map<(GradeId, UserId), Mark>, m2: map<(GradeId, UserId), Mark>, g: GradeId)
    requires forall k :: MarkValue(m1, g, k) == MarkValue(m2, g, k)
    ensures OverallGrade(mm, rounding, alloc, m1, g) == OverallGrade(mm, rounding, alloc, m2, g)
  {
    assert AllocatedMarks(alloc, m1, g) == AllocatedMarks(alloc, m2, g);
  }

  /** A mark row of a marker who is not allocated has no effect on the overall grade. */
  lemma UnallocatedMarkIgnored(mm: MultimarkMethod, rounding: Rounding, alloc: seq<UserId>,
                               marks: map<(GradeId, UserId), Mark>, g: GradeId, marker: UserId, m: Mark)
    requires marker !in alloc
    ensures OverallGrade(mm, rounding, alloc, marks[(g, marker) := m], g)
         == OverallGrade(mm, rounding, alloc, marks, g)
  {
    assert AllocatedMarks(alloc, marks[(g, marker) := m], g) == AllocatedMarks(alloc, marks, g);
  }

  /** An allocated marker without a mark keeps the overall grade unset, whatever the others gave. */
  lemma IncompleteMarksLeaveGradeUnset(mm: MultimarkMethod, rounding: Rounding, alloc: seq<UserId>,
                                       marks: map<(GradeId, UserId), Mark>, g: GradeId, i: nat)
    requires i < |alloc|
    requires (g, alloc[i]) !in marks || marks[(g, alloc[i])].mark.None?
    ensures OverallGrade(mm, rounding, alloc, marks, g) == Unset
  {
    assert AllocatedMarks(alloc, marks, g)[i].None?;
  }

  // ---------------------------------------------------------------------------------------------
  // Overall workflow state
  // ---------------------------------------------------------------------------------------------

  /** The state a marker counts as being in: one who has not reported a state is still marking. */
  function Effective(s: Option<WorkflowState>): WorkflowState {
    if s.Some? then s.value else InMarking
  }

  /** The earliest-in-progression state among the allocated markers. */
  function EarliestState(states: seq<Option<WorkflowState>>): (r: WorkflowState)
    requires |states| > 0
    ensures forall i :: 0 <= i < |states| ==> Rank(r) <= Rank(Effective(states[i]))
    ensures exists i :: 0 <= i < |states| && r == Effective(states[i])
  {
    if |states| == 1 then Effective(states[0])
    else
      var rest := EarliestState(states[1..]);
      assert forall i :: 1 <= i < |states| ==> states[i] == states[1..][i - 1];
      if Rank(Effective(states[0])) <= Rank(rest) then Effective(states[0]) else rest
  }

  predicate AnyReported(states: seq<Option<WorkflowState>>) {
    exists i :: 0 <= i < |states| && states[i].Some?
  }

  /**
   * The overall workflow state from the allocated markers' states: the earliest one, once any
   * allocated marker has reported a state; until then the current overall state is kept.
   */
  function CombineStates(states: seq<Option<WorkflowState>>, current: Option<WorkflowState>): Option<WorkflowState> {
    if AnyReported(states) then Some(EarliestState(states)) else current
  }

  /** When every allocated marker reports the same state, that is the overall state. */
  lemma {:induction false} AllAgreeGivesThatState(states: seq<Option<WorkflowState>>, s: WorkflowState,
                                                  current: Option<WorkflowState>)
    requires |states| > 0
    requires forall i :: 0 <= i < |states| ==> states[i] == Some(s)
    ensures CombineStates(states, current) == Some(s)
  {
    assert states[0].Some?;
    var i :| 0 <= i < |states| && EarliestState(states) == Effective(states[i]);
  }

  /**
   * The overall state gets past "in marking" only when every allocated marker has reported a
   * state at least that far along.
   */
  lemma AdvancesOnlyWhenAllReached(states: seq<Option<WorkflowState>>, current: Option<WorkflowState>,
                                   s: WorkflowState)
    requires AnyReported(states)
    requires CombineStates(states, current) == Some(s)
    requires Rank(s) > Rank(InMarking)
    ensures forall i :: 0 <= i < |states| ==> states[i].Some? && Rank(states[i].value) >= Rank(s)
  {
    forall i | 0 <= i < |states|
      ensures states[i].Some? && Rank(states[i].value) >= Rank(s)
    {
      assert Rank(s) <= Rank(Effective(states[i]));
    }
  }

  /** The workflow states of the allocated markers for grade `g` (None: no state reported). */
  function MarkerStates(alloc: seq<UserId>, marks: map<(GradeId, UserId), Mark>, g: GradeId): seq<Option<WorkflowState>> {
    seq(|alloc|, i requires 0 <= i < |alloc| => MarkState(marks, g, alloc[i]))
  }

  /** The workflow state `marker` reported on grade `g`, None when there is no row or no state in it. */
  function MarkState(marks: map<(GradeId, UserId), Mark>, g: GradeId, marker: UserId): Option<WorkflowState> {
    if (g, marker) in marks then marks[(g, marker)].workflowstate else None
  }

  // ---------------------------------------------------------------------------------------------
  // The assignment's stored state
  // ---------------------------------------------------------------------------------------------

  /** The members of a one-longer prefix are those of the prefix and the next member. */
  lemma PrefixStep<T>(s: seq<T>, i: nat)
    requires i < |s|
    ensures forall x :: x in s[..i + 1] <==> x in s[..i] || x == s[i]
  {
    assert s[..i + 1] == s[..i] + [s[i]];
  }

  /** Writing a key over a map that differs from `m0` at most at that key gives `m0` with the key written. */
  lemma OverwriteKey<K, V>(m0: map<K, V>, m1: map<K, V>, k: K, v: V)
    requires forall j :: j != k ==> (j in m1 <==> j in m0)
    requires forall j :: j != k && j in m0 ==> m1[j] == m0[j]
    ensures m1[k := v] == m0[k := v]
  {
  }

  /** The mark row of `marker` on student `u`'s grade, in the given grade and mark tables. */
  function MarkIn(userGrade: map<UserId, GradeId>, marks: map<(GradeId, UserId), Mark>, u: UserId, marker: UserId): Option<Mark> {
    if u in userGrade && (userGrade[u], marker) in marks then Some(marks[(userGrade[u], marker)]) else None
  }

  /** The id of student `u`'s grade row in the given table. */
  function GradeIdIn(userGrade: map<UserId, GradeId>, u: UserId): Option<GradeId> {
    if u in userGrade then Some(userGrade[u]) else None
  }

  /** Student `u`'s grade row in the given tables. */
  function GradeRowIn(userGrade: map<UserId, GradeId>, grades: map<GradeId, Grade>, u: UserId): Option<Grade> {
    if u in userGrade && userGrade[u] in grades then Some(grades[userGrade[u]]) else None
  }

  /**
   * Between the tables `0` and the tables `1`, only the students in `done` changed, and only in
   * the mark of `actor`.
   */
  ghost predicate KeptIn(userGrade1: map<UserId, GradeId>, grades1: map<GradeId, Grade>, marks1: map<(GradeId, UserId), Mark>,
                         actor: UserId, done: set<UserId>,
                         userGrade0: map<UserId, GradeId>, grades0: map<GradeId, Grade>, marks0: map<(GradeId, UserId), Mark>)
  {
    && (forall u, m :: u !in done || m != actor ==> MarkIn(userGrade1, marks1, u, m) == MarkIn(userGrade0, marks0, u, m))
    && (forall u :: u !in done ==>
          GradeIdIn(userGrade1, u) == GradeIdIn(userGrade0, u) && GradeRowIn(userGrade1, grades1, u) == GradeRowIn(userGrade0, grades0, u))
  }

  /** Every student with a grade row in `userGrade0` still has it, under the same id, in `userGrade1`. */
  ghost predicate IdsKept(userGrade1: map<UserId, GradeId>, userGrade0: map<UserId, GradeId>) {
    forall u :: u in userGrade0 ==> u in userGrade1 && userGrade1[u] == userGrade0[u]
  }

  /** Two writes confined to the students `a` and then `b` are together confined to `a + b`. */
  lemma KeptTrans(ug0: map<UserId, GradeId>, gr0: map<GradeId, Grade>, mk0: map<(GradeId, UserId), Mark>,
                  ug1: map<UserId, GradeId>, gr1: map<GradeId, Grade>, mk1: map<(GradeId, UserId), Mark>,
                  ug2: map<UserId, GradeId>, gr2: map<GradeId, Grade>, mk2: map<(GradeId, UserId), Mark>,
                  actor: UserId, a: set<UserId>, b: set<UserId>)
    requires KeptIn(ug1, gr1, mk1, actor, a, ug0, gr0, mk0)
    requires KeptIn(ug2, gr2, mk2, actor, b, ug1, gr1, mk1)
    ensures KeptIn(ug2, gr2, mk2, actor, a + b, ug0, gr0, mk0)
  {
  }

  class Assignment {
    const multimarkmethod: MultimarkMethod
    const multimarkrounding: Rounding
    /** Allocated markers per student, in allocation order. */
    var allocation: map<UserId, seq<UserId>>
    /** The grade rows, by id. */
    var grades: map<GradeId, Grade>
    /** The grade row of each student who has one. */
    var userGrade: map<UserId, GradeId>
    /** The mark rows, at most one per (grade, marker). */
    var marks: map<(GradeId, UserId), Mark>
    /** The overall workflow state of each student's flags row. */
    var flags: map<UserId, Option<WorkflowState>>
    var nextGradeId: nat
    var nextMarkId: nat

    ghost predicate Valid()
      reads this
    {
      && (forall u :: u in userGrade ==> userGrade[u] in grades && grades[userGrade[u]].userid == u)
      && (forall g :: g in grades ==> g < nextGradeId && grades[g].userid in userGrade && userGrade[grades[g].userid] == g)
      && (forall k :: k in marks ==> k.0 in grades)
    }

    constructor (mm: MultimarkMethod, rounding: Rounding)
      ensures Valid()
      ensures multimarkmethod == mm && multimarkrounding == rounding
      ensures allocation == map[] && grades == map[] && userGrade == map[] && marks == map[] && flags == map[]
    {
      multimarkmethod, multimarkrounding := mm, rounding;
      allocation, grades, userGrade, marks, flags := map[], map[], map[], map[], map[];
      nextGradeId, nextMarkId := 0, 0;
    }

    function AllocatedTo(u: UserId): seq<UserId>
      reads this
    {
      if u in allocation then allocation[u] else []
    }

    function MarkOf(g: GradeId, marker: UserId): Option<Mark>
      reads this
    {
      if (g, marker) in marks then Some(marks[(g, marker)]) else None
    }

    /** The mark row of `marker` on student `u`'s grade, if both exist. */
    function UserMark(u: UserId, marker: UserId): Option<Mark>
      reads this
    {
      MarkIn(userGrade, marks, u, marker)
    }

    function WorkflowStateOf(u: UserId): Option<WorkflowState>
      reads this
    {
      if u in flags then flags[u] else None
    }

    ghost predicate HasMark(u: UserId, marker: UserId, value: Option<real>, state: Option<WorkflowState>)
      reads this
    {
      UserMark(u, marker).Some? && UserMark(u, marker).value.mark == value
      && UserMark(u, marker).value.workflowstate == state
    }

    /** get_allocated_markers: the markers allocated to `u`, none when nobody was allocated. */
    method GetAllocatedMarkers(u: UserId) returns (markers: seq<UserId>)
      ensures u !in allocation ==> markers == []
      ensures u in allocation ==> markers == allocation[u]
    {
      markers := if u in allocation then allocation[u] else [];
    }

    /** update_allocated_markers: replaces the allocation of `u`; mark rows are kept. */
    method UpdateAllocatedMarkers(u: UserId, markers: seq<UserId>)
      requires Valid()
      modifies this`allocation
      ensures Valid()
      ensures allocation == old(allocation)[u := markers]
    {
      allocation := allocation[u := markers];
    }

    /** get_user_grade: the grade row of `u`, created with an unset grade when asked to. */
    method GetUserGrade(u: UserId, create: bool) returns (g: Option<GradeId>)
      requires Valid()
      modifies this`grades, this`userGrade, this`nextGradeId
      ensures Valid()
      ensures u in old(userGrade) ==> g == Some(old(userGrade)[u]) && unchanged(this)
      ensures u !in old(userGrade) && !create ==> g == None && unchanged(this)
      ensures u !in old(userGrade) && create ==>
        && g == Some(old(nextGradeId))
        && grades == old(grades)[g.value := Grade(u, Unset)]
        && userGrade == old(userGrade)[u := g.value]
        && nextGradeId == old(nextGradeId) + 1
      ensures g.Some? ==> u in userGrade && userGrade[u] == g.value && g.value in grades
    {
      if u in userGrade {
        g := Some(userGrade[u]);
      } else if create {
        var id := nextGradeId;
        g := Some(id);
        grades := grades[id := Grade(u, Unset)];
        userGrade := userGrade[u := id];
        nextGradeId := nextGradeId + 1;
      } else {
        g := None;
      }
    }

    /** get_mark: the mark row of `marker` on grade `g`; with `create`, an empty row is made when there is none. */
    method GetMark(g: GradeId, marker: UserId, create: bool) returns (m: Option<Mark>)
      requires Valid() && g in grades
      modifies this`marks, this`nextMarkId
      ensures Valid()
      ensures old(MarkOf(g, marker)).Some? ==> m == old(MarkOf(g, marker)) && unchanged(this)
      ensures old(MarkOf(g, marker)).None? && !create ==> m == None && unchanged(this)
      ensures old(MarkOf(g, marker)).None? && create ==>
        && m == Some(Mark(old(nextMarkId), None, None))
        && marks == old(marks)[(g, marker) := m.value]
        && nextMarkId == old(nextMarkId) + 1
      ensures create ==> m.Some? && m == MarkOf(g, marker)
    {
      if (g, marker) in marks {
        m := Some(marks[(g, marker)]);
      } else if create {
        m := Some(Mark(nextMarkId, None, None));
        marks := marks[(g, marker) := m.value];
        nextMarkId := nextMarkId + 1;
      } else {
        m := None;
      }
    }

    /**
     * update_mark: writes the mark and workflow state of the acting marker `grader` on grade `g`
     * (creating the row if needed) and, unless the method is Manual, recomputes the overall grade
     * from the marks of the markers allocated at this moment.
     */
    method UpdateMark(g: GradeId, grader: UserId, value: Option<real>, state: Option<WorkflowState>)
      requires Valid() && g in grades
      modifies this`marks, this`nextMarkId, this`grades
      ensures Valid()
      ensures (g, grader) in marks && marks[(g, grader)].mark == value && marks[(g, grader)].workflowstate == state
      ensures (g, grader) in old(marks) ==> marks[(g, grader)].id == old(marks)[(g, grader)].id
      ensures marks == old(marks)[(g, grader) := marks[(g, grader)]]
      ensures g in grades && grades[g].userid == old(grades)[g].userid
      ensures grades == old(grades)[g := grades[g]]
      ensures multimarkmethod == Manual ==> grades == old(grades)
      ensures multimarkmethod != Manual ==>
        grades[g].grade == OverallGrade(multimarkmethod, multimarkrounding, AllocatedTo(grades[g].userid), marks, g)
    {
      ghost var marks0 := marks;
      var m := GetMark(g, grader, true);
      var written := Mark(m.value.id, value, state);
      OverwriteKey(marks0, marks, (g, grader), written);
      marks := marks[(g, grader) := written];
      if multimarkmethod != Manual {
        var u := grades[g].userid;
        var overall := OverallGrade(multimarkmethod, multimarkrounding, AllocatedTo(u), marks, g);
        grades := grades[g := Grade(u, overall)];
      }
    }

    /**
     * calculate_and_save_overall_workflow_state: stores on the student's flags the overall state
     * derived from the allocated markers' states, `current` being the state stored so far.
     */
    method CalculateAndSaveOverallWorkflowState(g: GradeId, current: Option<WorkflowState>)
      requires Valid() && g in grades
      modifies this`flags
      ensures Valid()
      ensures flags == old(flags)[grades[g].userid :=
        CombineStates(MarkerStates(AllocatedTo(grades[g].userid), marks, g), current)]
    {
      var u := grades[g].userid;
      flags := flags[u := CombineStates(MarkerStates(AllocatedTo(u), marks, g), current)];
    }

    /** The id of student `u`'s grade row, if there is one. */
    function GradeIdOf(u: UserId): Option<GradeId>
      reads this
    {
      GradeIdIn(userGrade, u)
    }

    /** Student `u`'s grade row, if there is one. */
    function GradeRowOf(u: UserId): Option<Grade>
      reads this
    {
      GradeRowIn(userGrade, grades, u)
    }

    /** Student `u`'s grade row holds the grade computed from the marks of the markers allocated to `u`. */
    ghost predicate GradeRecomputed(u: UserId)
      reads this
    {
      u in userGrade && userGrade[u] in grades
      && grades[userGrade[u]].grade == OverallGrade(multimarkmethod, multimarkrounding, AllocatedTo(u), marks, userGrade[u])
    }

    /** Does save_grade write the acting marker's mark for student `u`? */
    ghost predicate Targeted(actor: UserId, student: UserId, applytoall: bool, team: seq<UserId>, u: UserId)
      reads this
    {
      u == student || (applytoall && TeamTarget(actor, team, u))
    }

    /**
     * save_grade as used by a marker: writes `actor`'s mark for `student` and, with "apply to
     * all", for every member of the student's team to whom `actor` is allocated. Outside
     * Manual, each student written gets the overall grade recomputed from the allocated markers'
     * marks. Every other student keeps their grade row, its id and all their marks, and no other
     * marker's mark changes for anyone.
     */
    method SaveGrade(actor: UserId, student: UserId, value: Option<real>, state: Option<WorkflowState>,
                     applytoall: bool, team: seq<UserId>)
      requires Valid()
      modifies this`grades, this`userGrade, this`nextGradeId, this`marks, this`nextMarkId
      ensures Valid()
      ensures forall u :: Targeted(actor, student, applytoall, team, u) ==> HasMark(u, actor, value, state)
      ensures multimarkmethod != Manual ==>
        forall u :: Targeted(actor, student, applytoall, team, u) ==> GradeRecomputed(u)
      ensures forall u, m :: !Targeted(actor, student, applytoall, team, u) || m != actor ==>
        UserMark(u, m) == old(UserMark(u, m))
      ensures forall u :: !Targeted(actor, student, applytoall, team, u) ==> (u in userGrade <==> u in old(userGrade))
      ensures forall u :: !Targeted(actor, student, applytoall, team, u) ==> GradeIdOf(u) == old(GradeIdOf(u)) && GradeRowOf(u) == old(GradeRowOf(u))
      ensures forall u :: u in old(userGrade) ==> GradeIdOf(u) == old(GradeIdOf(u))
    {
      MarkFor(actor, student, value, state);
      label marked:
      if applytoall {
        MarkTeam(actor, value, state, team);
        if !TeamTarget(actor, team, student) {
          assert HasMark(student, actor, value, state) by {
            assert UserMark(student, actor) == old@marked(UserMark(student, actor));
          }
          if multimarkmethod != Manual {
            StaysRecomputed@marked(student);
          }
        }
      }
      forall u | !Targeted(actor, student, applytoall, team, u)
        ensures u in userGrade <==> u in old(userGrade)
      {
        assert GradeIdOf(u) == old(GradeIdOf(u));
      }
      forall u | u in old(userGrade)
        ensures GradeIdOf(u) == old(GradeIdOf(u))
      {
        assert old@marked(GradeIdOf(u)) == old(GradeIdOf(u));
      }
    }

    /** Is `u` a member of `team` to whom `actor` is allocated? */
    ghost predicate TeamTarget(actor: UserId, team: seq<UserId>, u: UserId)
      reads this
    {
      u in team && actor in AllocatedTo(u)
    }

    /**
     * The "apply to all" part of save_grade: marks every team member allocated to `actor`,
     * with the same guarantees as save_grade for the members written and everybody else.
     */
    method MarkTeam(actor: UserId, value: Option<real>, state: Option<WorkflowState>, team: seq<UserId>)
      requires Valid()
      modifies this`grades, this`userGrade, this`nextGradeId, this`marks, this`nextMarkId
      ensures Valid()
      ensures forall u :: TeamTarget(actor, team, u) ==> HasMark(u, actor, value, state)
      ensures multimarkmethod != Manual ==> forall u :: TeamTarget(actor, team, u) ==> GradeRecomputed(u)
      ensures forall u, m :: !TeamTarget(actor, team, u) || m != actor ==> UserMark(u, m) == old(UserMark(u, m))
      ensures forall u :: !TeamTarget(actor, team, u) ==> (u in userGrade <==> u in old(userGrade))
      ensures forall u :: !TeamTarget(actor, team, u) ==> GradeIdOf(u) == old(GradeIdOf(u)) && GradeRowOf(u) == old(GradeRowOf(u))
      ensures forall u :: u in old(userGrade) ==> GradeIdOf(u) == old(GradeIdOf(u))
    {
      ghost var userGrade0, grades0, marks0 := userGrade, grades, marks;
      var i := 0;
      ghost var done: set<UserId> := {};
      while i < |team|
        invariant 0 <= i <= |team|
        invariant Valid()
        invariant allocation == old(allocation)
        invariant TeamProgress(actor, value, state, team[..i], done, userGrade0, grades0, marks0)
      {
        done := MarkMember(actor, value, state, team, i, done, userGrade0, grades0, marks0);
        i := i + 1;
      }
      assert team[..|team|] == team;
      forall u | !TeamTarget(actor, team, u)
        ensures u in userGrade <==> u in old(userGrade)
      {
        assert GradeIdOf(u) == old(GradeIdOf(u));
      }
    }

    /**
     * The state of "apply to all" after the members `prefix`: the members written, `done`, are
     * those of the prefix allocated to `actor`; each holds the mark (and, outside Manual, a
     * recomputed grade); everybody else keeps their grade row and marks from the tables
     * `userGrade0`, `grades0` and `marks0`, and no other marker's mark changed for anyone.
     */
    ghost predicate TeamProgress(actor: UserId, value: Option<real>, state: Option<WorkflowState>, prefix: seq<UserId>,
                                 done: set<UserId>, userGrade0: map<UserId, GradeId>, grades0: map<GradeId, Grade>,
                                 marks0: map<(GradeId, UserId), Mark>)
      reads this
    {
      && (forall u :: u in done <==> TeamTarget(actor, prefix, u))
      && Written(actor, value, state, done)
      && KeptSince(actor, done, userGrade0, grades0, marks0)
      && IdsKept(userGrade, userGrade0)
    }

    /** Every student in `done` holds `actor`'s mark and, outside Manual, a recomputed grade. */
    ghost predicate Written(actor: UserId, value: Option<real>, state: Option<WorkflowState>, done: set<UserId>)
      reads this
    {
      forall u :: u in done ==> HasMark(u, actor, value, state) && (multimarkmethod != Manual ==> GradeRecomputed(u))
    }

    /**
     * Every student outside `done` has the grade row and marks of the given tables, and so has
     * every student for markers other than `actor`.
     */
    ghost predicate KeptSince(actor: UserId, done: set<UserId>, userGrade0: map<UserId, GradeId>,
                              grades0: map<GradeId, Grade>, marks0: map<(GradeId, UserId), Mark>)
      reads this
    {
      KeptIn(userGrade, grades, marks, actor, done, userGrade0, grades0, marks0)
    }

    /** One member of "apply to all": marks `team[i]` when `actor` is allocated to them. */
    method MarkMember(actor: UserId, value: Option<real>, state: Option<WorkflowState>, team: seq<UserId>, i: nat,
                      ghost done: set<UserId>, ghost userGrade0: map<UserId, GradeId>, ghost grades0: map<GradeId, Grade>,
                      ghost marks0: map<(GradeId, UserId), Mark>)
      returns (ghost done': set<UserId>)
      requires Valid() && i < |team|
      requires TeamProgress(actor, value, state, team[..i], done, userGrade0, grades0, marks0)
      modifies this`grades, this`userGrade, this`nextGradeId, this`marks, this`nextMarkId
      ensures Valid()
      ensures TeamProgress(actor, value, state, team[..i + 1], done', userGrade0, grades0, marks0)
    {
      var member := team[i];
      PrefixStep(team, i);
      done' := done;
      if actor in AllocatedTo(member) {
        MarkWritten(actor, member, value, state, done, userGrade0, grades0, marks0);
        done' := done + {member};
      }
    }

    /** Marks `member` as `actor` and adds them to the students written since the given tables. */
    method MarkWritten(actor: UserId, member: UserId, value: Option<real>, state: Option<WorkflowState>,
                       ghost done: set<UserId>, ghost userGrade0: map<UserId, GradeId>, ghost grades0: map<GradeId, Grade>,
                       ghost marks0: map<(GradeId, UserId), Mark>)
      requires Valid() && actor in AllocatedTo(member)
      requires Written(actor, value, state, done) && KeptSince(actor, done, userGrade0, grades0, marks0)
      requires IdsKept(userGrade, userGrade0)
      modifies this`grades, this`userGrade, this`nextGradeId, this`marks, this`nextMarkId
      ensures Valid()
      ensures Written(actor, value, state, done + {member}) && KeptSince(actor, done + {member}, userGrade0, grades0, marks0)
      ensures IdsKept(userGrade, userGrade0)
    {
      label before:
      ghost var userGrade1, grades1, marks1 := userGrade, grades, marks;
      MarkFor(actor, member, value, state);
      WrittenStep@before(member, actor, value, state, done);
      assert KeptIn(userGrade, grades, marks, actor, {member}, userGrade1, grades1, marks1) by {
        assert forall v, m :: v != member ==> MarkIn(userGrade, marks, v, m) == old@before(UserMark(v, m));
        assert forall m :: m != actor ==> MarkIn(userGrade, marks, member, m) == old@before(UserMark(member, m));
        assert forall v :: v != member ==>
          GradeIdIn(userGrade, v) == old@before(GradeIdOf(v)) && GradeRowIn(userGrade, grades, v) == old@before(GradeRowOf(v));
      }
      KeptTrans(userGrade0, grades0, marks0, userGrade1, grades1, marks1, userGrade, grades, marks, actor, done, {member});
      assert IdsKept(userGrade, userGrade1) by {
        forall v | v in userGrade1 ensures v in userGrade && userGrade[v] == userGrade1[v] {
          assert GradeIdOf(v) == old@before(GradeIdOf(v));
        }
      }
    }

    /** Marking student `w` as `actor` adds `w` to the students written and keeps the others written. */
    twostate lemma WrittenStep(new w: UserId, new actor: UserId, new value: Option<real>, new state: Option<WorkflowState>,
                               new done: set<UserId>)
      requires old(Valid()) && Valid() && allocation == old(allocation)
      requires old(Written(actor, value, state, done))
      requires HasMark(w, actor, value, state) && (multimarkmethod != Manual ==> GradeRecomputed(w))
      requires forall v :: v != w ==> GradeIdOf(v) == old(GradeIdOf(v)) && GradeRowOf(v) == old(GradeRowOf(v))
      requires forall v, m :: v != w ==> UserMark(v, m) == old(UserMark(v, m))
      ensures Written(actor, value, state, done + {w})
    {
      forall u | u in done && u != w
        ensures HasMark(u, actor, value, state)
      {
        assert UserMark(u, actor) == old(UserMark(u, actor));
      }
      if multimarkmethod != Manual {
        OthersStayRecomputed(w);
      }
    }

    /** A write confined to student `w` leaves every other student's recomputed grade in place. */
    twostate lemma OthersStayRecomputed(w: UserId)
      requires old(Valid()) && Valid() && allocation == old(allocation)
      requires forall v :: v != w ==> GradeIdOf(v) == old(GradeIdOf(v)) && GradeRowOf(v) == old(GradeRowOf(v))
      requires forall v, m :: v != w ==> UserMark(v, m) == old(UserMark(v, m))
      ensures forall v :: v != w && old(GradeRecomputed(v)) ==> GradeRecomputed(v)
    {
      forall v | v != w && old(GradeRecomputed(v))
        ensures GradeRecomputed(v)
      {
        assert GradeIdOf(v) == old(GradeIdOf(v)) && GradeRowOf(v) == old(GradeRowOf(v));
        var g := userGrade[v];
        forall k ensures MarkValue(marks, g, k) == MarkValue(old(marks), g, k) {
          assert UserMark(v, k) == old(UserMark(v, k));
        }
        OverallGradeFrame(multimarkmethod, multimarkrounding, AllocatedTo(v), marks, old(marks), g);
      }
    }

    /** A student whose grade row and marks are kept keeps a recomputed grade. */
    twostate lemma StaysRecomputed(new v: UserId)
      requires old(Valid()) && Valid() && allocation == old(allocation)
      requires GradeIdOf(v) == old(GradeIdOf(v)) && GradeRowOf(v) == old(GradeRowOf(v))
      requires forall m :: UserMark(v, m) == old(UserMark(v, m))
      requires old(GradeRecomputed(v))
      ensures GradeRecomputed(v)
    {
      var g := userGrade[v];
      forall k ensures MarkValue(marks, g, k) == MarkValue(old(marks), g, k) {
        assert UserMark(v, k) == old(UserMark(v, k));
      }
      OverallGradeFrame(multimarkmethod, multimarkrounding, AllocatedTo(v), marks, old(marks), g);
    }

    /**
     * Writes `actor`'s mark on the grade of `u`, creating the grade row if needed; outside Manual
     * the grade of `u` is recomputed. Nobody else's grade row or marks change.
     */
    method MarkFor(actor: UserId, u: UserId, value: Option<real>, state: Option<WorkflowState>)
      requires Valid()
      modifies this`grades, this`userGrade, this`nextGradeId, this`marks, this`nextMarkId
      ensures Valid()
      ensures HasMark(u, actor, value, state)
      ensures multimarkmethod != Manual ==> GradeRecomputed(u)
      ensures u in old(userGrade) ==> GradeIdOf(u) == old(GradeIdOf(u))
      ensures forall v, m :: v != u ==> UserMark(v, m) == old(UserMark(v, m))
      ensures forall m :: m != actor ==> UserMark(u, m) == old(UserMark(u, m))
      ensures forall v :: v != u ==> GradeIdOf(v) == old(GradeIdOf(v)) && GradeRowOf(v) == old(GradeRowOf(v))
    {
      var g := GetUserGrade(u, true);
      OthersUnaffected(u, g.value);
      UpdateMark(g.value, actor, value, state);
    }

    /** Distinct students have distinct grade rows. */
    lemma OthersUnaffected(u: UserId, g: GradeId)
      requires Valid() && u in userGrade && userGrade[u] == g
      ensures forall v :: v in userGrade && v != u ==> userGrade[v] != g
    {
    }
  }

  // ---------------------------------------------------------------------------------------------
  // The scenarios of the marker allocation tests, run against the model
  // ---------------------------------------------------------------------------------------------

  /**
   * No marker is allocated at first, two after allocating two; no mark exists before a marker
   * marks; each marker's mark is found under that marker and kept apart from the other's.
   */
  method MultipleMarkerAllocation(t1: UserId, t2: UserId, s: UserId)
    returns (before: nat, after: nat, none: Option<Mark>, mark1: Option<real>, mark2: Option<real>, kept: Option<real>)
    requires t1 != t2
    ensures before == 0 && after == 2
    ensures none == None
    ensures mark1 == Some(99.0) && mark2 == Some(11.0) && kept == Some(99.0)
  {
    var a := new Assignment(Manual, RoundNone);
    var markers := a.GetAllocatedMarkers(s);
    before := |markers|;
    a.UpdateAllocatedMarkers(s, [t1, t2]);
    markers := a.GetAllocatedMarkers(s);
    after := |markers|;
    var g := a.GetUserGrade(s, true);
    none, mark1, mark2, kept := MarkAsTwoMarkers(a, g.value, t1, t2);
  }

  /** The marking half of the scenario above: no mark before marking, then 99 and 11 kept apart. */
  method MarkAsTwoMarkers(a: Assignment, id: GradeId, t1: UserId, t2: UserId)
    returns (none: Option<Mark>, mark1: Option<real>, mark2: Option<real>, kept: Option<real>)
    requires a.Valid() && id in a.grades && a.marks == map[] && t1 != t2
    modifies a`marks, a`nextMarkId, a`grades
    ensures none == None
    ensures mark1 == Some(99.0) && mark2 == Some(11.0) && kept == Some(99.0)
  {
    none := a.GetMark(id, t1, false);
    a.UpdateMark(id, t1, Some(99.0), None);
    var first := a.marks[(id, t1)];
    assert first.mark == Some(99.0);
    var m := a.GetMark(id, t1, false);
    mark1 := m.value.mark;
    a.UpdateMark(id, t2, Some(11.0), None);
    assert a.marks[(id, t1)] == first;
    m := a.GetMark(id, t2, false);
    mark2 := m.value.mark;
    m := a.GetMark(id, t1, false);
    kept := m.value.mark;
  }

  /**
   * Two allocated markers give marks `x` then `y`: Manual leaves the grade unset, First takes the
   * first allocated marker's mark, Max the larger one, Average the rounded mean.
   */
  method TwoMarkerGrade(mm: MultimarkMethod, rounding: Rounding, t1: UserId, t2: UserId, s: UserId, x: real, y: real)
    returns (grade: real)
    requires t1 != t2
    ensures mm == Manual ==> grade == Unset
    ensures mm == First ==> grade == x
    ensures mm == Max ==> grade == (if x >= y then x else y)
    ensures mm == Average ==> grade == Round(rounding, (x + y) / 2.0)
  {
    var a := new Assignment(mm, rounding);
    a.UpdateAllocatedMarkers(s, [t1, t2]);
    ghost var allocation := a.allocation;
    assert s in allocation && allocation[s] == [t1, t2];
    var g := a.GetUserGrade(s, true);
    var id := g.value;
    assert a.grades[id].grade == Unset;
    a.UpdateMark(id, t1, Some(x), None);
    var first := a.marks[(id, t1)];
    assert first.mark == Some(x);
    a.UpdateMark(id, t2, Some(y), None);
    var marks := a.marks;
    assert marks[(id, t1)] == first;
    grade := a.grades[id].grade;
    if mm != Manual {
      assert a.allocation == allocation;
      assert grade == OverallGrade(mm, rounding, [t1, t2], marks, id);
      assert MarkValue(marks, id, t1) == Some(x) && MarkValue(marks, id, t2) == Some(y);
      TwoMarkValues(marks, id, t1, t2);
      TwoMarksAggregate(mm, rounding, x, y);
      assert grade == Aggregate(mm, rounding, [Some(x), Some(y)]).value;
    }
  }

  /** The averages the rounding tests expect for marks 90 and 25. */
  lemma AverageOfNinetyAndTwentyFive()
    ensures Round(RoundNone, (90.0 + 25.0) / 2.0) == 57.5
    ensures Round(RoundDown, (90.0 + 25.0) / 2.0) == 57.0
    ensures Round(RoundUp, (90.0 + 25.0) / 2.0) == 58.0
    ensures Round(RoundNatural, (90.0 + 25.0) / 2.0) == 58.0
  {
  }

  /**
   * A marker who marked and is then replaced does not count: with one of the two allocated
   * markers marked, the overall grade stays unset under every computing method.
   */
  method UnallocatedMarkerNotCounted(mm: MultimarkMethod, rounding: Rounding,
                                     t1: UserId, t2: UserId, manager: UserId, s: UserId, x: real, y: real)
    returns (grade: real)
    requires t1 != t2 && manager != t1 && manager != t2
    ensures grade == Unset
  {
    var a := new Assignment(mm, rounding);
    a.UpdateAllocatedMarkers(s, [t1, t2]);
    var g := a.GetUserGrade(s, true);
    var id := g.value;
    assert (id, manager) !in a.marks;
    a.UpdateMark(id, t1, Some(x), None);
    assert (id, manager) !in a.marks;
    a.UpdateAllocatedMarkers(s, [manager, t2]);
    ghost var allocation := a.allocation;
    assert s in allocation && allocation[s] == [manager, t2];
    a.UpdateMark(id, t2, Some(y), None);
    assert (id, manager) !in a.marks;
    grade := a.grades[id].grade;
    if mm != Manual {
      assert a.allocation == allocation;
      assert grade == OverallGrade(mm, rounding, [manager, t2], a.marks, id);
      IncompleteMarksLeaveGradeUnset(mm, rounding, [manager, t2], a.marks, id, 0);
    }
  }

  /**
   * The overall workflow state starts empty, follows the only reporting marker into
   * "in marking", stays there while the other allocated marker has not reported, and becomes
   * "ready for review" once both are.
   */
  method WorkflowFollowsMarkers(t1: UserId, t2: UserId, s: UserId)
    returns (s0: Option<WorkflowState>, s1: Option<WorkflowState>, s2: Option<WorkflowState>, s3: Option<WorkflowState>)
    requires t1 != t2
    ensures s0 == None
    ensures s1 == Some(InMarking)
    ensures s2 == Some(InMarking)
    ensures s3 == Some(ReadyForReview)
  {
    var a := new Assignment(Manual, RoundNone);
    a.UpdateAllocatedMarkers(s, [t1, t2]);
    ghost var allocation := a.allocation;
    assert a.AllocatedTo(s) == [t1, t2];
    s0 := a.WorkflowStateOf(s);
    var g := a.GetUserGrade(s, true);
    var id := g.value;
    assert MarkState(a.marks, id, t2) == None;
    s1 := MarkAndCombine(a, id, s, t1, None, Some(InMarking), s0);
    assert a.allocation == allocation;
    TwoStates(a.marks, id, t1, t2);
    CombineTwo(InMarking, None, s0);
    assert s1 == Some(InMarking);
    s2 := MarkAndCombine(a, id, s, t1, Some(90.0), Some(ReadyForReview), s1);
    assert a.allocation == allocation;
    TwoStates(a.marks, id, t1, t2);
    CombineTwo(ReadyForReview, None, s1);
    assert s2 == Some(InMarking);
    s3 := MarkAndCombine(a, id, s, t2, Some(70.0), Some(ReadyForReview), s2);
    assert a.allocation == allocation;
    TwoStates(a.marks, id, t1, t2);
    CombineTwo(ReadyForReview, Some(ReadyForReview), s2);
  }

  /** One marking step of the workflow test: update_mark, then the overall state recalculation. */
  method MarkAndCombine(a: Assignment, id: GradeId, s: UserId, marker: UserId, value: Option<real>,
                        state: Option<WorkflowState>, current: Option<WorkflowState>)
    returns (overall: Option<WorkflowState>)
    requires a.Valid() && id in a.grades && a.grades[id].userid == s
    modifies a
    ensures a.Valid() && id in a.grades && a.grades[id].userid == s
    ensures a.allocation == old(a.allocation)
    ensures MarkState(a.marks, id, marker) == state
    ensures forall m :: m != marker ==> MarkState(a.marks, id, m) == MarkState(old(a.marks), id, m)
    ensures overall == CombineStates(MarkerStates(a.AllocatedTo(s), a.marks, id), current)
  {
    a.UpdateMark(id, marker, value, state);
    a.CalculateAndSaveOverallWorkflowState(id, current);
    overall := a.WorkflowStateOf(s);
  }

  lemma TwoStates(marks: map<(GradeId, UserId), Mark>, g: GradeId, t1: UserId, t2: UserId)
    ensures MarkerStates([t1, t2], marks, g) == [MarkState(marks, g, t1), MarkState(marks, g, t2)]
  {
  }

  /** Two allocated markers, the first of whom has reported a state. */
  lemma CombineTwo(p: WorkflowState, q: Option<WorkflowState>, current: Option<WorkflowState>)
    ensures CombineStates([Some(p), q], current)
         == Some(if Rank(p) <= Rank(Effective(q)) then p else Effective(q))
  {
    var states := [Some(p), q];
    assert states[0].Some?;
    assert states[1..] == [q];
  }

  /**
   * Team grading with "apply to all": the mark of the marker allocated to every member of the
   * team reaches every member.
   */
  method TeamMarksReachAllocatedMembers(t: UserId, a1: UserId, a2: UserId, a3: UserId)
    returns (marks: seq<Option<real>>)
    requires a1 != a2 && a1 != a3 && a2 != a3
    ensures marks == [Some(50.0), Some(50.0), Some(50.0)]
  {
    var a := new Assignment(Manual, RoundNone);
    a.UpdateAllocatedMarkers(a1, [t]);
    a.UpdateAllocatedMarkers(a2, [t]);
    a.UpdateAllocatedMarkers(a3, [t]);
    a.SaveGrade(t, a1, Some(50.0), None, true, [a1, a2, a3]);
    assert a.Targeted(t, a1, true, [a1, a2, a3], a2) && a.Targeted(t, a1, true, [a1, a2, a3], a3);
    marks := [a.UserMark(a1, t).value.mark, a.UserMark(a2, t).value.mark, a.UserMark(a3, t).value.mark];
  }

  /**
   * Team grading with "apply to all" where the marker is allocated to only two of the three
   * members: those two get the mark, and the third has no mark row of that marker.
   */
  method TeamMarksSkipUnallocatedMember(t: UserId, b1: UserId, b2: UserId, b3: UserId)
    returns (marks: seq<Option<real>>, last: Option<Mark>)
    requires b1 != b2 && b1 != b3 && b2 != b3
    ensures marks == [Some(99.0), Some(99.0)]
    ensures last == None
  {
    var a := new Assignment(Manual, RoundNone);
    a.UpdateAllocatedMarkers(b1, [t]);
    a.UpdateAllocatedMarkers(b2, [t]);
    a.SaveGrade(t, b1, Some(99.0), None, true, [b1, b2, b3]);
    assert a.Targeted(t, b1, true, [b1, b2, b3], b2) && !a.Targeted(t, b1, true, [b1, b2, b3], b3);
    marks := [a.UserMark(b1, t).value.mark, a.UserMark(b2, t).value.mark];
    var g := a.GetUserGrade(b3, true);
    last := a.GetMark(g.value, t, false);
  }
}
