// Which PHP version each job of the matrix runs on: the release line's PHP
// list, narrowed by the module's composer.json "php" constraint, spread over
// the job slots.
module PhpResolution {
  import opened Util
  import opened Lines
  import opened Catalog
  import opened Constraints

  predicate AnyKept(u: seq<PhpVersion>, c: Constraint) {
    exists k :: 0 <= k < |u| && Sat(u[k], c)
  }

  /** The highest index at or below `j` whose version the constraint admits. */
  function LastKeptAtOrBelow(u: seq<PhpVersion>, c: Constraint, j: int): (r: Option<nat>)
    requires -1 <= j < |u|
    ensures r.Some? ==> r.value <= j && Sat(u[r.value], c)
    ensures r.Some? ==> forall k :: r.value < k <= j ==> !Sat(u[k], c)
    ensures r.None? ==> forall k :: 0 <= k <= j ==> !Sat(u[k], c)
    decreases j + 1
  {
    if j < 0 then None
    else if Sat(u[j], c) then Some(j)
    else LastKeptAtOrBelow(u, c, j - 1)
  }

  /** The lowest index from `j` on whose version the constraint admits. */
  function FirstKeptFrom(u: seq<PhpVersion>, c: Constraint, j: nat): (r: Option<nat>)
    requires j <= |u|
    ensures r.Some? ==> j <= r.value < |u| && Sat(u[r.value], c)
    ensures r.Some? ==> forall k :: j <= k < r.value ==> !Sat(u[k], c)
    ensures r.None? ==> forall k :: j <= k < |u| ==> !Sat(u[k], c)
    decreases |u| - j
  {
    if j == |u| then None
    else if Sat(u[j], c) then Some(j)
    else FirstKeptFrom(u, c, j + 1)
  }

  /**
   * The list keeps its positions when the constraint drops versions: position
   * `i` (past the end: the last one) takes the highest admitted version at or
   * below it, or, when there is none, the lowest admitted version.
   */
  function PickIndex(u: seq<PhpVersion>, c: Constraint, i: nat): (r: nat)
    requires AnyKept(u, c)
    ensures r < |u| && Sat(u[r], c)
    ensures r <= i ==> forall k :: r < k <= i && k < |u| ==> !Sat(u[k], c)
    ensures r > i ==> forall k :: 0 <= k < r ==> !Sat(u[k], c)
  {
    var top := if i < |u| then i else |u| - 1;
    var below := LastKeptAtOrBelow(u, c, top);
    if below.Some? then below.value else FirstKeptFrom(u, c, 0).value
  }

  /** With fewer than three versions every slot after the first moves down one. */
  function SlotIndex(n: nat, k: nat): (r: nat)
    ensures r <= k && k <= r + 1
    ensures r == k <==> n >= 3 || k == 0
  {
    if n < 3 && k > 0 then k - 1 else k
  }

  /**
   * What the PHP choice of a build rests on: the versions to choose from, the
   * constraint narrowing them, and whether the line is of the lowest major.
   */
  datatype Plan = Plan(universe: seq<PhpVersion>, constraint: Constraint, lowest: bool)

  predicate ValidPlan(p: Plan) {
    |p.universe| > 0 && Ascending(p.universe) && AnyKept(p.universe, p.constraint)
  }

  /** The PHP version of job slot `k`. */
  function PhpAt(p: Plan, k: nat): (v: PhpVersion)
    requires ValidPlan(p)
    ensures v in p.universe && Sat(v, p.constraint)
  {
    p.universe[PickIndex(p.universe, p.constraint, SlotIndex(|p.universe|, k))]
  }

  /** The PHP versions of the first `n` slots. */
  function Slots(p: Plan, n: nat): (s: seq<PhpVersion>)
    requires ValidPlan(p)
    ensures |s| == n
    ensures forall k :: 0 <= k < n ==> s[k] == PhpAt(p, k)
  {
    seq(n, k requires 0 <= k < n => PhpAt(p, k))
  }

  /** The versions the constraint admits, in order. */
  function Filter(u: seq<PhpVersion>, c: Constraint): (f: seq<PhpVersion>)
    ensures forall v :: v in f <==> v in u && Sat(v, c)
    ensures Ascending(u) ==> Ascending(f)
  {
    if |u| == 0 then []
    else
      var rest := Filter(u[1..], c);
      assert forall v :: v in u <==> v == u[0] || v in u[1..];
      assert Ascending(u) ==> forall v :: v in rest ==> PhpLt(u[0], v);
      (if Sat(u[0], c) then [u[0]] else []) + rest
  }

  const UnparseableConstraint: string := "Could not parse the php constraint of composer.json"
  const UnsatisfiableConstraint: string := "No supported PHP version satisfies the php constraint of composer.json"

  /** The constraint in force: a module that declares none admits every version. */
  function ConstraintOf(text: Option<string>): Option<Constraint> {
    if text.None? then Some(Unconstrained) else ParseConstraint(text.value)
  }

  /** Some major above the lowest supports a PHP version the constraint admits. */
  predicate HigherMajorAdmits(cat: Catalog, c: Constraint) {
    exists r, v :: r in cat.releases && v in r.php && r.line.major > cat.lowestMajor && Sat(v, c)
  }

  /**
   * The plan of a build placed on line `l`: that line's list, narrowed by
   * the constraint with every position kept; no admitted version fails.
   */
  function PlanOnLine(cat: Catalog, l: Line, c: Constraint): (r: Result<Plan>)
    requires WellFormed(cat)
    ensures r.Ok? <==> exists v :: v in PhpFor(cat, l) && Sat(v, c)
    ensures r.Err? ==> r.msg == UnsatisfiableConstraint
    ensures r.Ok? ==> r.value.universe == PhpFor(cat, l) && r.value.constraint == c
    ensures r.Ok? ==> (r.value.lowest <==> l.major == cat.lowestMajor)
    ensures r.Ok? ==> ValidPlan(r.value)
  {
    var u := PhpFor(cat, l);
    assert AnyKept(u, c) <==> exists v :: v in u && Sat(v, c);
    if AnyKept(u, c) then Ok(Plan(u, c, l.major == cat.lowestMajor))
    else Err(UnsatisfiableConstraint)
  }

  /**
   * The plan of a module placed on no line that declares constraint `c`:
   * every supported version `c` admits, in order, all of them kept; the
   * lowest major's layout only when no higher major supports one of them.
   */
  function PlanUnplaced(cat: Catalog, c: Constraint): (r: Result<Plan>)
    requires WellFormed(cat)
    ensures r.Ok? <==> exists v :: v in cat.allPhp && Sat(v, c)
    ensures r.Err? ==> r.msg == UnsatisfiableConstraint
    ensures r.Ok? ==> r.value == Plan(Filter(cat.allPhp, c), Unconstrained, !HigherMajorAdmits(cat, c))
    ensures r.Ok? ==> ValidPlan(r.value)
  {
    var f := Filter(cat.allPhp, c);
    assert |f| > 0 ==> f[0] in f;
    if |f| == 0 then Err(UnsatisfiableConstraint)
    else
      assert Sat(f[0], Unconstrained) by { SatUnconstrained(f[0]); }
      Ok(Plan(f, Unconstrained, !HigherMajorAdmits(cat, c)))
  }

  /**
   * The PHP plan of a build. A known release line chooses from its own list,
   * keeping positions; a module placed on no line chooses from the lowest
   * major's list when it declares no constraint, and otherwise from every
   * supported PHP version the constraint admits, closed up. A constraint that
   * cannot be parsed, or that admits no candidate, fails the build.
   */
  function ResolvePlan(cat: Catalog, line: Option<Line>, text: Option<string>): (r: Result<Plan>)
    requires WellFormed(cat)
    ensures ConstraintOf(text).None? ==> r == Err(UnparseableConstraint)
    ensures r.Ok? ==> ValidPlan(r.value)
    ensures r.Ok? ==> forall k: nat :: Sat(PhpAt(r.value, k), ConstraintOf(text).value)
    ensures r.Ok? ==> forall k: nat :: PhpAt(r.value, k) in cat.allPhp
    // on a known line: that line's list, narrowed by the constraint
    ensures line.Some? && ConstraintOf(text).Some? ==>
      var c := ConstraintOf(text).value;
      && (r.Ok? <==> exists v :: v in PhpFor(cat, line.value) && Sat(v, c))
      && (r.Err? ==> r.msg == UnsatisfiableConstraint)
      && (r.Ok? ==> r.value == Plan(PhpFor(cat, line.value), c, line.value.major == cat.lowestMajor))
    // on no line and with nothing to narrow by: the lowest major's list
    ensures line.None? && ConstraintOf(text) == Some(Unconstrained) ==>
      r == Ok(Plan(PhpFor(cat, Line(cat.lowestMajor, None)), Unconstrained, true))
    // on no line with a constraint: every supported version it admits
    ensures line.None? && ConstraintOf(text).Some? && ConstraintOf(text).value != Unconstrained ==>
      var c := ConstraintOf(text).value;
      && (r.Ok? <==> exists v :: v in cat.allPhp && Sat(v, c))
      && (r.Err? ==> r.msg == UnsatisfiableConstraint)
      && (r.Ok? ==> r.value == Plan(Filter(cat.allPhp, c), Unconstrained, !HigherMajorAdmits(cat, c)))
  {
    var parsed := ConstraintOf(text);
    if parsed.None? then Err(UnparseableConstraint)
    else
      var c := parsed.value;
      if line.Some? then PlanOnLine(cat, line.value, c)
      else if c == Unconstrained then
        var u := PhpFor(cat, Line(cat.lowestMajor, None));
        assert u[0] in u && Sat(u[0], c) by { SatUnconstrained(u[0]); }
        PlanOnLine(cat, Line(cat.lowestMajor, None), c)
      else PlanUnplaced(cat, c)
  }

  /** A list whose every version is admitted passes the filter whole. */
  lemma {:induction false} FilterAll(u: seq<PhpVersion>, c: Constraint)
    requires forall i :: 0 <= i < |u| ==> Sat(u[i], c)
    ensures Filter(u, c) == u
    decreases |u|
  {
    if |u| > 0 {
      var t := u[1..];
      assert Sat(u[0], c);
      assert forall i :: 0 <= i < |t| ==> Sat(t[i], c) by {
        forall i | 0 <= i < |t| ensures Sat(t[i], c) { assert t[i] == u[i + 1]; }
      }
      FilterAll(t, c);
      assert Filter(u, c) == [u[0]] + t;
    }
  }

  /** Over a list whose admitted versions are exactly those from `j` on, the filter keeps that suffix. */
  lemma {:induction false} FilterSuffix(u: seq<PhpVersion>, c: Constraint, j: nat)
    requires j <= |u|
    requires forall i :: 0 <= i < |u| ==> (Sat(u[i], c) <==> j <= i)
    ensures Filter(u, c) == u[j..]
    decreases j
  {
    if j == 0 {
      FilterAll(u, c);
    } else {
      var t := u[1..];
      assert !Sat(u[0], c);
      assert Filter(u, c) == Filter(t, c);
      assert forall i :: 0 <= i < |t| ==> (Sat(t[i], c) <==> j - 1 <= i) by {
        forall i | 0 <= i < |t| ensures Sat(t[i], c) <==> j - 1 <= i { assert t[i] == u[i + 1]; }
      }
      FilterSuffix(t, c, j - 1);
      assert t[j - 1..] == u[j..];
    }
  }

  // ---------------------------------------------------------------------------
  // Properties of the choice

  /** An admitted version keeps its own slot. */
  lemma PickKept(u: seq<PhpVersion>, c: Constraint, i: nat)
    requires i < |u| && Sat(u[i], c)
    ensures PickIndex(u, c, i) == i
  {
  }

  /** Later positions never pick an earlier index. */
  lemma PickMonotone(u: seq<PhpVersion>, c: Constraint, i: nat, j: nat)
    requires AnyKept(u, c) && i <= j
    ensures PickIndex(u, c, i) <= PickIndex(u, c, j)
  {
  }

  /** Over an ascending list, later slots never run an older PHP version. */
  lemma PhpAtMonotone(p: Plan, k: nat, m: nat)
    requires ValidPlan(p) && k <= m
    ensures PhpAt(p, k) == PhpAt(p, m) || PhpLt(PhpAt(p, k), PhpAt(p, m))
  {
    var n := |p.universe|;
    PickMonotone(p.universe, p.constraint, SlotIndex(n, k), SlotIndex(n, m));
  }

  // ---------------------------------------------------------------------------
  // The spreads the test tables expect, over a line with three versions

  /** Every version admitted: [v0, v1, v2, v2]. */
  lemma SpreadAll(p: Plan)
    requires |p.universe| == 3 && Ascending(p.universe)
    requires forall k :: 0 <= k < 3 ==> Sat(p.universe[k], p.constraint)
    ensures ValidPlan(p)
    ensures Slots(p, 4) == [p.universe[0], p.universe[1], p.universe[2], p.universe[2]]
  {
    assert Sat(p.universe[0], p.constraint);
    PickKept(p.universe, p.constraint, 0);
    PickKept(p.universe, p.constraint, 1);
    PickKept(p.universe, p.constraint, 2);
  }

  /** The lowest version dropped: [v1, v1, v2, v2]. */
  lemma SpreadWithoutLowest(p: Plan)
    requires |p.universe| == 3 && Ascending(p.universe)
    requires !Sat(p.universe[0], p.constraint)
    requires Sat(p.universe[1], p.constraint) && Sat(p.universe[2], p.constraint)
    ensures ValidPlan(p)
    ensures Slots(p, 4) == [p.universe[1], p.universe[1], p.universe[2], p.universe[2]]
  {
    PickKept(p.universe, p.constraint, 1);
    PickKept(p.universe, p.constraint, 2);
  }

  /** The highest version dropped: [v0, v1, v1, v1]. */
  lemma SpreadWithoutHighest(p: Plan)
    requires |p.universe| == 3 && Ascending(p.universe)
    requires Sat(p.universe[0], p.constraint) && Sat(p.universe[1], p.constraint)
    requires !Sat(p.universe[2], p.constraint)
    ensures ValidPlan(p)
    ensures Slots(p, 4) == [p.universe[0], p.universe[1], p.universe[1], p.universe[1]]
  {
    PickKept(p.universe, p.constraint, 0);
    PickKept(p.universe, p.constraint, 1);
  }

  /** Only the middle version admitted: it fills every slot. */
  lemma SpreadOnlyMiddle(p: Plan)
    requires |p.universe| == 3 && Ascending(p.universe)
    requires !Sat(p.universe[0], p.constraint) && Sat(p.universe[1], p.constraint)
    requires !Sat(p.universe[2], p.constraint)
    ensures ValidPlan(p)
    ensures Slots(p, 4) == [p.universe[1], p.universe[1], p.universe[1], p.universe[1]]
  {
    PickKept(p.universe, p.constraint, 1);
  }

  /** A line with two versions: [v0, v0, v1, v1]. */
  lemma SpreadTwo(p: Plan)
    requires |p.universe| == 2 && Ascending(p.universe)
    requires Sat(p.universe[0], p.constraint) && Sat(p.universe[1], p.constraint)
    ensures ValidPlan(p)
    ensures Slots(p, 4) == [p.universe[0], p.universe[0], p.universe[1], p.universe[1]]
  {
    PickKept(p.universe, p.constraint, 0);
    PickKept(p.universe, p.constraint, 1);
  }
}
