/**
 * The stages a transform can apply to a coordinate, and what running a sequence of them
 * does. Each stage except ClearZ is performed by a collaborator whose numerics are not
 * modelled; a collaborator that throws is a stage that yields no value, and a run stops
 * at the first such stage.
 */
module Pipeline {
  import opened Options
  import opened Coordinates
  import opened Datums

  /** One stage of the per-point procedure; the comment names who performs it. */
  datatype Step =
    | ToEnu                              // source axis order: native axes to east-north-up
    | InverseProject                     // source projection: planar to geographic radians
    | ToGreenwich                        // source prime meridian to Greenwich
    | ClearZ                             // the coordinate buffer drops its height
    | Shift                              // source datum: forward grid shift
    | ToGeocentric(conv: ConverterParams) // source geocentric converter: geodetic to geocentric
    | SourceToWgs84                      // source datum: geocentric into WGS84
    | Wgs84ToTarget                      // target datum: WGS84 into its own geocentric frame
    | ToGeodetic(conv: ConverterParams)   // target geocentric converter: geocentric to geodetic
    | InverseShift                       // target datum: inverse grid shift
    | FromGreenwich                      // target prime meridian from Greenwich
    | Project                            // target projection: geographic radians to planar
    | FromEnu                            // target axis order: east-north-up to native axes

  /** The behaviour of every collaborator: the new value, or None when the call throws. */
  type Collaborators = (Step, Coord) -> Option<Coord>

  /** Stages of the datum sub-procedure. */
  predicate IsDatumStage(st: Step)
  {
    st.Shift? || st.ToGeocentric? || st.SourceToWgs84? || st.Wgs84ToTarget? ||
    st.ToGeodetic? || st.InverseShift?
  }

  /** Position of each stage in the fixed order of the pipeline. */
  function Rank(st: Step): nat
  {
    match st
    case ToEnu => 0
    case InverseProject => 1
    case ToGreenwich => 2
    case ClearZ => 3
    case Shift => 4
    case ToGeocentric(_) => 5
    case SourceToWgs84 => 6
    case Wgs84ToTarget => 7
    case ToGeodetic(_) => 8
    case InverseShift => 9
    case FromGreenwich => 10
    case Project => 11
    case FromEnu => 12
  }

  /** Stages listed strictly in pipeline order (so also without repetition). */
  predicate RankSorted(p: seq<Step>)
  {
    forall i, j :: 0 <= i < j < |p| ==> Rank(p[i]) < Rank(p[j])
  }

  lemma HeadIsMember(p: seq<Step>)
    ensures p != [] ==> p[0] in p
  {
  }

  lemma SortedTail(a: seq<Step>)
    requires a != [] && RankSorted(a)
    ensures RankSorted(a[1..])
    ensures forall st :: st in a[1..] ==> Rank(a[0]) < Rank(st)
  {
    forall st | st in a[1..]
      ensures Rank(a[0]) < Rank(st)
    {
      var i :| 0 <= i < |a[1..]| && a[1..][i] == st;
      assert a[i + 1] == st;
    }
  }

  lemma SortedHeadsAgree(a: seq<Step>, b: seq<Step>)
    requires a != [] && b != [] && RankSorted(a) && RankSorted(b)
    requires forall st :: st in a <==> st in b
    ensures a[0] == b[0]
  {
    assert a[0] in a && b[0] in b;
    var k :| 0 <= k < |b| && b[k] == a[0];
    var m :| 0 <= m < |a| && a[m] == b[0];
    assert Rank(b[0]) <= Rank(b[k]);
    assert Rank(a[0]) <= Rank(a[m]);
  }

  lemma SortedTailsAgree(a: seq<Step>, b: seq<Step>)
    requires a != [] && b != [] && RankSorted(a) && RankSorted(b) && a[0] == b[0]
    requires forall st :: st in a <==> st in b
    ensures RankSorted(a[1..]) && RankSorted(b[1..])
    ensures forall st :: st in a[1..] <==> st in b[1..]
  {
    SortedTail(a);
    SortedTail(b);
    forall st
      ensures st in a[1..] <==> st in b[1..]
    {
      if st in a[1..] {
        assert st in a && st != b[0];
        var i :| 0 <= i < |b| && b[i] == st;
        assert b[1..][i - 1] == st;
      }
      if st in b[1..] {
        assert st in b && st != a[0];
        var i :| 0 <= i < |a| && a[i] == st;
        assert a[1..][i - 1] == st;
      }
    }
  }

  /** Two lists in strict pipeline order that hold the same stages are the same list. */
  lemma {:induction false} RankSortedUnique(a: seq<Step>, b: seq<Step>)
    requires RankSorted(a) && RankSorted(b)
    requires forall st :: st in a <==> st in b
    ensures a == b
    decreases |a|
  {
    if a == [] || b == [] {
      HeadIsMember(a);
      HeadIsMember(b);
    } else {
      SortedHeadsAgree(a, b);
      SortedTailsAgree(a, b);
      RankSortedUnique(a[1..], b[1..]);
      assert a == [a[0]] + a[1..] && b == [b[0]] + b[1..];
    }
  }

  /** The effect of one stage on one value. */
  function Exec(st: Step, c: Coord, env: Collaborators): Option<Coord>
  {
    if st.ClearZ? then Some(c.(z := NoHeight)) else env(st, c)
  }

  /** How a run ends: every stage done, or stopped at the stage that failed. */
  datatype RunResult = Completed(value: Coord) | Aborted(value: Coord, failed: Step)

  /** Applies `steps` in order to `c`, stopping at the first stage that fails. */
  function Run(steps: seq<Step>, c: Coord, env: Collaborators): RunResult
    decreases |steps|
  {
    if steps == [] then Completed(c)
    else
      match Exec(steps[0], c, env)
      case None => Aborted(c, steps[0])
      case Some(c') => Run(steps[1..], c', env)
  }

  /** Continues a run with `rest` if it has not been aborted. */
  function Then(r: RunResult, rest: seq<Step>, env: Collaborators): RunResult
  {
    match r
    case Completed(v) => Run(rest, v, env)
    case Aborted(_, _) => r
  }

  /** The run result that an executing method reports through its buffer and failure flag. */
  function Status(v: Coord, failure: Option<Step>): RunResult
  {
    match failure
    case None => Completed(v)
    case Some(st) => Aborted(v, st)
  }

  /** Running two sequences one after the other is running their concatenation. */
  lemma {:induction false} RunAppend(a: seq<Step>, b: seq<Step>, c: Coord, env: Collaborators)
    ensures Run(a + b, c, env) == Then(Run(a, c, env), b, env)
    decreases |a|
  {
    if a == [] {
      assert a + b == b;
    } else {
      assert (a + b)[0] == a[0];
      assert (a + b)[1..] == a[1..] + b;
      match Exec(a[0], c, env)
      case None =>
      case Some(c') => RunAppend(a[1..], b, c', env);
    }
  }

  /**
   * An aborted run stopped at the stage that failed: every stage before it succeeded and
   * left the reported value, and none after it ran.
   */
  lemma {:induction false} AbortedRunStopsAtFailure(steps: seq<Step>, c: Coord, env: Collaborators)
    requires Run(steps, c, env).Aborted?
    ensures var r := Run(steps, c, env);
      exists k :: 0 <= k < |steps| && steps[k] == r.failed &&
        Run(steps[..k], c, env) == Completed(r.value) && Exec(steps[k], r.value, env) == None
    decreases |steps|
  {
    var r := Run(steps, c, env);
    match Exec(steps[0], c, env)
    case None =>
      assert steps[..0] == [];
      assert steps[0] == r.failed && Run(steps[..0], c, env) == Completed(r.value);
    case Some(c') =>
      AbortedRunStopsAtFailure(steps[1..], c', env);
      var k :| 0 <= k < |steps[1..]| && steps[1..][k] == r.failed &&
        Run(steps[1..][..k], c', env) == Completed(r.value) && Exec(steps[1..][k], r.value, env) == None;
      assert steps[..k + 1][1..] == steps[1..][..k];
      assert steps[k + 1] == r.failed;
  }

  /**
   * Performs one stage on the buffer unless an earlier stage has already failed (the model of
   * an exception that skips every later call). `done` is the ghost list of stages attempted so far.
   */
  method Perform(pt: ProjCoordinate, st: Step, env: Collaborators, failure: Option<Step>,
                 ghost done: seq<Step>, ghost start: Coord)
    returns (failure': Option<Step>)
    requires Run(done, start, env) == Status(pt.Value(), failure)
    modifies pt
    ensures Run(done + [st], start, env) == Status(pt.Value(), failure')
  {
    RunAppend(done, [st], start, env);
    ghost var before := pt.Value();
    assert [st][1..] == [];
    if failure.Some? {
      failure' := failure;
    } else if st.ClearZ? {
      pt.ClearZ();
      failure' := None;
      assert Run([st], before, env) == Run([], pt.Value(), env);
    } else {
      match env(st, pt.Value())
      case None =>
        failure' := Some(st);
      case Some(c) =>
        pt.Store(c);
        failure' := None;
        assert Run([st], before, env) == Run([], c, env);
    }
  }
}
