/**
 * Machine motions and cut phases (petrify/machine/motion.py): a motion's
 * optional coordinates and feed, merging motions, translating them, their
 * G-code line, the command sequences of the cut phases, and the time a cut
 * takes.
 */
module Motion {
  import opened Wrappers
  import PlanePoint
  import StlText
  import Commands

  type V2 = PlanePoint.V2

  /** `Motion(x=None, y=None, z=None, f=None)`. */
  datatype Motion = Motion(x: Option<real>, y: Option<real>, z: Option<real>, f: Option<real>)

  /** Python truthiness of an optional number: set and nonzero. */
  predicate Truthy(o: Option<real>) {
    o.Some? && o.value != 0.0
  }

  /** `a or b`. */
  function Or(a: Option<real>, b: Option<real>): Option<real> {
    if Truthy(a) then a else b
  }

  /** `a if a is not None else b`. */
  function Given(a: Option<real>, b: Option<real>): Option<real> {
    if a.Some? then a else b
  }

  // ---------------------------------------------------------------------
  // Merging

  /** `m.merge(other)` as written: a field of `other` wins only when truthy. */
  function Merge(m: Motion, other: Motion): (r: Motion)
    ensures Truthy(other.x) ==> r.x == other.x
    ensures !Truthy(other.x) ==> r.x == m.x
    ensures Truthy(other.y) ==> r.y == other.y
    ensures !Truthy(other.y) ==> r.y == m.y
    ensures Truthy(other.z) ==> r.z == other.z
    ensures !Truthy(other.z) ==> r.z == m.z
    ensures Truthy(other.f) ==> r.f == other.f
    ensures !Truthy(other.f) ==> r.f == m.f
  {
    Motion(Or(other.x, m.x), Or(other.y, m.y), Or(other.z, m.z), Or(other.f, m.f))
  }

  /** `merge` as evidently intended: a field of `other` wins whenever it is given. */
  function MergeCorrected(m: Motion, other: Motion): Motion {
    Motion(Given(other.x, m.x), Given(other.y, m.y), Given(other.z, m.z), Given(other.f, m.f))
  }

  /** No field set. */
  const Empty := Motion(None, None, None, None)

  // ---------------------------------------------------------------------
  // Translation

  /** The motion `__add__` merges in: x and y moved where they are set, nothing else. */
  function Moved(m: Motion, v: V2): Motion {
    Motion(
      if m.x.Some? then Some(m.x.value + v.x) else None,
      if m.y.Some? then Some(m.y.value + v.y) else None,
      None, None)
  }

  /**
   * `m + v` for a planar vector, with the merge as written: x and y move
   * where they are set, except that a coordinate moved onto zero keeps its
   * old value; z and f stay.
   */
  function Shift(m: Motion, v: V2): (r: Motion)
    ensures r.z == m.z && r.f == m.f
    ensures r.x.Some? <==> m.x.Some?
    ensures r.y.Some? <==> m.y.Some?
    ensures m.x.Some? ==> r.x.value == if m.x.value + v.x != 0.0 then m.x.value + v.x else m.x.value
    ensures m.y.Some? ==> r.y.value == if m.y.value + v.y != 0.0 then m.y.value + v.y else m.y.value
  {
    Merge(m, Moved(m, v))
  }

  /** `m + v`: NotImplemented (None) unless v is a planar vector or point. */
  function Add(m: Motion, v: PlanePoint.Operand): (r: Option<Motion>)
    ensures r.Some? <==> v.Planar?
  {
    if v.Planar? then Some(Shift(m, v.v)) else None
  }

  /** `m + v` with the corrected merge: x and y move wherever they are set. */
  function ShiftCorrected(m: Motion, v: V2): (r: Motion)
    ensures r.z == m.z && r.f == m.f
    ensures r.x.Some? <==> m.x.Some?
    ensures r.y.Some? <==> m.y.Some?
    ensures m.x.Some? ==> r.x.value == m.x.value + v.x
    ensures m.y.Some? ==> r.y.value == m.y.value + v.y
  {
    MergeCorrected(m, Moved(m, v))
  }

  // ---------------------------------------------------------------------
  // G-code

  /** The words of `gcode()`: "G01", then X, Y and Z where truthy, then F. */
  function GcodeWords(m: Motion, show: real -> string): seq<string>
    requires m.f.Some?
  {
    ["G01"] + TaggedWords('X', m.x, show) + TaggedWords('Y', m.y, show) + TaggedWords('Z', m.z, show) +
    ["F" + show(m.f.value)]
  }

  /** `'X{0}'.format(x)` when x is truthy, nothing otherwise. */
  function TaggedWords(tag: char, o: Option<real>, show: real -> string): seq<string> {
    if Truthy(o) then [[tag] + show(o.value)] else []
  }

  /**
   * `m.gcode()`, with `show` standing for `'{0}'.format` on a number; None
   * is the AssertionError of a motion without a feed.
   */
  function Gcode(m: Motion, show: real -> string): (r: Option<string>)
    ensures r.Some? <==> m.f.Some?
  {
    if m.f.None? then None else Some(StlText.Join(GcodeWords(m, show)))
  }

  // ---------------------------------------------------------------------
  // Commands and phases

  /** A command: a motion or a literal G-code line. */
  datatype Cmd = Move(m: Motion) | Code(g: Commands.GCode)

  /** `command + v` inside a moved batch, with the merge as written. */
  function ShiftCmd(c: Cmd, v: V2): Cmd {
    match c
    case Move(m) => Move(Shift(m, v))
    case Code(g) => Code(Commands.Translate(g, PlanePoint.Planar(v)).value)
  }

  /** A toolpath pass: its first point and the rest (the path is never empty). */
  datatype Pass = Pass(start: V2, rest: seq<V2>)

  /**
   * The configuration `CutSteps` reads, already in the machine's units: the
   * clearance height and the z and xy feed rates.
   */
  datatype Config = Config(clearance: real, feedZ: real, feedXY: real)

  /** A cut. */
  datatype Phase =
    | Annotated(inner: Phase, props: map<string, string>)
    | Steps(passes: seq<Pass>, steps: seq<real>, config: Config)
    | BatchOf(phases: seq<Phase>)
    | MovedBatchOf(phases: seq<Phase>, translate: V2)
    | ToolChangeOf(number: int)
    | PauseOf(message: string)

  /** `cut.props(**props)`. */
  function Props(cut: Phase, props: map<string, string>): Phase {
    Annotated(cut, props)
  }

  /** The motions of one pass at one step depth. */
  function PassMoves(p: Pass, step: real, c: Config): (r: seq<Motion>)
    ensures |r| == |p.rest| + 4
  {
    [Motion(None, None, Some(c.clearance), Some(c.feedZ)),
     Motion(Some(p.start.x), Some(p.start.y), None, Some(c.feedXY)),
     Motion(None, None, Some(step), Some(c.feedZ))] +
    seq(|p.rest|, i requires 0 <= i < |p.rest| => Motion(Some(p.rest[i].x), Some(p.rest[i].y), None, Some(c.feedXY))) +
    [Motion(None, None, Some(c.clearance), Some(c.feedZ))]
  }

  /** Every pass at one step depth. */
  function StepMoves(passes: seq<Pass>, step: real, c: Config): seq<Motion> {
    if passes == [] then [] else PassMoves(passes[0], step, c) + StepMoves(passes[1..], step, c)
  }

  /** Every step depth in turn. */
  function StepsMoves(passes: seq<Pass>, steps: seq<real>, c: Config): seq<Motion> {
    if steps == [] then [] else StepMoves(passes, steps[0], c) + StepsMoves(passes, steps[1..], c)
  }

  /** Each command paired with the same parent. */
  function Label(parent: Phase, cmds: seq<Cmd>): (r: seq<(Phase, Cmd)>)
    ensures |r| == |cmds|
    ensures forall i :: 0 <= i < |r| ==> r[i] == (parent, cmds[i])
  {
    seq(|cmds|, i requires 0 <= i < |cmds| => (parent, cmds[i]))
  }

  function Moves(ms: seq<Motion>): (r: seq<Cmd>)
    ensures |r| == |ms|
    ensures forall i :: 0 <= i < |r| ==> r[i] == Move(ms[i])
  {
    seq(|ms|, i requires 0 <= i < |ms| => Move(ms[i]))
  }

  /** The commands of `cs`, relabelled with a new parent. */
  function Relabel(parent: Phase, cs: seq<(Phase, Cmd)>): (r: seq<(Phase, Cmd)>)
    ensures |r| == |cs|
    ensures forall i :: 0 <= i < |r| ==> r[i] == (parent, cs[i].1)
  {
    seq(|cs|, i requires 0 <= i < |cs| => (parent, cs[i].1))
  }

  /** The commands of `cs`, each translated by v, parents kept. */
  function ShiftAll(cs: seq<(Phase, Cmd)>, v: V2): (r: seq<(Phase, Cmd)>)
    ensures |r| == |cs|
    ensures forall i :: 0 <= i < |r| ==> r[i] == (cs[i].0, ShiftCmd(cs[i].1, v))
  {
    seq(|cs|, i requires 0 <= i < |cs| => (cs[i].0, ShiftCmd(cs[i].1, v)))
  }

  /** `phase.commands()`: (parent, command) pairs. */
  function CommandsOf(phase: Phase): seq<(Phase, Cmd)>
    decreases phase, 1
  {
    match phase
    case Annotated(inner, _) => Relabel(phase, CommandsOf(inner))
    case Steps(passes, steps, c) => Label(phase, Moves(StepsMoves(passes, steps, c)))
    case BatchOf(phases) => CommandsAll(phases)
    case MovedBatchOf(phases, v) => ShiftAll(CommandsAll(phases), v)
    case ToolChangeOf(n) => [(phase, Code(Commands.GCode(Commands.ToolChangeLine(n))))]
    case PauseOf(msg) => [(phase, Code(Commands.GCode(Commands.PauseLine(msg))))]
  }

  /** The phases' commands, one phase after another. */
  function CommandsAll(phases: seq<Phase>): seq<(Phase, Cmd)>
    decreases phases, 0
  {
    if phases == [] then [] else CommandsOf(phases[0]) + CommandsAll(phases[1..])
  }

  /** `batch.then(other)`: a plain batch with one more phase. */
  function Then(batch: Phase, other: Phase): Phase
    requires batch.BatchOf? || batch.MovedBatchOf?
  {
    BatchOf(batch.phases + [other])
  }

  /** `batch + v`: NotImplemented (None) unless v is a planar vector or point. */
  function AddToBatch(batch: Phase, v: PlanePoint.Operand): (r: Option<Phase>)
    requires batch.BatchOf? || batch.MovedBatchOf?
    ensures r.Some? <==> v.Planar?
    ensures r.Some? ==> r.value == MovedBatchOf(batch.phases, v.v)
  {
    if v.Planar? then Some(MovedBatchOf(batch.phases, v.v)) else None
  }

  // ---------------------------------------------------------------------
  // Time

  /** The machine state `time` tracks: every field set, starting from zero. */
  datatype Position = Position(x: real, y: real, z: real, f: real)

  /**
   * `state.merge(cmd)` on a state whose fields are all set: a field of the
   * command replaces the state's only when it is set and nonzero.
   */
  function Advance(p: Position, m: Motion): Position {
    Position(
      if Truthy(m.x) then m.x.value else p.x,
      if Truthy(m.y) then m.y.value else p.y,
      if Truthy(m.z) then m.z.value else p.z,
      if Truthy(m.f) then m.f.value else p.f)
  }

  function AsMotion(p: Position): Motion {
    Motion(Some(p.x), Some(p.y), Some(p.z), Some(p.f))
  }

  /** `(cur - prior).magnitude_squared()`. */
  function DistanceSquared(a: Position, b: Position): real {
    (b.x - a.x) * (b.x - a.x) + (b.y - a.y) * (b.y - a.y) + (b.z - a.z) * (b.z - a.z)
  }

  /** The state and the time so far. */
  datatype Clock = Clock(state: Position, dt: real)

  /**
   * One command's effect; `sqrt` stands for the square root in
   * `magnitude()`. None is the ZeroDivisionError of a zero feed rate.
   */
  function Tick(c: Clock, cmd: Cmd, sqrt: real -> real): Option<Clock> {
    match cmd
    case Code(_) => Some(c)
    case Move(m) =>
      var s := Advance(c.state, m);
      if s.f == 0.0 then None else Some(Clock(s, c.dt + sqrt(DistanceSquared(c.state, s)) / s.f))
  }

  /** Every command in order, from `Motion(0, 0, 0, 0)` and no time. */
  function Run(cmds: seq<Cmd>, sqrt: real -> real): Option<Clock> {
    if cmds == [] then Some(Clock(Position(0.0, 0.0, 0.0, 0.0), 0.0))
    else
      match Run(cmds[..|cmds| - 1], sqrt)
      case None => None
      case Some(c) => Tick(c, cmds[|cmds| - 1], sqrt)
  }

  /** `cut.time()` over the cut's commands. */
  method Time(cmds: seq<Cmd>, sqrt: real -> real) returns (r: Option<real>)
    ensures r.None? <==> Run(cmds, sqrt).None?
    ensures r.Some? ==> r.value == Run(cmds, sqrt).value.dt
  {
    var state := Position(0.0, 0.0, 0.0, 0.0);
    var dt := 0.0;
    for k := 0 to |cmds|
      invariant Run(cmds[..k], sqrt) == Some(Clock(state, dt))
    {
      assert cmds[..k + 1][..k] == cmds[..k];
      if cmds[k].Move? {
        var prior := state;
        state := Advance(state, cmds[k].m);
        var fr := state.f;
        if fr == 0.0 {
          assert Run(cmds[..k + 1], sqrt) == None;
          RunStops(cmds, sqrt, k + 1);
          return None;
        }
        dt := dt + sqrt(DistanceSquared(prior, state)) / fr;
      }
    }
    assert cmds[..|cmds|] == cmds;
    r := Some(dt);
  }

  // ---------------------------------------------------------------------
  // Properties

  /** Once a zero feed rate has stopped the run, it stays stopped. */
  lemma {:induction false} RunStops(cmds: seq<Cmd>, sqrt: real -> real, k: nat)
    requires k <= |cmds| && Run(cmds[..k], sqrt) == None
    ensures Run(cmds, sqrt) == None
  {
    if k < |cmds| {
      var init := cmds[..|cmds| - 1];
      assert init[..k] == cmds[..k];
      RunStops(init, sqrt, k);
    } else {
      assert cmds[..k] == cmds;
    }
  }

  /** `Motion(z=5).merge(Motion(z=0))` keeps z = 5: a zero never overrides. */
  lemma MergeDropsZeroAsWritten(m: Motion, other: Motion)
    requires m == Motion(None, None, Some(5.0), None) && other == Motion(None, None, Some(0.0), None)
    ensures Merge(m, other).z == Some(5.0)
    ensures MergeCorrected(m, other).z == Some(0.0)
  {
  }

  /** With the merge as written, shifting x = 1 by -1 leaves x at 1. */
  lemma ShiftDropsZeroAsWritten(m: Motion, v: V2)
    requires m == Motion(Some(1.0), None, None, None) && v == PlanePoint.Vector(-1.0, 0.0)
    ensures Shift(m, v).x == Some(1.0)
    ensures ShiftCorrected(m, v).x == Some(0.0)
  {
  }

  /** A field of the corrected merge comes from `other` exactly when `other` gives it. */
  lemma MergeCorrectedFields(m: Motion, other: Motion)
    ensures var r := MergeCorrected(m, other);
      (other.x.Some? ==> r.x == other.x) && (other.x.None? ==> r.x == m.x) &&
      (other.y.Some? ==> r.y == other.y) && (other.y.None? ==> r.y == m.y) &&
      (other.z.Some? ==> r.z == other.z) && (other.z.None? ==> r.z == m.z) &&
      (other.f.Some? ==> r.f == other.f) && (other.f.None? ==> r.f == m.f)
  {
  }

  /** Merging is associative, and the empty motion changes nothing on either side. */
  lemma MergeCorrectedMonoid(a: Motion, b: Motion, c: Motion)
    ensures MergeCorrected(MergeCorrected(a, b), c) == MergeCorrected(a, MergeCorrected(b, c))
    ensures MergeCorrected(a, Empty) == a && MergeCorrected(Empty, a) == a
  {
  }

  /** The merge as written agrees with the corrected one when `other` gives no zero. */
  lemma MergeAgreesWithoutZeros(m: Motion, other: Motion)
    requires other.x != Some(0.0) && other.y != Some(0.0) && other.z != Some(0.0) && other.f != Some(0.0)
    ensures Merge(m, other) == MergeCorrected(m, other)
  {
  }

  /** With the corrected merge, translating by v and then by -v gives the motion back. */
  lemma ShiftCorrectedInverse(m: Motion, v: V2)
    ensures ShiftCorrected(ShiftCorrected(m, v), PlanePoint.Vector(-v.x, -v.y)) == m
  {
    var r := ShiftCorrected(ShiftCorrected(m, v), PlanePoint.Vector(-v.x, -v.y));
    if m.x.Some? {
      assert r.x.value == m.x.value + v.x + -v.x;
    }
    if m.y.Some? {
      assert r.y.value == m.y.value + v.y + -v.y;
    }
  }

  /** With the corrected merge, translating by u and then by v is translating by u + v. */
  lemma ShiftCorrectedCompose(m: Motion, u: V2, v: V2)
    ensures ShiftCorrected(ShiftCorrected(m, u), v) == ShiftCorrected(m, PlanePoint.Vector(u.x + v.x, u.y + v.y))
  {
  }

  /** No set coordinate of m is zero, before or after moving it by v. */
  predicate NoZeroOnTheWay(m: Motion, v: V2) {
    (m.x.Some? ==> m.x.value != 0.0 && m.x.value + v.x != 0.0) &&
    (m.y.Some? ==> m.y.value != 0.0 && m.y.value + v.y != 0.0)
  }

  /**
   * As written, translating by v agrees with the corrected translation
   * unless a coordinate lands on zero, and then translating back by -v
   * gives the motion back when no coordinate is zero on the way.
   */
  lemma ShiftInverse(m: Motion, v: V2)
    requires NoZeroOnTheWay(m, v)
    ensures Shift(m, v) == ShiftCorrected(m, v)
    ensures Shift(Shift(m, v), PlanePoint.Vector(-v.x, -v.y)) == m
  {
    var r := Shift(Shift(m, v), PlanePoint.Vector(-v.x, -v.y));
    if m.x.Some? {
      assert m.x.value + v.x + -v.x == m.x.value;
    }
    if m.y.Some? {
      assert m.y.value + v.y + -v.y == m.y.value;
    }
  }

  /**
   * `gcode()` starts with "G01", ends with the feed, and has an X (Y, Z)
   * word exactly when that coordinate is truthy: zeros are omitted.
   */
  lemma GcodeWordsShape(m: Motion, show: real -> string)
    requires m.f.Some?
    ensures var ws := GcodeWords(m, show);
      ws[0] == "G01" && ws[|ws| - 1] == "F" + show(m.f.value) &&
      |ws| == 2 + (if Truthy(m.x) then 1 else 0) + (if Truthy(m.y) then 1 else 0) + (if Truthy(m.z) then 1 else 0)
    ensures (exists i :: 0 <= i < |GcodeWords(m, show)| && GcodeWords(m, show)[i][0] == 'X') <==> Truthy(m.x)
    ensures (exists i :: 0 <= i < |GcodeWords(m, show)| && GcodeWords(m, show)[i][0] == 'Y') <==> Truthy(m.y)
    ensures (exists i :: 0 <= i < |GcodeWords(m, show)| && GcodeWords(m, show)[i][0] == 'Z') <==> Truthy(m.z)
  {
    var ws := GcodeWords(m, show);
    var n := 1 + (if Truthy(m.x) then 1 else 0);
    var k := n + (if Truthy(m.y) then 1 else 0);
    assert forall i :: 0 <= i < |ws| ==> ws[i] != [];
    assert Truthy(m.x) ==> ws[1][0] == 'X';
    assert Truthy(m.y) ==> ws[n][0] == 'Y';
    assert Truthy(m.z) ==> ws[k][0] == 'Z';
  }

  /** Nonempty words without whitespace. */
  predicate AllWords(ws: seq<string>) {
    forall k :: 0 <= k < |ws| ==> ws[k] != [] && StlText.NoSpace(ws[k])
  }

  lemma TagWord(tag: char, o: Option<real>, show: real -> string)
    requires !StlText.IsSpace(tag)
    requires forall v: real :: StlText.NoSpace(show(v))
    ensures AllWords(TaggedWords(tag, o, show))
  {
    if Truthy(o) {
      TagOne(tag, o.value, show);
    }
  }

  lemma TagOne(tag: char, v: real, show: real -> string)
    requires !StlText.IsSpace(tag)
    requires forall v: real :: StlText.NoSpace(show(v))
    ensures AllWords([[tag] + show(v)])
  {
    var w := [tag] + show(v);
    assert forall i :: 0 < i < |w| ==> w[i] == show(v)[i - 1];
  }

  lemma AllWordsConcat(a: seq<string>, b: seq<string>)
    requires AllWords(a) && AllWords(b)
    ensures AllWords(a + b)
  {
    assert forall k :: 0 <= k < |a + b| ==> (a + b)[k] == if k < |a| then a[k] else b[k - |a|];
  }

  /**
   * Splitting a motion's G-code line on whitespace gives back its words,
   * when the numbers print without whitespace.
   */
  lemma GcodeSplits(m: Motion, show: real -> string)
    requires m.f.Some?
    requires forall v: real :: StlText.NoSpace(show(v))
    ensures StlText.Words(Gcode(m, show).value) == GcodeWords(m, show)
  {
    var ws := GcodeWords(m, show);
    TagWord('X', m.x, show);
    TagWord('Y', m.y, show);
    TagWord('Z', m.z, show);
    var fw := ["F" + show(m.f.value)];
    TagOne('F', m.f.value, show);
    AllWordsConcat(["G01"], TaggedWords('X', m.x, show));
    AllWordsConcat(["G01"] + TaggedWords('X', m.x, show), TaggedWords('Y', m.y, show));
    AllWordsConcat(["G01"] + TaggedWords('X', m.x, show) + TaggedWords('Y', m.y, show), TaggedWords('Z', m.z, show));
    AllWordsConcat(["G01"] + TaggedWords('X', m.x, show) + TaggedWords('Y', m.y, show) + TaggedWords('Z', m.z, show), fw);
    StlText.WordsJoin(ws, "");
    assert StlText.Join(ws) + "" == StlText.Join(ws);
  }

  /** The phases' commands are those of each phase in turn. */
  lemma {:induction false} CommandsAllConcat(ps: seq<Phase>, qs: seq<Phase>)
    ensures CommandsAll(ps + qs) == CommandsAll(ps) + CommandsAll(qs)
  {
    if ps == [] {
      assert ps + qs == qs;
    } else {
      CommandsAllConcat(ps[1..], qs);
      ConsTail(ps, qs);
    }
  }

  /** Splitting off the head of a concatenation. */
  lemma ConsTail<T>(ps: seq<T>, qs: seq<T>)
    requires ps != []
    ensures (ps + qs)[0] == ps[0] && (ps + qs)[1..] == ps[1..] + qs
  {
  }

  /** `batch.then(other)` runs the batch's phases and then the new one. */
  lemma ThenAppends(phases: seq<Phase>, other: Phase)
    ensures CommandsOf(Then(BatchOf(phases), other)) == CommandsOf(BatchOf(phases)) + CommandsOf(other)
  {
    CommandsAllConcat(phases, [other]);
    assert [other][1..] == [];
  }

  /** `then` on a moved batch builds a plain batch: the translation is dropped. */
  lemma ThenDropsTranslation(phases: seq<Phase>, v: V2, other: Phase)
    ensures CommandsOf(Then(MovedBatchOf(phases, v), other)) == CommandsAll(phases) + CommandsOf(other)
  {
    CommandsAllConcat(phases, [other]);
    assert [other][1..] == [];
  }

  /**
   * A moved batch translates every motion of its phases by v (x and y where
   * set) and keeps the literal G-code lines and the parents.
   */
  lemma MovedTranslates(phases: seq<Phase>, v: V2, i: nat)
    requires i < |CommandsAll(phases)|
    ensures var moved, plain := CommandsOf(MovedBatchOf(phases, v)), CommandsAll(phases);
      |moved| == |plain| && moved[i].0 == plain[i].0 &&
      (plain[i].1.Code? ==> moved[i].1 == plain[i].1) &&
      (plain[i].1.Move? ==> moved[i].1 == Move(Shift(plain[i].1.m, v)))
  {
  }

  /**
   * Moving a batch's commands by v and then by -v gives them back, when no
   * motion coordinate is zero on the way.
   */
  lemma ShiftAllInverse(cs: seq<(Phase, Cmd)>, v: V2)
    requires forall i :: 0 <= i < |cs| && cs[i].1.Move? ==> NoZeroOnTheWay(cs[i].1.m, v)
    ensures ShiftAll(ShiftAll(cs, v), PlanePoint.Vector(-v.x, -v.y)) == cs
  {
    var r := ShiftAll(ShiftAll(cs, v), PlanePoint.Vector(-v.x, -v.y));
    forall i | 0 <= i < |cs|
      ensures r[i] == cs[i]
    {
      if cs[i].1.Move? {
        ShiftInverse(cs[i].1.m, v);
      }
    }
  }

  /** An annotated phase has its inner phase's commands, each under the annotated parent. */
  lemma AnnotatedRelabels(inner: Phase, props: map<string, string>)
    ensures var outer := Props(inner, props); var a, b := CommandsOf(outer), CommandsOf(inner);
      |a| == |b| && forall i :: 0 <= i < |a| ==> a[i].0 == outer && a[i].1 == b[i].1
  {
  }

  /** The path length of each pass plus three, summed over the passes. */
  function PassTotal(passes: seq<Pass>): nat {
    if passes == [] then 0 else (|passes[0].rest| + 1 + 3) + PassTotal(passes[1..])
  }

  lemma {:induction false} StepMovesCount(passes: seq<Pass>, step: real, c: Config)
    ensures |StepMoves(passes, step, c)| == PassTotal(passes)
  {
    if passes != [] {
      StepMovesCount(passes[1..], step, c);
    }
  }

  /** `CutSteps` emits len(path) + 3 motions per pass, for every pass at every step. */
  lemma {:induction false} CutStepsCount(passes: seq<Pass>, steps: seq<real>, c: Config)
    ensures |CommandsOf(Steps(passes, steps, c))| == |steps| * PassTotal(passes)
  {
    StepsMovesCount(passes, steps, c);
  }

  lemma {:induction false} StepsMovesCount(passes: seq<Pass>, steps: seq<real>, c: Config)
    ensures |StepsMoves(passes, steps, c)| == |steps| * PassTotal(passes)
  {
    if steps != [] {
      var total := PassTotal(passes);
      StepMovesCount(passes, steps[0], c);
      StepsMovesCount(passes, steps[1..], c);
      assert |StepsMoves(passes, steps, c)| == total + |steps[1..]| * total;
      MulSucc(|steps[1..]|, total);
    }
  }

  lemma MulSucc(n: nat, p: nat)
    ensures (n + 1) * p == p + n * p
  {
  }

  /**
   * One pass: up to the clearance, over to the path's start, down to the
   * step depth, along the rest of the path, and back up to the clearance;
   * every motion carries a feed, so each has a G-code line.
   */
  lemma PassShape(p: Pass, step: real, c: Config)
    ensures var r := PassMoves(p, step, c);
      r[0] == Motion(None, None, Some(c.clearance), Some(c.feedZ)) &&
      r[1].x == Some(p.start.x) && r[1].y == Some(p.start.y) && r[1].z.None? &&
      r[2].z == Some(step) && r[|r| - 1] == r[0] &&
      (forall i :: 3 <= i < |r| - 1 ==> r[i].x == Some(p.rest[i - 3].x) && r[i].y == Some(p.rest[i - 3].y)) &&
      forall i :: 0 <= i < |r| ==> r[i].f.Some?
  {
  }

  // ---------------------------------------------------------------------
  // Time properties

  /** `time`'s state update is the merge as written, on a state whose fields are all set. */
  lemma AdvanceMerges(p: Position, m: Motion)
    ensures AsMotion(Advance(p, m)) == Merge(AsMotion(p), m)
  {
  }

  /**
   * As written, a move to x = 0 after a move to x = 5 is no move at all:
   * the cut below takes 5 time units at feed 1, where a corrected merge
   * would give 10.
   */
  lemma TimeKeepsNonzeroAsWritten(sqrt: real -> real)
    requires sqrt(25.0) == 5.0 && sqrt(0.0) == 0.0
    ensures Run([Move(Motion(Some(5.0), None, None, Some(1.0))), Move(Motion(Some(0.0), None, None, Some(1.0)))], sqrt)
      == Some(Clock(Position(5.0, 0.0, 0.0, 1.0), 5.0))
  {
    var a, b := Move(Motion(Some(5.0), None, None, Some(1.0))), Move(Motion(Some(0.0), None, None, Some(1.0)));
    var c1 := Clock(Position(5.0, 0.0, 0.0, 1.0), 5.0);
    assert Run([a], sqrt) == Some(c1) by {
      assert [a][..0] == [];
      assert DistanceSquared(Position(0.0, 0.0, 0.0, 0.0), Position(5.0, 0.0, 0.0, 1.0)) == 25.0;
    }
    assert [a, b][..1] == [a];
    assert Advance(c1.state, b.m) == c1.state;
    assert DistanceSquared(c1.state, c1.state) == 0.0;
    assert Tick(c1, b, sqrt) == Some(Clock(c1.state, 5.0 + 0.0 / 1.0));
  }

  /** Every feed a motion gives is positive. */
  predicate PositiveFeeds(cmds: seq<Cmd>) {
    forall i :: 0 <= i < |cmds| && cmds[i].Move? && cmds[i].m.f.Some? ==> cmds[i].m.f.value > 0.0
  }

  /**
   * With positive feeds and a nonnegative square root, the time is
   * nonnegative, and the feed rate of the state never goes negative.
   */
  lemma {:induction false} TimeNonnegative(cmds: seq<Cmd>, sqrt: real -> real)
    requires forall d: real :: sqrt(d) >= 0.0
    requires PositiveFeeds(cmds)
    ensures Run(cmds, sqrt).Some? ==> Run(cmds, sqrt).value.dt >= 0.0 && Run(cmds, sqrt).value.state.f >= 0.0
  {
    if cmds != [] {
      var init := cmds[..|cmds| - 1];
      assert PositiveFeeds(init) by {
        forall i | 0 <= i < |init| ensures init[i] == cmds[i] { }
      }
      TimeNonnegative(init, sqrt);
      match Run(init, sqrt)
      case None =>
      case Some(c) =>
        var cmd := cmds[|cmds| - 1];
        if cmd.Move? {
          var s := Advance(c.state, cmd.m);
          if s.f != 0.0 {
            assert s.f > 0.0;
            var d := sqrt(DistanceSquared(c.state, s));
            assert d / s.f >= 0.0;
          }
        }
    }
  }

  /** Only the motions matter to the time: the literal G-code lines take none. */
  function MotionsOnly(cmds: seq<Cmd>): (r: seq<Cmd>)
    ensures forall i :: 0 <= i < |r| ==> r[i].Move?
  {
    if cmds == [] then []
    else MotionsOnly(cmds[..|cmds| - 1]) + (if cmds[|cmds| - 1].Move? then [cmds[|cmds| - 1]] else [])
  }

  lemma {:induction false} TimeIgnoresCodes(cmds: seq<Cmd>, sqrt: real -> real)
    ensures Run(cmds, sqrt) == Run(MotionsOnly(cmds), sqrt)
  {
    if cmds != [] {
      var init := cmds[..|cmds| - 1];
      var last := cmds[|cmds| - 1];
      TimeIgnoresCodes(init, sqrt);
      if last.Move? {
        var r := MotionsOnly(cmds);
        assert r == MotionsOnly(init) + [last];
        assert r[..|r| - 1] == MotionsOnly(init) && r[|r| - 1] == last;
      } else {
        assert MotionsOnly(cmds) == MotionsOnly(init) + [] == MotionsOnly(init);
        assert Run(cmds, sqrt) == Run(init, sqrt);
      }
    }
  }

  // ---------------------------------------------------------------------
  // Writing a cut

  /** The line a command writes: a motion's `gcode()`, a literal line verbatim. */
  function CmdLine(c: Cmd, show: real -> string): (r: Option<string>)
    ensures r.None? <==> c.Move? && c.m.f.None?
    ensures c.Code? ==> r == Some(c.g.line)
  {
    match c
    case Move(m) => Gcode(m, show)
    case Code(g) => Some(g.line)
  }

  /**
   * The text `cut.gcode(f)` writes for the commands `cmds`: each command's
   * line followed by a newline. None is the AssertionError of a motion
   * without a feed.
   */
  function CutText(cmds: seq<Cmd>, show: real -> string): Option<string> {
    if cmds == [] then Some("")
    else
      match CutText(cmds[..|cmds| - 1], show)
      case None => None
      case Some(t) =>
        match CmdLine(cmds[|cmds| - 1], show)
        case None => None
        case Some(l) => Some(t + l + "\n")
  }

  /** `cut.gcode(f)`: the write loop, with the file's contents as the returned text. */
  method WriteGcode(cmds: seq<Cmd>, show: real -> string) returns (r: Option<string>)
    ensures r == CutText(cmds, show)
  {
    var out := "";
    for k := 0 to |cmds|
      invariant CutText(cmds[..k], show) == Some(out)
    {
      assert cmds[..k + 1][..k] == cmds[..k];
      var line := CmdLine(cmds[k], show);
      if line.None? {
        assert CutText(cmds[..k + 1], show) == None;
        CutTextStops(cmds, show, k + 1);
        return None;
      }
      out := out + line.value + "\n";
    }
    assert cmds[..|cmds|] == cmds;
    r := Some(out);
  }

  /** Once a motion without a feed has stopped the writing, nothing more is written. */
  lemma {:induction false} CutTextStops(cmds: seq<Cmd>, show: real -> string, k: nat)
    requires k <= |cmds| && CutText(cmds[..k], show).None?
    ensures CutText(cmds, show).None?
    decreases |cmds| - k
  {
    if k == |cmds| {
      assert cmds[..k] == cmds;
    } else {
      assert cmds[..k + 1][..k] == cmds[..k];
      CutTextStops(cmds, show, k + 1);
    }
  }

  /** Writing fails exactly when some motion has no feed rate. */
  lemma {:induction false} CutTextFails(cmds: seq<Cmd>, show: real -> string)
    ensures CutText(cmds, show).None? <==> exists i :: 0 <= i < |cmds| && cmds[i].Move? && cmds[i].m.f.None?
  {
    if cmds != [] {
      var init := cmds[..|cmds| - 1];
      CutTextFails(init, show);
      assert forall i :: 0 <= i < |init| ==> init[i] == cmds[i];
    }
  }

  /** The text of two command lists in turn is the first text followed by the second. */
  lemma {:induction false} CutTextConcat(a: seq<Cmd>, b: seq<Cmd>, show: real -> string)
    requires CutText(a, show).Some? && CutText(b, show).Some?
    ensures CutText(a + b, show) == Some(CutText(a, show).value + CutText(b, show).value)
    decreases |b|
  {
    if b == [] {
      assert a + b == a;
      assert CutText(a, show).value + "" == CutText(a, show).value;
    } else {
      var init := b[..|b| - 1];
      assert (a + b)[..|a + b| - 1] == a + init;
      assert (a + b)[|a + b| - 1] == b[|b| - 1];
      CutTextConcat(a, init, show);
      var ta, ti := CutText(a, show).value, CutText(init, show).value;
      var l := CmdLine(b[|b| - 1], show).value;
      assert ta + ti + l + "\n" == ta + (ti + l + "\n");
    }
  }

  /** One command writes its own line and a newline. */
  lemma OneLine(c: Cmd, show: real -> string)
    requires CmdLine(c, show).Some?
    ensures CutText([c], show) == Some(CmdLine(c, show).value + "\n")
  {
    assert [c][..0] == [];
    var l := CmdLine(c, show).value;
    assert "" + l + "\n" == l + "\n";
  }
}
