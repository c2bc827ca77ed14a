/**
 * Tool records (petrify/machine/tool.py): speeds, a straight tip, the
 * machine and the tool that holds them.
 */
module Tool {
  /** `Speed(dx, dy, dz)`. */
  datatype Speed = Speed(dx: real, dy: real, dz: real)

  /** `StraightTip(diameter)`. */
  datatype StraightTip = StraightTip(diameter: real)

  /** `radius`: half the diameter. */
  function Radius(tip: StraightTip): (r: real)
    ensures r * 2.0 == tip.diameter
    ensures tip.diameter > 0.0 ==> 0.0 < r < tip.diameter
  {
    tip.diameter / 2.0
  }

  /** `Machine(clearance)` keeps nothing of its argument. */
  datatype Machine = Machine

  function NewMachine(clearance: real): Machine {
    Machine
  }

  /** `Tool(tip, feeds, speeds)`. */
  datatype Tool = Tool(tip: StraightTip, feeds: Speed, speeds: Speed)

  /** Machines built with different clearances are indistinguishable. */
  lemma MachineForgetsClearance(a: real, b: real)
    ensures NewMachine(a) == NewMachine(b)
  {
  }
}
