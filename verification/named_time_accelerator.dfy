/** The six accelerators offered to the user, each with its display name. */
module NamedTimeAccelerator {
  import opened TimeAccelerator
  import opened Polynomial

  const NANOS_PER_MINUTE: int := 60 * NANOS_PER_SECOND
  const NANOS_PER_HOUR: int := 60 * NANOS_PER_MINUTE

  datatype NamedTimeAccelerator = Times1 | Times30 | Times300 | Times3000 | Day | SiderealDay {

    /** `getName()`. */
    function Name(): string {
      match this
      case Times1 => "1x"
      case Times30 => "30x"
      case Times300 => "300x"
      case Times3000 => "3000x"
      case Day => "jour"
      case SiderealDay => "jour sidéral"
    }

    /** `getAccelerator()`: four continuous speeds, and one day or one
        sidereal day (23 h 56 min 4 s) sixty times per second. */
    function Accelerator(): TimeAccelerator {
      match this
      case Times1 => Continuous(1)
      case Times30 => Continuous(30)
      case Times300 => Continuous(300)
      case Times3000 => Continuous(3000)
      case Day => Discrete(60, 24 * NANOS_PER_HOUR)
      case SiderealDay => Discrete(60, 23 * NANOS_PER_HOUR + 56 * NANOS_PER_MINUTE + 4 * NANOS_PER_SECOND)
    }

    /** `toString()`: the display name. */
    function ToString(): (s: string)
      ensures s == Name()
      ensures |s| > 0
    {
      Name()
    }
  }

  /** `ALL`: the values in declaration order. */
  const ALL: seq<NamedTimeAccelerator> := [Times1, Times30, Times300, Times3000, Day, SiderealDay]

  /** `ALL` lists every accelerator exactly once. */
  lemma AllListsEveryAcceleratorOnce(a: NamedTimeAccelerator)
    ensures a in ALL
    ensures forall i, j :: 0 <= i < j < |ALL| ==> ALL[i] != ALL[j]
  {
  }

  /** The display names tell the accelerators apart. */
  lemma NamesDistinct(a: NamedTimeAccelerator, b: NamedTimeAccelerator)
    ensures a.Name() == b.Name() <==> a == b
  {
  }

  /** The steps of the discrete accelerators: a day is 86 400 s and a
      sidereal day 86 164 s, so the sidereal day is 236 s shorter. */
  lemma DaySteps()
    ensures Day.Accelerator() == Discrete(60, 86_400 * NANOS_PER_SECOND)
    ensures SiderealDay.Accelerator() == Discrete(60, 86_164 * NANOS_PER_SECOND)
    ensures Day.Accelerator().step - SiderealDay.Accelerator().step == 236 * NANOS_PER_SECOND
  {
  }

  /** The first four accelerators are the continuous ones, each named by
      its factor followed by `x`. */
  lemma ContinuousNames(a: NamedTimeAccelerator)
    ensures a.Accelerator().Continuous? <==> a in ALL[..4]
    ensures a.Accelerator().Continuous? ==>
              a.Accelerator().factor > 0 && a.Name() == NatToString(a.Accelerator().factor) + "x"
  {
    assert ALL[..4] == [Times1, Times30, Times300, Times3000];
    assert NatToString(30) == "30";
    assert NatToString(300) == "300";
    assert NatToString(3000) == "3000";
  }

  /** One real second of the "jour" accelerator moves the sky by sixty days. */
  lemma DayAcceleratorSecond(t0: int)
    ensures Day.Accelerator().Adjust(t0, NANOS_PER_SECOND) == t0 + 60 * 86_400 * NANOS_PER_SECOND
  {
    DaySteps();
    DiscreteOneSecond(Day.Accelerator(), t0);
  }
}
