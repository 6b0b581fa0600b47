/**
 * The screening configuration: four thresholds, four score weights and two
 * filter switches.  In beginner mode the configuration is one of four fixed
 * strategy presets; in pro mode it is whatever the sliders and check boxes
 * were set to.
 */
module Presets {

  /** A fully resolved screening configuration. */
  datatype Config = Config(
    minPerf: real,   // minimum 3-week performance, in percent
    minDiv: real,    // minimum dividend yield, in percent
    maxPe: real,     // maximum trailing P/E
    minDist: real,   // minimum distance below the window's high, in percent
    wPerf: real,     // weight of momentum
    wDist: real,     // weight of the distance from the high (turnaround)
    wDiv: real,      // weight of the dividend yield
    wPe: real,       // weight of valuation
    useDiv: bool,    // dividend filter switched on
    useDist: bool    // distance filter switched on
  )

  /** The four beginner strategies. */
  datatype Strategy = Balanced | Growth | Dividend | Turnaround

  /** The two user modes: a beginner picks a strategy, a pro sets every value. */
  datatype Mode = Beginner(strategy: Strategy) | Pro(config: Config)

  function WeightSum(c: Config): real {
    c.wPerf + c.wDist + c.wDiv + c.wPe
  }

  /** The value ranges the pro-mode sliders offer. */
  predicate WithinSliderRanges(c: Config) {
    && -10.0 <= c.minPerf <= 20.0
    && 0.0 <= c.minDiv <= 10.0
    && 5.0 <= c.maxPe <= 40.0
    && 0.0 <= c.minDist <= 60.0
    && 0.0 <= c.wPerf <= 1.0
    && 0.0 <= c.wDist <= 1.0
    && 0.0 <= c.wDiv <= 1.0
    && 0.0 <= c.wPe <= 1.0
  }

  /** The preset table of beginner mode. */
  function Preset(s: Strategy): (c: Config)
    ensures WeightSum(c) == 1.0
    ensures WithinSliderRanges(c)
    ensures c.useDiv <==> (s == Balanced || s == Dividend)
    ensures c.useDist <==> s != Growth
  {
    match s
    case Balanced   => Config(0.0, 1.5, 18.0, 15.0, 0.4, 0.2, 0.2, 0.2, true, true)
    case Growth     => Config(5.0, 0.0, 30.0, 5.0, 0.7, 0.1, 0.0, 0.2, false, false)
    case Dividend   => Config(-2.0, 3.0, 15.0, 20.0, 0.2, 0.1, 0.5, 0.2, true, true)
    case Turnaround => Config(-5.0, 0.5, 20.0, 35.0, 0.2, 0.6, 0.1, 0.1, false, true)
  }

  /** The configuration a run uses: the preset in beginner mode, the user's values in pro mode. */
  function Resolve(mode: Mode): (c: Config)
    ensures mode.Beginner? ==> WeightSum(c) == 1.0 && WithinSliderRanges(c)
    ensures mode.Pro? ==> c == mode.config
  {
    match mode
    case Beginner(s) => Preset(s)
    case Pro(c) => c
  }

  /**
   * Each preset puts its largest weight on what its name promises: growth on
   * momentum, dividend on the yield, turnaround on the distance from the high;
   * the balanced preset on momentum too, with the other three equal.
   */
  lemma PresetEmphasis(s: Strategy)
    ensures var c := Preset(s);
      match s
      case Balanced => c.wPerf > c.wDist == c.wDiv == c.wPe
      case Growth => c.wPerf > c.wDist && c.wPerf > c.wDiv && c.wPerf > c.wPe
      case Dividend => c.wDiv > c.wPerf && c.wDiv > c.wDist && c.wDiv > c.wPe
      case Turnaround => c.wDist > c.wPerf && c.wDist > c.wDiv && c.wDist > c.wPe
  {
  }

  /**
   * Documents the table only: no two strategies share a preset, and the
   * dividend strategy has the strictest P/E cap.
   */
  lemma PresetsDistinct(s: Strategy, t: Strategy)
    ensures s != t ==> Preset(s) != Preset(t)
    ensures Preset(Dividend).maxPe <= Preset(s).maxPe
  {
  }
}
