/** The per-sample labelling functions `board` (inside `findManeuvers`) and `leg`
    (inside `findLegs`). */
module Classifiers {
  import opened Wrappers
  import opened Telemetry

  /** Samples whose elapsed race time `ot` is below this many seconds are pre-start. */
  const PreStartSeconds: real := 300.0
  const RightAngle: real := 90.0

  /** The board labels; `BoardCode` gives the string the source uses for each. */
  datatype BoardLabel = UpStarboard | UpPort | DownStarboard | DownPort | PreStart

  function BoardCode(b: BoardLabel): (code: string)
    ensures |code| >= 2
  {
    match b
    case UpStarboard => "U-S"
    case UpPort => "U-P"
    case DownStarboard => "D-S"
    case DownPort => "D-P"
    case PreStart => "PS"
  }

  /** The test `board.charAt(0) == 'U'` used to pick upwind maneuvers. */
  predicate StartsWithU(b: BoardLabel)
  {
    BoardCode(b)[0] == 'U'
  }

  /** Only the two upwind boards begin with `U`; in particular "PS" does not. */
  lemma StartsWithUIsUpwind(b: BoardLabel)
    ensures StartsWithU(b) <==> b == UpStarboard || b == UpPort
    ensures BoardCode(b) == "PS" <==> b == PreStart
  {
  }

  /** `point.ot < 300`: false when `ot` is missing, as `undefined < 300` is. */
  predicate InPreStart(s: Sample)
  {
    s.ot.Some? && s.ot.value < PreStartSeconds
  }

  /** `board(point)`: null without `twa`; otherwise pre-start forces `PS`, and the wind angle splits
      the circle into port upwind `[-90, 0)`, port downwind `< -90`, starboard downwind `> 90`,
      and starboard upwind `[0, 90]`. */
  function Board(s: Sample): (b: Option<BoardLabel>)
    ensures b.None? <==> s.twa.None?
    ensures b == Some(PreStart) <==> s.twa.Some? && InPreStart(s)
    ensures s.twa.Some? && !InPreStart(s) ==>
              var a := s.twa.value;
              && (b == Some(UpPort) <==> -RightAngle <= a < 0.0)
              && (b == Some(DownPort) <==> a < -RightAngle)
              && (b == Some(DownStarboard) <==> RightAngle < a)
              && (b == Some(UpStarboard) <==> 0.0 <= a <= RightAngle)
  {
    if s.twa.None? then None
    else
      var a := s.twa.value;
      var side :=
        if -RightAngle <= a && a < 0.0 then UpPort
        else if a < -RightAngle then DownPort
        else if a > RightAngle then DownStarboard
        else UpStarboard;
      if InPreStart(s) then Some(PreStart) else Some(side)
  }

  /** The leg labels; `LegCode` gives the source's string for each. */
  datatype LegLabel = Upwind | Downwind | LegPreStart

  function LegCode(l: LegLabel): string
  {
    match l
    case Upwind => "Upwind"
    case Downwind => "Downwind"
    case LegPreStart => "PS"
  }

  /** `leg(point)`: pre-start is tested first, so a pre-start sample is `PS` even without `twa`;
      otherwise `|twa| < 90` is upwind, any other present angle downwind, and no `twa` gives null. */
  function Leg(s: Sample): (l: Option<LegLabel>)
    ensures l == Some(LegPreStart) <==> InPreStart(s)
    ensures l.None? <==> !InPreStart(s) && s.twa.None?
    ensures !InPreStart(s) && s.twa.Some? ==>
              (l == Some(Upwind) <==> Abs(s.twa.value) < RightAngle) &&
              (l == Some(Downwind) <==> RightAngle <= Abs(s.twa.value))
  {
    if InPreStart(s) then Some(LegPreStart)
    else if s.twa.Some? then
      if Abs(s.twa.value) < RightAngle then Some(Upwind) else Some(Downwind)
    else None
  }

  /** The two classifiers agree on upwind versus downwind except exactly at a wind angle of
      plus or minus 90 degrees, which `board` calls upwind and `leg` calls downwind. */
  lemma BoardAndLegDisagreeOnlyAtRightAngle(s: Sample)
    requires s.twa.Some? && !InPreStart(s)
    ensures Board(s).Some? && Leg(s).Some?
    ensures (StartsWithU(Board(s).value) <==> Leg(s) == Some(Upwind)) <==> Abs(s.twa.value) != RightAngle
  {
    StartsWithUIsUpwind(Board(s).value);
  }

  /** A pre-start sample with no wind angle: `board` gives null but `leg` gives `PS`. */
  lemma PreStartWithoutTwa()
    ensures var s := Blank(0).(ot := Some(10.0));
            Board(s).None? && Leg(s) == Some(LegPreStart)
  {
  }
}
