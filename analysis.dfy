/** `analyzeTacks`: which maneuver transitions become tacks, and the phases each tack goes
    through, both as a specification over values and as the source's loop over `Tack` objects. */
module Analysis {
  import opened Wrappers
  import opened Telemetry
  import opened Slicing
  import opened Classifiers
  import opened TackSpec
  import opened TackUtils

  /** A tack is skipped when the next maneuver starts less than this many seconds after it. */
  const SpacingSeconds: int := 45
  /** The window the phases run on: from 30 seconds before the maneuver to 120 seconds after. */
  const RangeBeforeSeconds: int := 30
  const RangeAfterSeconds: int := 120

  /** A board segment of the race: the board label (null where the sample had no `twa`) and the
      time the segment starts. */
  datatype Maneuver = Maneuver(board: Option<BoardLabel>, start: Time)

  /** What the selection loop does at one index: skip it, throw (`charAt` of a null board), or
      build a tack. */
  datatype Choice = Skip | Throw | Take

  /** The upwind boards, U-S and U-P: the boards the `charAt(0) == 'U'` test accepts
      (`Classifiers.StartsWithUIsUpwind`), stated by label. */
  predicate UpwindBoard(b: BoardLabel)
  {
    b == UpStarboard || b == UpPort
  }

  /** The next maneuver, if any, starts at least 45 seconds after maneuver `i`. */
  predicate SpacedFromNext(m: seq<Maneuver>, i: nat)
    requires i < |m|
  {
    !(i + 1 < |m| && m[i + 1].start - SpacingSeconds * MsPerSecond < m[i].start)
  }

  /** Index `i` reads a null board: its own, or the previous one once its own is upwind. */
  predicate Throws(m: seq<Maneuver>, i: nat)
    requires 1 <= i < |m|
    ensures Throws(m, i) ==> m[i].board.None? || m[i - 1].board.None?
    ensures m[i].board.None? ==> Throws(m, i)
  {
    m[i].board.None? || (UpwindBoard(m[i].board.value) && m[i - 1].board.None?)
  }

  /** A tack is built at index `i`: both boards are upwind and the next maneuver is far enough. */
  predicate Builds(m: seq<Maneuver>, i: nat)
    requires 1 <= i < |m|
    ensures Builds(m, i) ==> !Throws(m, i)
    ensures Builds(m, i) && i + 1 < |m| ==> m[i].start + SpacingSeconds * MsPerSecond <= m[i + 1].start
  {
    && m[i].board.Some? && UpwindBoard(m[i].board.value)
    && m[i - 1].board.Some? && UpwindBoard(m[i - 1].board.value)
    && SpacedFromNext(m, i)
  }

  /** The tests `analyzeTacks` makes at index `i`, in the source's order: the board of `i` begins
      with `U`, the board of `i - 1` begins with `U`, `i - 1` is not "PS", and the next maneuver (if
      any) starts no less than 45 seconds after this one. The "PS" test can never fire, so a tack
      is built exactly when both boards are upwind and the spacing holds. */
  function ChoiceAt(m: seq<Maneuver>, i: nat): (c: Choice)
    requires 1 <= i < |m|
    ensures c == Throw <==> Throws(m, i)
    ensures c == Take <==> Builds(m, i)
  {
    match m[i].board
    case None => Throw
    case Some(b) =>
      StartsWithUIsUpwind(b);
      if !StartsWithU(b) then Skip
      else
        match m[i - 1].board
        case None => Throw
        case Some(p) =>
          StartsWithUIsUpwind(p);
          if !StartsWithU(p) then Skip
          else if BoardCode(p) == "PS" then Skip
          else if i + 1 < |m| && m[i + 1].start - SpacingSeconds * MsPerSecond < m[i].start then Skip
          else Take
  }

  /** The window `range` the phases of the tack at `time` run on: the contiguous run of `data`
      from the first sample at most 30 s before `time`, whose elements but the last are earlier
      than 120 s after it. */
  function TackRange(data: seq<Sample>, time: Time): (r: seq<Sample>)
    ensures var lo := LowerBound(data, time - RangeBeforeSeconds * MsPerSecond);
            forall i :: 0 <= i < |r| ==> lo + i < |data| && r[i] == data[lo + i]
    ensures forall i :: 0 <= i < |r| - 1 ==> r[i].t < time + RangeAfterSeconds * MsPerSecond
  {
    SliceAroundTime(data, time, RangeBeforeSeconds, RangeAfterSeconds)
  }

  /** The phases run on one tack: from its initial record and the window around it to the
      processed record, or `None` where a phase throws. */
  type Processor = (TackRecord, seq<Sample>) -> Option<TackRecord>

  /** The nine phases of `tackUtils`, in the order `analyzeTacks` runs them. */
  function Phases(circularMean: CircularMean): Processor
  {
    (r: TackRecord, range: seq<Sample>) => ProcessTack(r, range, circularMean)
  }

  /** Processing keeps the time and board a tack was created with. */
  ghost predicate KeepsIdentity(process: Processor)
  {
    forall r: TackRecord, range: seq<Sample> :: process(r, range).Some? ==>
      process(r, range).value.time == r.time && process(r, range).value.board == r.board
  }

  /** The nine phases keep the tack's time and board. */
  lemma PhasesKeepIdentity(circularMean: CircularMean)
    ensures KeepsIdentity(Phases(circularMean))
  {
    forall r: TackRecord, range: seq<Sample> | Phases(circularMean)(r, range).Some?
      ensures Phases(circularMean)(r, range).value.time == r.time
      ensures Phases(circularMean)(r, range).value.board == r.board
    {
      var r7 := IndexPhases(r, range, circularMean);
      assert Grows(r, r7.value);
    }
  }

  /** The tack built at index `i`, or `None` where one of its phases throws; with phases that
      keep a tack's identity it has the maneuver's start time and board. */
  function TackAt(m: seq<Maneuver>, data: seq<Sample>, process: Processor, i: nat): (t: Option<TackRecord>)
    requires i < |m| && m[i].board.Some?
    ensures KeepsIdentity(process) && t.Some? ==> t.value.time == m[i].start && t.value.board == m[i].board.value
  {
    process(NewTack(m[i].start, m[i].board.value), TackRange(data, m[i].start))
  }

  /** The tacks of the loop's first iterations, for the indices `2 .. n - 1`; `None` once an
      iteration throws. */
  function TacksBefore(m: seq<Maneuver>, data: seq<Sample>, process: Processor, n: nat): (r: Option<seq<TackRecord>>)
    requires n <= |m|
    ensures n <= 2 ==> r == Some([])
    ensures r.Some? ==> |r.value| <= n - 2 || n <= 2
  {
    if n <= 2 then Some([])
    else
      match TacksBefore(m, data, process, n - 1)
      case None => None
      case Some(tacks) =>
        if Throws(m, n - 1) then None
        else if Builds(m, n - 1) then
          match TackAt(m, data, process, n - 1)
          case None => None
          case Some(t) => Some(tacks + [t])
        else Some(tacks)
  }

  /** `analyzeTacks(maneuvers, data)`: the tacks in the order they are pushed, or `None` where the
      call throws. */
  function AnalyzeTacksSpec(m: seq<Maneuver>, data: seq<Sample>, circularMean: CircularMean): (r: Option<seq<TackRecord>>)
    ensures r.Some? ==> |r.value| + 2 <= |m| || r.value == []
  {
    TacksBefore(m, data, Phases(circularMean), |m|)
  }

  /** The indices below `n` from which a tack is built, in increasing order. */
  function SelectedBelow(m: seq<Maneuver>, n: nat): (s: seq<nat>)
    requires n <= |m|
    ensures forall k :: 0 <= k < |s| ==> 2 <= s[k] < n && Builds(m, s[k])
    ensures forall k, l :: 0 <= k < l < |s| ==> s[k] < s[l]
    ensures forall i :: 2 <= i < n && Builds(m, i) ==> i in s
  {
    if n <= 2 then []
    else SelectedBelow(m, n - 1) + (if Builds(m, n - 1) then [n - 1] else [])
  }

  /** Index `i` does not make the loop throw: it reads no null board and, where it builds a
      tack, that tack gets through its phases. */
  predicate PassesAt(m: seq<Maneuver>, data: seq<Sample>, process: Processor, i: nat)
    requires 1 <= i < |m|
  {
    !Throws(m, i) && (Builds(m, i) ==> TackAt(m, data, process, i).Some?)
  }

  /** The loop gets past index `n - 1` exactly when every index from 2 on passes. */
  lemma {:induction false} TacksSucceedWhen(m: seq<Maneuver>, data: seq<Sample>, process: Processor, n: nat)
    requires n <= |m|
    ensures TacksBefore(m, data, process, n).Some? <==> forall i :: 2 <= i < n ==> PassesAt(m, data, process, i)
  {
    if n > 2 {
      TacksSucceedWhen(m, data, process, n - 1);
      assert TacksBefore(m, data, process, n).Some? <==>
               TacksBefore(m, data, process, n - 1).Some? && PassesAt(m, data, process, n - 1);
    }
  }

  /** When the loop succeeds it yields one tack per selected index, in index order, each the
      processed window around that maneuver. */
  lemma {:induction false} TacksFollowSelection(m: seq<Maneuver>, data: seq<Sample>, process: Processor, n: nat)
    requires n <= |m|
    requires TacksBefore(m, data, process, n).Some?
    ensures var tacks := TacksBefore(m, data, process, n).value;
            var s := SelectedBelow(m, n);
            && |tacks| == |s|
            && forall k :: 0 <= k < |s| ==> TackAt(m, data, process, s[k]) == Some(tacks[k])
  {
    if n > 2 {
      TacksFollowSelection(m, data, process, n - 1);
      var tacks := TacksBefore(m, data, process, n).value;
      var prev := TacksBefore(m, data, process, n - 1).value;
      var s := SelectedBelow(m, n);
      var sp := SelectedBelow(m, n - 1);
      if Builds(m, n - 1) {
        assert tacks == prev + [TackAt(m, data, process, n - 1).value];
        assert s == sp + [n - 1];
        forall k | 0 <= k < |s|
          ensures TackAt(m, data, process, s[k]) == Some(tacks[k])
        {
          if k < |sp| {
            assert s[k] == sp[k] && tacks[k] == prev[k];
          }
        }
      } else {
        assert tacks == prev && s == sp;
      }
    }
  }

  /** On time-ordered maneuvers, with phases that keep a tack's time, consecutive tacks start at
      least 45 seconds apart: a tack is only built when the next maneuver starts that long after. */
  lemma SpacedUnder(m: seq<Maneuver>, data: seq<Sample>, process: Processor)
    requires forall i, j :: 0 <= i < j < |m| ==> m[i].start <= m[j].start
    requires KeepsIdentity(process)
    requires TacksBefore(m, data, process, |m|).Some?
    ensures var tacks := TacksBefore(m, data, process, |m|).value;
            forall k :: 0 <= k < |tacks| - 1 ==> tacks[k].time + SpacingSeconds * MsPerSecond <= tacks[k + 1].time
  {
    var tacks := TacksBefore(m, data, process, |m|).value;
    var s := SelectedBelow(m, |m|);
    TacksFollowSelection(m, data, process, |m|);
    forall k | 0 <= k < |tacks| - 1
      ensures tacks[k].time + SpacingSeconds * MsPerSecond <= tacks[k + 1].time
    {
      SpacedPair(m, data, process, s[k], s[k + 1]);
    }
  }

  /** Two tacks built at indices `i < j` of time-ordered maneuvers are 45 seconds apart. */
  lemma SpacedPair(m: seq<Maneuver>, data: seq<Sample>, process: Processor, i: nat, j: nat)
    requires forall i, j :: 0 <= i < j < |m| ==> m[i].start <= m[j].start
    requires KeepsIdentity(process)
    requires 1 <= i < j < |m| && Builds(m, i) && Builds(m, j)
    requires TackAt(m, data, process, i).Some? && TackAt(m, data, process, j).Some?
    ensures TackAt(m, data, process, i).value.time + SpacingSeconds * MsPerSecond <= TackAt(m, data, process, j).value.time
  {
    assert m[i].start + SpacingSeconds * MsPerSecond <= m[i + 1].start;
    assert m[i + 1].start <= m[j].start by {
      if i + 1 < j {
        assert 0 <= i + 1 < j < |m|;
      }
    }
  }

  /** Each tack carries the start time and the board of the maneuver it was selected from. */
  lemma TacksCarryManeuver(m: seq<Maneuver>, data: seq<Sample>, circularMean: CircularMean)
    requires AnalyzeTacksSpec(m, data, circularMean).Some?
    ensures var tacks := AnalyzeTacksSpec(m, data, circularMean).value;
            var s := SelectedBelow(m, |m|);
            |tacks| == |s| &&
            forall k :: 0 <= k < |s| ==> tacks[k].time == m[s[k]].start && Some(tacks[k].board) == m[s[k]].board
  {
    var process := Phases(circularMean);
    var tacks := TacksBefore(m, data, process, |m|).value;
    var s := SelectedBelow(m, |m|);
    TacksFollowSelection(m, data, process, |m|);
    PhasesKeepIdentity(circularMean);
    forall k | 0 <= k < |s|
      ensures tacks[k].time == m[s[k]].start && Some(tacks[k].board) == m[s[k]].board
    {
      assert TackAt(m, data, process, s[k]) == Some(tacks[k]);
    }
  }

  /** On time-ordered maneuvers consecutive tacks start at least 45 seconds apart. */
  lemma TacksAreSpaced(m: seq<Maneuver>, data: seq<Sample>, circularMean: CircularMean)
    requires forall i, j :: 0 <= i < j < |m| ==> m[i].start <= m[j].start
    requires AnalyzeTacksSpec(m, data, circularMean).Some?
    ensures var tacks := AnalyzeTacksSpec(m, data, circularMean).value;
            forall k :: 0 <= k < |tacks| - 1 ==> tacks[k].time + SpacingSeconds * MsPerSecond <= tacks[k + 1].time
  {
    PhasesKeepIdentity(circularMean);
    SpacedUnder(m, data, Phases(circularMean));
  }

  /** Fewer than three maneuvers give no tacks, whatever the data. */
  lemma NoTacksFromShortSequences(m: seq<Maneuver>, data: seq<Sample>, circularMean: CircularMean)
    requires |m| <= 2
    ensures AnalyzeTacksSpec(m, data, circularMean) == Some([])
  {
  }

  /** Two upwind tacks 30 seconds apart: the first is skipped for the spacing, the last kept. */
  lemma SelectionExample()
    ensures var m := [Maneuver(Some(DownStarboard), 0), Maneuver(Some(UpStarboard), 60000),
                      Maneuver(Some(UpPort), 120000), Maneuver(Some(UpStarboard), 150000)];
            SelectedBelow(m, |m|) == [3]
  {
  }

  /** A null board at a checked index makes the whole call throw, even after tacks were built. */
  lemma NullBoardThrows(m: seq<Maneuver>, data: seq<Sample>, circularMean: CircularMean, i: nat)
    requires 2 <= i < |m| && m[i].board.None?
    ensures AnalyzeTacksSpec(m, data, circularMean).None?
  {
    assert !PassesAt(m, data, Phases(circularMean), i);
    TacksSucceedWhen(m, data, Phases(circularMean), |m|);
  }

  /** Once an iteration throws, the call has thrown. */
  lemma {:induction false} ThrowIsFinal(m: seq<Maneuver>, data: seq<Sample>, process: Processor, n: nat)
    requires n <= |m| && TacksBefore(m, data, process, n).None?
    ensures TacksBefore(m, data, process, |m|).None?
    decreases |m| - n
  {
    if n < |m| {
      ThrowIsFinal(m, data, process, n + 1);
    }
  }

  /** An index that builds no tack and reads no null board leaves the tacks as they were. */
  lemma SkipStep(m: seq<Maneuver>, data: seq<Sample>, process: Processor, i: nat)
    requires 2 <= i < |m| && TacksBefore(m, data, process, i).Some?
    requires !Throws(m, i) && !Builds(m, i)
    ensures TacksBefore(m, data, process, i + 1) == TacksBefore(m, data, process, i)
  {
  }

  /** An index that builds a tack which gets through its phases appends that tack. */
  lemma BuildStep(m: seq<Maneuver>, data: seq<Sample>, process: Processor, i: nat)
    requires 2 <= i < |m| && TacksBefore(m, data, process, i).Some?
    requires Builds(m, i) && TackAt(m, data, process, i).Some?
    ensures TacksBefore(m, data, process, i + 1) ==
              Some(TacksBefore(m, data, process, i).value + [TackAt(m, data, process, i).value])
  {
  }

  /** `process` runs the nine phases, seen only where those phases are applied. */
  ghost predicate RunsPhases(process: Processor, circularMean: CircularMean)
  {
    forall r: TackRecord, range: seq<Sample> {:trigger ProcessTack(r, range, circularMean)} ::
      process(r, range) == ProcessTack(r, range, circularMean)
  }

  lemma PhasesRunPhases(circularMean: CircularMean)
    ensures RunsPhases(Phases(circularMean), circularMean)
  {
  }

  /** One iteration of the loop that builds a tack: a new `Tack` at the maneuver's start time
      and board, run through the nine phases on the window around that time. */
  method BuildTack(maneuvers: seq<Maneuver>, data: seq<Sample>, circularMean: CircularMean, ghost process: Processor, i: nat)
    returns (ok: bool, tack: Tack)
    requires i < |maneuvers| && maneuvers[i].board.Some?
    requires RunsPhases(process, circularMean)
    ensures fresh(tack)
    ensures ok == TackAt(maneuvers, data, process, i).Some?
    ensures ok ==> tack.record == TackAt(maneuvers, data, process, i).value
  {
    var range := SliceAroundTime(data, maneuvers[i].start, RangeBeforeSeconds, RangeAfterSeconds);
    tack := new Tack(maneuvers[i].start, maneuvers[i].board.value);
    ok := tack.Process(range, circularMean);
  }

  /** `analyzeTacks(maneuvers, data)`: `tacks` holds the `Tack` objects pushed, and `ok` is false
      where the call throws. */
  method AnalyzeTacks(maneuvers: seq<Maneuver>, data: seq<Sample>, circularMean: CircularMean)
    returns (ok: bool, tacks: seq<Tack>)
    ensures ok == AnalyzeTacksSpec(maneuvers, data, circularMean).Some?
    ensures ok ==>
              var spec := AnalyzeTacksSpec(maneuvers, data, circularMean).value;
              |tacks| == |spec| && forall k :: 0 <= k < |tacks| ==> tacks[k].record == spec[k]
  {
    PhasesRunPhases(circularMean);
    ok, tacks := TackLoop(maneuvers, data, circularMean, Phases(circularMean));
  }

  /** The loop of `analyzeTacks`, for a `process` that runs the nine phases. */
  method TackLoop(maneuvers: seq<Maneuver>, data: seq<Sample>, circularMean: CircularMean, ghost process: Processor)
    returns (ok: bool, tacks: seq<Tack>)
    requires RunsPhases(process, circularMean)
    ensures ok == TacksBefore(maneuvers, data, process, |maneuvers|).Some?
    ensures ok ==>
              var spec := TacksBefore(maneuvers, data, process, |maneuvers|).value;
              |tacks| == |spec| && forall k :: 0 <= k < |tacks| ==> tacks[k].record == spec[k]
  {
    tacks := [];
    ghost var records: seq<TackRecord> := [];
    var i := 2;
    while i < |maneuvers|
      invariant 2 <= i && (i <= |maneuvers| || |maneuvers| < 2)
      invariant TacksBefore(maneuvers, data, process, Min(i, |maneuvers|)) == Some(records)
      invariant |tacks| == |records| && forall k :: 0 <= k < |tacks| ==> tacks[k].record == records[k]
    {
      var choice := ChoiceAt(maneuvers, i);
      if choice == Throw {
        ThrowIsFinal(maneuvers, data, process, i + 1);
        return false, tacks;
      }
      if choice == Take {
        var built, tack := BuildTack(maneuvers, data, circularMean, process, i);
        if !built {
          ThrowIsFinal(maneuvers, data, process, i + 1);
          return false, tacks;
        }
        BuildStep(maneuvers, data, process, i);
        tacks := tacks + [tack];
        records := records + [tack.record];
      } else {
        SkipStep(maneuvers, data, process, i);
      }
      i := i + 1;
    }
    ok := true;
  }
}
