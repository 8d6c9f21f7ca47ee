/** The `tack` object of `analyzeTacks` and the nine `tackUtils` phases that fill it in, each as a
    method that updates the object in place the way the source's loops do. Every phase is proved
    to leave behind exactly the record its `TackSpec` function describes, and to report failure
    (`ok == false`) exactly where the source would throw. */
module TackUtils {
  import opened Wrappers
  import opened Telemetry
  import opened Averaging
  import opened Slicing
  import opened Classifiers
  import opened TackSpec

  /** The mutable `tack` object the phases share. `record` holds its properties, one field per
      property; every phase reads and replaces some of them in place. */
  class Tack {
    var record: TackRecord

    /** `{time: centerTime, board: maneuvers[i].board, timing: {}, notes: []}` */
    constructor (time: Time, board: BoardLabel)
      ensures record == NewTack(time, board)
    {
      record := NewTack(time, board);
    }

    /** `findCenter`; `ok` is false where reading `data[centerIdx].lon` throws. */
    method FindCenter(data: seq<Sample>) returns (ok: bool)
      modifies this
      ensures ok == TackSpec.FindCenter(old(record), data).Some?
      ensures ok ==> record == TackSpec.FindCenter(old(record), data).value
    {
      var centerIdx: Option<int> := None;
      var j := 0;
      while j < |data|
        invariant 0 <= j <= |data|
        invariant forall k :: 0 <= k < j ==> data[k].t != record.time
      {
        if data[j].t == record.time {
          centerIdx := Some(j - 1);
          break;
        }
        j := j + 1;
      }
      if centerIdx.None? || centerIdx.value < 0 {
        return false;
      }
      record := record.(center := centerIdx.value);
      record := record.(position := PositionOf(data[record.center]));
      ok := true;
    }

    /** `findStart`; `ok` is false where reading `data[15].lon` throws. */
    method FindStart(data: seq<Sample>) returns (ok: bool)
      requires 0 <= record.center < |data|
      modifies this
      ensures ok == TackSpec.FindStart(old(record), data).Some?
      ensures ok ==> record == TackSpec.FindStart(old(record), data).value
    {
      var startIdx: Option<nat> := None;
      var j := record.center - StartLookback;
      while j >= 0
        invariant j <= record.center - StartLookback
        invariant -1 <= j || j == record.center - StartLookback
        invariant forall k :: j < k <= record.center - StartLookback ==> !Calm(data[k])
        decreases j + 1
      {
        if data[j].rot.Some? {
          if Abs(data[j].rot.value) < RotCalmLimit {
            startIdx := Some(j);
            break;
          }
        }
        j := j - 1;
      }
      assert startIdx == CalmBefore(data, record.center - StartLookback);
      if startIdx.Some? && startIdx.value != 0 {
        record := record.(start := startIdx.value);
      } else {
        record := record.(start := DefaultStartIndex);
        record := record.(notes := record.notes + [UsingDefaultStart]);
      }
      if record.start >= |data| {
        return false;
      }
      record := record.(startPosition := PositionOf(data[record.start]));
      ok := true;
    }

    /** `calculateEntrySpeeds`. */
    method CalculateEntrySpeeds(tackData: seq<Sample>, circularMean: CircularMean)
      requires 0 <= record.start < |tackData|
      modifies this
      ensures record == TackSpec.CalculateEntrySpeeds(old(record), tackData, circularMean)
    {
      var vmg, speed, twa, targetSpeedMean, targetAngleMean, hdgs := EntryAverages(tackData, record.start);
      var targetSpeed, targetAngle, notes := record.targetSpeed, record.targetAngle, record.notes;
      if Truthy(targetSpeedMean) {
        targetSpeed := targetSpeedMean;
        if speed.Some? && speed.value < targetSpeedMean.value * DownspeedRatio {
          notes := notes + [StartedDownspeed];
        }
      }
      if Truthy(targetAngleMean) {
        targetAngle := targetAngleMean;
      }
      ghost var w := EntryWindow(tackData, record.start);
      assert speed == Average(Present(w, Speed));
      assert targetSpeedMean == Average(Present(w, TargetSpeed));
      assert notes == if Truthy(targetSpeedMean) && BelowTarget(speed, targetSpeedMean)
                      then record.notes + [StartedDownspeed] else record.notes;
      record := record.(entryVmg := vmg, entrySpeed := speed, entryTwa := twa, entryHdg := circularMean(hdgs),
                        targetSpeed := targetSpeed, targetAngle := targetAngle, notes := notes);
    }

    /** `findEnd`; `ok` is false where the loop tests `'twa' in data[j]` past the window. */
    method FindEnd(data: seq<Sample>) returns (ok: bool)
      requires 0 <= record.center < |data|
      modifies this
      ensures ok == TackSpec.FindEnd(old(record), data).Some?
      ensures ok ==> record == TackSpec.FindEnd(old(record), data).value
    {
      var center := record.center;
      var minIdx: nat := center;
      var findMax := record.board == UpPort;
      findMax := !findMax;
      var j := center;
      while j < center + EndLookahead
        invariant center <= j <= center + EndLookahead
        invariant j <= |data|
        invariant minIdx == EndFold(data, findMax, center, j)
      {
        if j >= |data| {
          return false;
        }
        if data[j].twa.Some? {
          if data[minIdx].twa.None? {
            minIdx := j;
          }
          if findMax {
            if data[j].twa.value > data[minIdx].twa.value {
              minIdx := j;
            }
          } else {
            if data[j].twa.value < data[minIdx].twa.value {
              minIdx := j;
            }
          }
        }
        j := j + 1;
      }
      record := record.(end := minIdx);
      record := record.(maxTwa := data[record.end].twa);
      record := record.(endPosition := PositionOf(data[record.end]));
      ok := true;
    }

    /** `findRecoveryTime`. The found index is kept apart from the property until the falsy test,
        since the property is `undefined` when nothing is found. */
    method FindRecoveryTime(data: seq<Sample>)
      requires 0 <= record.end
      modifies this
      ensures record == TackSpec.FindRecoveryTime(old(record), data)
    {
      var entryVmg := record.entryVmg;
      var found: Option<nat> := None;
      var j := record.end + RecoverySkip;
      while j < |data|
        invariant record.end + RecoverySkip <= j
        invariant j <= |data| || j == record.end + RecoverySkip
        invariant forall k :: record.end + RecoverySkip <= k < j ==> !Recovers(data[k], entryVmg)
        decreases |data| - j
      {
        if data[j].vmg.Some? && entryVmg.Some? && entryVmg.value <= data[j].vmg.value {
          found := Some(j);
          break;
        }
        j := j + 1;
      }
      assert found == FirstRecovery(data, entryVmg, record.end + RecoverySkip);
      if found.Some? && found.value != 0 {
        record := record.(recovered := found.value);
      } else {
        record := record.(recovered := record.center + RecoveryFallback);
        record := record.(notes := record.notes + [NeverFoundRecovery]);
      }
    }

    /** `findRecoveryMetrics`. */
    method FindRecoveryMetrics(data: seq<Sample>, circularMean: CircularMean)
      requires 0 <= record.recovered
      modifies this
      ensures record == TackSpec.FindRecoveryMetrics(old(record), data, circularMean)
    {
      var maxIdx := Min(record.recovered + RecoveryWindow, |data|);
      var twa, speed, hdgs := RecoveryMeans(data, record.recovered, maxIdx);
      ghost var w := RecoveryWindowOf(data, record.recovered);
      assert speed == Average(Present(w, Speed)) && twa == Average(Present(w, Twa)) && hdgs == Present(w, Hdg);
      var targetSpeed := record.targetSpeed;
      var notes := record.notes;
      if Truthy(targetSpeed) && speed.Some? && speed.value < targetSpeed.value * DownspeedRatio {
        notes := notes + [NeverBackUpToSpeed];
      }
      assert notes == if Truthy(targetSpeed) && BelowTarget(speed, targetSpeed)
                      then record.notes + [NeverBackUpToSpeed] else record.notes;
      record := record.(recoveryTwa := twa, recoveryHdg := circularMean(hdgs), recoverySpeed := speed,
                        notes := notes);
    }

    /** `convertIndexesToTimes`; `ok` is false where `data[index].t` is read past the window. */
    method ConvertIndexesToTimes(data: seq<Sample>) returns (ok: bool)
      requires 0 <= record.center && 0 <= record.start && 0 <= record.end && 0 <= record.recovered
      modifies this
      ensures ok == TackSpec.ConvertIndexesToTimes(old(record), data).Some?
      ensures ok ==> record == TackSpec.ConvertIndexesToTimes(old(record), data).value
    {
      var r := record;
      if r.center >= |data| || r.start >= |data| || r.end >= |data| || r.recovered >= |data| {
        return false;
      }
      record := r.(center := data[r.center].t, start := data[r.start].t,
                   end := data[r.end].t, recovered := data[r.recovered].t);
      ok := true;
    }

    /** `calculateLoss`. */
    method CalculateLoss(data: seq<Sample>)
      modifies this
      ensures record == TackSpec.CalculateLoss(old(record), data)
    {
      var start, recovered := record.start, record.recovered;
      var window := InTimeRange(data, start, recovered);
      var covered := Covered(window);
      ghost var spec := TackSpec.CalculateLoss(record, data);
      assert spec == record.(loss := LossFrom(record.entryVmg, start, recovered, covered));
      var loss: Option<real> := None;
      match record.entryVmg {
        case Some(entryVmg) =>
          var ideal := entryVmg * ((recovered - start) as real / MsPerSecond as real);
          loss := Some(-FeetPerKnotSecond * (ideal - covered));
          assert loss.value == LossFrom(record.entryVmg, start, recovered, covered).value;
        case None =>
      }
      record := record.(loss := loss);
    }

    /** `addClassificationStats`. */
    method AddClassificationStats(data: seq<Sample>, circularMean: CircularMean)
      requires 0 <= record.start <= |data|
      modifies this
      ensures record == TackSpec.AddClassificationStats(old(record), data, circularMean)
    {
      var twsSum, twsCount, twds := WindSums(data, record.start);
      // 0 / 0 is NaN in the source.
      record := record.(tws := if twsCount != 0 then Some(twsSum / (twsCount as real)) else None);
      record := record.(twd := circularMean(twds));
    }

    /** Phases 5 to 7: recovery time, recovery metrics and the wind baseline. */
    method RecoveryPhases(range: seq<Sample>, circularMean: CircularMean)
      requires 0 <= record.center <= record.end < record.center + EndLookahead
      requires 0 <= record.start <= |range|
      modifies this
      ensures record == TackSpec.RecoveryPhases(old(record), range, circularMean)
    {
      FindRecoveryTime(range);
      FindRecoveryMetrics(range, circularMean);
      AddClassificationStats(range, circularMean);
    }

    /** Phases 3 and 4: entry speeds, then the end. */
    method EntryAndEndPhases(range: seq<Sample>, circularMean: CircularMean) returns (ok: bool)
      requires 0 <= record.center < |range| - 1 && 0 < record.start < |range|
      modifies this
      ensures ok == TackSpec.EntryAndEndPhases(old(record), range, circularMean).Some?
      ensures ok ==> record == TackSpec.EntryAndEndPhases(old(record), range, circularMean).value
    {
      CalculateEntrySpeeds(range, circularMean);
      ok := FindEnd(range);
    }

    /** Phases 2 to 7, once the center is known. */
    method AfterCenter(range: seq<Sample>, circularMean: CircularMean) returns (ok: bool)
      requires 0 <= record.center < |range| - 1
      modifies this
      ensures ok == TackSpec.AfterCenter(old(record), range, circularMean).Some?
      ensures ok ==> record == TackSpec.AfterCenter(old(record), range, circularMean).value
    {
      ghost var r1 := record;
      ok := FindStart(range);
      if !ok {
        return;
      }
      ghost var r2 := record;
      ok := EntryAndEndPhases(range, circularMean);
      if !ok {
        assert TackSpec.AfterCenter(r1, range, circularMean).None?;
        return;
      }
      ghost var r4 := record;
      RecoveryPhases(range, circularMean);
      assert TackSpec.AfterCenter(r1, range, circularMean) == Some(TackSpec.RecoveryPhases(r4, range, circularMean));
    }

    /** Phases 1 to 7, whose timing values are still window indices. */
    method IndexPhases(range: seq<Sample>, circularMean: CircularMean) returns (ok: bool)
      modifies this
      ensures ok == TackSpec.IndexPhases(old(record), range, circularMean).Some?
      ensures ok ==> record == TackSpec.IndexPhases(old(record), range, circularMean).value
    {
      ok := FindCenter(range);
      if !ok {
        return;
      }
      ok := AfterCenter(range, circularMean);
    }

    /** The steps `analyzeTacks` runs on each tack, in order; `ok` is false where one of
        them throws. */
    method Process(range: seq<Sample>, circularMean: CircularMean) returns (ok: bool)
      modifies this
      ensures ok == TackSpec.ProcessTack(old(record), range, circularMean).Some?
      ensures ok ==> record == TackSpec.ProcessTack(old(record), range, circularMean).value
    {
      ok := IndexPhases(range, circularMean);
      if !ok {
        return;
      }
      ok := ConvertIndexesToTimes(range);
      if !ok {
        return;
      }
      CalculateLoss(range);
    }
  }

  /** `if ('f' in data[j]) average.update(data[j].f)`. */
  method UpdateIfPresent(average: Mean, value: Option<real>)
    requires average.Valid()
    modifies average
    ensures average.Valid() && average.values == old(average.values) + AsSeq(value)
  {
    if value.Some? {
      average.Update(value.value);
    }
  }

  /** `average` has been fed exactly the values of field `f` present in `data`. */
  ghost predicate Tracks(average: Mean, data: seq<Sample>, f: Field)
    reads average
  {
    average.Valid() && average.values == Present(data, f)
  }

  /** The state of `calculateEntrySpeeds`'s loop after the samples `seen`: each of the five means
      has been fed the values of its field present in `seen`, and `hdgs` holds the headings. */
  ghost predicate EntryTracks(averageVmg: Mean, averageSpeed: Mean, averageTwa: Mean, averageTgtSpd: Mean,
                              averageTargetTwa: Mean, hdgs: seq<real>, seen: seq<Sample>)
    reads averageVmg, averageSpeed, averageTwa, averageTgtSpd, averageTargetTwa
  {
    && Tracks(averageVmg, seen, Vmg) && Tracks(averageSpeed, seen, Speed)
    && Tracks(averageTwa, seen, Twa) && Tracks(averageTgtSpd, seen, TargetSpeed)
    && Tracks(averageTargetTwa, seen, TargetAngle) && hdgs == Present(seen, Hdg)
  }

  /** Feeds one sample's field `f`, when present, to a mean that tracks `f` over `seen`. */
  method FeedOne(average: Mean, ghost seen: seq<Sample>, s: Sample, f: Field)
    requires Tracks(average, seen, f)
    modifies average
    ensures Tracks(average, seen + [s], f)
  {
    PresentAppend(seen, s, f);
    UpdateIfPresent(average, Get(s, f));
  }

  /** Five different means. */
  predicate Distinct(a: Mean, b: Mean, c: Mean, d: Mean, e: Mean)
  {
    a != b && a != c && a != d && a != e && b != c && b != d && b != e && c != d && c != e && d != e
  }

  /** One pass of `calculateEntrySpeeds`'s loop body. */
  method FeedEntrySample(averageVmg: Mean, averageSpeed: Mean, averageTwa: Mean, averageTgtSpd: Mean,
                         averageTargetTwa: Mean, hdgs: seq<real>, ghost seen: seq<Sample>, s: Sample)
    returns (hdgs': seq<real>)
    requires Tracks(averageVmg, seen, Vmg) && Tracks(averageSpeed, seen, Speed)
    requires Tracks(averageTwa, seen, Twa) && Tracks(averageTgtSpd, seen, TargetSpeed)
    requires Tracks(averageTargetTwa, seen, TargetAngle) && hdgs == Present(seen, Hdg)
    requires Distinct(averageVmg, averageSpeed, averageTwa, averageTgtSpd, averageTargetTwa)
    modifies averageVmg, averageSpeed, averageTwa, averageTgtSpd, averageTargetTwa
    ensures Tracks(averageVmg, seen + [s], Vmg) && Tracks(averageSpeed, seen + [s], Speed)
    ensures Tracks(averageTwa, seen + [s], Twa) && Tracks(averageTgtSpd, seen + [s], TargetSpeed)
    ensures Tracks(averageTargetTwa, seen + [s], TargetAngle) && hdgs' == Present(seen + [s], Hdg)
  {
    FeedOne(averageVmg, seen, s, Vmg);
    FeedOne(averageSpeed, seen, s, Speed);
    FeedOne(averageTwa, seen, s, Twa);
    FeedOne(averageTgtSpd, seen, s, TargetSpeed);
    PresentAppend(seen, s, Hdg);
    hdgs' := if s.hdg.Some? then hdgs + [s.hdg.value] else hdgs;
    FeedOne(averageTargetTwa, seen, s, TargetAngle);
  }

  /** The loop of `calculateEntrySpeeds` over the entry window: one `mean()` per averaged field,
      each fed only by the samples that have the field, and the headings collected for the
      circular mean. */
  method FeedEntryWindow(averageVmg: Mean, averageSpeed: Mean, averageTwa: Mean, averageTgtSpd: Mean,
                         averageTargetTwa: Mean, data: seq<Sample>)
    returns (hdgs: seq<real>)
    requires Tracks(averageVmg, [], Vmg) && Tracks(averageSpeed, [], Speed)
    requires Tracks(averageTwa, [], Twa) && Tracks(averageTgtSpd, [], TargetSpeed)
    requires Tracks(averageTargetTwa, [], TargetAngle)
    requires Distinct(averageVmg, averageSpeed, averageTwa, averageTgtSpd, averageTargetTwa)
    modifies averageVmg, averageSpeed, averageTwa, averageTgtSpd, averageTargetTwa
    ensures Tracks(averageVmg, data, Vmg) && Tracks(averageSpeed, data, Speed)
    ensures Tracks(averageTwa, data, Twa) && Tracks(averageTgtSpd, data, TargetSpeed)
    ensures Tracks(averageTargetTwa, data, TargetAngle) && hdgs == Present(data, Hdg)
  {
    hdgs := [];
    var j := 0;
    while j < |data|
      invariant 0 <= j <= |data|
      invariant EntryTracks(averageVmg, averageSpeed, averageTwa, averageTgtSpd, averageTargetTwa, hdgs, data[..j])
    {
      assert data[..j + 1] == data[..j] + [data[j]];
      hdgs := FeedEntrySample(averageVmg, averageSpeed, averageTwa, averageTgtSpd, averageTargetTwa,
                              hdgs, data[..j], data[j]);
      j := j + 1;
    }
    assert data[..j] == data;
  }

  /** `calculateEntrySpeeds`'s five means and headings over the window `data`. */
  method EntryMeans(data: seq<Sample>)
    returns (vmg: Option<real>, speed: Option<real>, twa: Option<real>, targetSpeed: Option<real>,
             targetAngle: Option<real>, hdgs: seq<real>)
    ensures vmg == Average(Present(data, Vmg)) && speed == Average(Present(data, Speed))
    ensures twa == Average(Present(data, Twa)) && targetSpeed == Average(Present(data, TargetSpeed))
    ensures targetAngle == Average(Present(data, TargetAngle)) && hdgs == Present(data, Hdg)
  {
    var averageSpeed := new Mean();
    var averageTwa := new Mean();
    var averageVmg := new Mean();
    var averageTargetTwa := new Mean();
    var averageTgtSpd := new Mean();
    hdgs := FeedEntryWindow(averageVmg, averageSpeed, averageTwa, averageTgtSpd, averageTargetTwa, data);
    vmg := averageVmg.Result();
    speed := averageSpeed.Result();
    twa := averageTwa.Result();
    targetSpeed := averageTgtSpd.Result();
    targetAngle := averageTargetTwa.Result();
  }

  /** The entry window of `calculateEntrySpeeds`, from 6 to 2 seconds before the start sample,
      and the means taken over it. */
  method EntryAverages(tackData: seq<Sample>, start: nat)
    returns (vmg: Option<real>, speed: Option<real>, twa: Option<real>, targetSpeed: Option<real>,
             targetAngle: Option<real>, hdgs: seq<real>)
    requires start < |tackData|
    ensures var w := EntryWindow(tackData, start);
            && vmg == Average(Present(w, Vmg)) && speed == Average(Present(w, Speed))
            && twa == Average(Present(w, Twa)) && targetSpeed == Average(Present(w, TargetSpeed))
            && targetAngle == Average(Present(w, TargetAngle)) && hdgs == Present(w, Hdg)
  {
    var startTime := tackData[start].t - EntryFromSeconds * MsPerSecond;
    var endTime := tackData[start].t - EntryToSeconds * MsPerSecond;
    var data := SliceBetweenTimes(tackData, startTime, endTime);
    assert data == EntryWindow(tackData, start);
    vmg, speed, twa, targetSpeed, targetAngle, hdgs := EntryMeans(data);
  }

  /** The state of `findRecoveryMetrics`'s loop after the samples `seen`. */
  ghost predicate RecoveryTracks(averageTwa: Mean, averageSpeed: Mean, hdgs: seq<real>, seen: seq<Sample>)
    reads averageTwa, averageSpeed
  {
    Tracks(averageTwa, seen, Twa) && Tracks(averageSpeed, seen, Speed) && hdgs == Present(seen, Hdg)
  }

  /** One pass of `findRecoveryMetrics`'s loop body. */
  method FeedRecoverySample(averageTwa: Mean, averageSpeed: Mean, hdgs: seq<real>, ghost seen: seq<Sample>, s: Sample)
    returns (hdgs': seq<real>)
    requires averageTwa != averageSpeed
    requires Tracks(averageTwa, seen, Twa) && Tracks(averageSpeed, seen, Speed) && hdgs == Present(seen, Hdg)
    modifies averageTwa, averageSpeed
    ensures Tracks(averageTwa, seen + [s], Twa) && Tracks(averageSpeed, seen + [s], Speed)
    ensures hdgs' == Present(seen + [s], Hdg)
  {
    FeedOne(averageTwa, seen, s, Twa);
    PresentAppend(seen, s, Hdg);
    hdgs' := if s.hdg.Some? then hdgs + [s.hdg.value] else hdgs;
    FeedOne(averageSpeed, seen, s, Speed);
  }

  /** The loop of `findRecoveryMetrics` over the samples of its window, feeding two means. */
  method FeedRecoveryWindow(averageTwa: Mean, averageSpeed: Mean, window: seq<Sample>)
    returns (hdgs: seq<real>)
    requires averageTwa != averageSpeed
    requires Tracks(averageTwa, [], Twa) && Tracks(averageSpeed, [], Speed)
    modifies averageTwa, averageSpeed
    ensures Tracks(averageTwa, window, Twa) && Tracks(averageSpeed, window, Speed)
    ensures hdgs == Present(window, Hdg)
  {
    hdgs := [];
    var j := 0;
    while j < |window|
      invariant 0 <= j <= |window|
      invariant RecoveryTracks(averageTwa, averageSpeed, hdgs, window[..j])
    {
      assert window[..j + 1] == window[..j] + [window[j]];
      hdgs := FeedRecoverySample(averageTwa, averageSpeed, hdgs, window[..j], window[j]);
      j := j + 1;
    }
    assert window[..j] == window;
  }

  /** The means `findRecoveryMetrics` takes over the indices `lo .. hi - 1`; an empty or
      inverted range leaves them undefined. */
  method RecoveryMeans(data: seq<Sample>, lo: int, hi: int)
    returns (twa: Option<real>, speed: Option<real>, hdgs: seq<real>)
    requires 0 <= lo && hi <= |data|
    ensures twa == Average(Present(Between(data, lo, hi), Twa))
    ensures speed == Average(Present(Between(data, lo, hi), Speed))
    ensures hdgs == Present(Between(data, lo, hi), Hdg)
  {
    var averageSpeed := new Mean();
    var averageTwa := new Mean();
    hdgs := [];
    if lo < hi {
      hdgs := FeedRecoveryWindow(averageTwa, averageSpeed, data[lo..hi]);
    }
    twa := averageTwa.Result();
    speed := averageSpeed.Result();
  }

  /** The `.each` of `calculateLoss`: `covered` integrates each VMG-bearing sample's own VMG over
      the seconds since the previous VMG-bearing one. */
  method Covered(w: seq<Sample>) returns (covered: real)
    ensures covered == LossFold(w).covered
  {
    var lastTime: Time := 0;
    covered := 0.0;
    for j := 0 to |w|
      invariant LossAcc(lastTime, covered) == LossFold(w[..j])
    {
      assert w[..j + 1][..j] == w[..j];
      var m := w[j];
      if m.vmg.Some? {
        if lastTime != 0 {
          covered := covered + ((m.t - lastTime) as real / MsPerSecond as real) * m.vmg.value;
        }
        lastTime := m.t;
      }
    }
    assert w[..|w|] == w;
  }

  /** The loop of `addClassificationStats` over the samples before the start. */
  method WindSums(data: seq<Sample>, start: int) returns (twsSum: real, twsCount: nat, twds: seq<real>)
    requires 0 <= start <= |data|
    ensures twsSum == Sum(Present(data[..start], Tws)) && twsCount == |Present(data[..start], Tws)|
    ensures twds == Present(data[..start], Twd)
  {
    twsSum, twsCount, twds := 0.0, 0, [];
    for j := 0 to start
      invariant twsSum == Sum(Present(data[..j], Tws)) && twsCount == |Present(data[..j], Tws)|
      invariant twds == Present(data[..j], Twd)
    {
      PresentStep(data, j, Tws);
      PresentStep(data, j, Twd);
      assert Get(data[j], Tws) == data[j].tws && Get(data[j], Twd) == data[j].twd;
      if data[j].tws.Some? {
        assert Present(data[..j + 1], Tws) == Present(data[..j], Tws) + [data[j].tws.value];
        SumAppend(Present(data[..j], Tws), data[j].tws.value);
        twsSum := twsSum + data[j].tws.value;
        twsCount := twsCount + 1;
      } else {
        assert Present(data[..j + 1], Tws) == Present(data[..j], Tws);
      }
      if data[j].twd.Some? {
        twds := twds + [data[j].twd.value];
      }
    }
  }
}
