/** A replay session: it feeds one engine from a list or from raw records, checks time, and sums up. */
module Replay {
  import opened Types
  import opened Merge
  import opened Simulator
  import Book
  import EngineMatch

  datatype Config = Config(requireMonotonic: bool, failFast: bool)

  datatype RunSummary = RunSummary(
    rawEvents: nat, normalizedEvents: nat, engineUpdates: nat, adapterFailures: nat,
    range: Option<(int, int)>)

  const NOTHING: RunSummary := RunSummary(0, 0, 0, 0, None)

  /** Whether the session takes up an event after one of time `last`. */
  predicate Takes(last: Option<int>, cfg: Config, ts: int) {
    ts >= 0 && (cfg.requireMonotonic && last.Some? ==> ts >= last.value)
  }

  /** The events a run feeds the engine, and whether it ends with an exception. */
  datatype Course = Course(fed: seq<Timed>, failures: nat, threw: bool)

  /** The course of a run over raw records: unusable ones are skipped, or fatal; events out of time are fatal. */
  function CourseOf<R>(last: Option<int>, cfg: Config, raws: seq<R>, normalize: R -> Option<Timed>): Course
    decreases |raws|
  {
    if raws == [] then Course([], 0, false)
    else match normalize(raws[0]) {
      case None =>
        if cfg.failFast then Course([], 1, true)
        else var c := CourseOf(last, cfg, raws[1..], normalize); c.(failures := c.failures + 1)
      case Some(ev) =>
        if !Takes(last, cfg, ev.ts) then Course([], 0, true)
        else var c := CourseOf(Some(ev.ts), cfg, raws[1..], normalize); c.(fed := [ev] + c.fed)
    }
  }

  function Events(fed: seq<Timed>): (r: seq<Event>)
    ensures |r| == |fed|
  {
    seq(|fed|, i requires 0 <= i < |fed| => fed[i].event)
  }

  function LastTs(last: Option<int>, fed: seq<Timed>): Option<int> {
    if fed == [] then last else Some(fed[|fed| - 1].ts)
  }

  /** An already normalized event is its own reading. */
  function Same(ev: Timed): Option<Timed> {
    Some(ev)
  }

  // ---- what a course is ---------------------------------------------------------------------

  ghost predicate InTime(last: Option<int>, cfg: Config, events: seq<Timed>) {
    && (forall i :: 0 <= i < |events| ==> events[i].ts >= 0)
    && (cfg.requireMonotonic ==>
          && (last.Some? ==> forall i :: 0 <= i < |events| ==> last.value <= events[i].ts)
          && (forall i, j :: 0 <= i < j < |events| ==> events[i].ts <= events[j].ts))
  }

  /** A session feeds a whole list, without exception, if and only if the list is in time. */
  lemma {:induction false} WholeCourse(last: Option<int>, cfg: Config, events: seq<Timed>)
    ensures var c := CourseOf(last, cfg, events, Same);
            && (c.threw <==> !InTime(last, cfg, events))
            && |c.fed| <= |events| && c.fed == events[..|c.fed|]
            && (c.threw <==> |c.fed| < |events|) && c.failures == 0
    decreases |events|
  {
    if events != [] {
      var ts := events[0].ts;
      if Takes(last, cfg, ts) {
        WholeCourse(Some(ts), cfg, events[1..]);
        InTimeNext(last, cfg, events);
        var c := CourseOf(Some(ts), cfg, events[1..], Same);
        assert CourseOf(last, cfg, events, Same).fed == [events[0]] + c.fed;
        assert events[..|c.fed| + 1] == [events[0]] + events[1..][..|c.fed|];
      }
    }
  }

  lemma InTimeNext(last: Option<int>, cfg: Config, events: seq<Timed>)
    requires events != [] && Takes(last, cfg, events[0].ts)
    ensures InTime(last, cfg, events) <==> InTime(Some(events[0].ts), cfg, events[1..])
  {
    var rest := events[1..];
    forall i | 1 <= i < |events| ensures events[i] == rest[i - 1] {
    }
    if InTime(Some(events[0].ts), cfg, rest) {
      forall i, j | 0 <= i < j < |events| && cfg.requireMonotonic ensures events[i].ts <= events[j].ts {
        if i > 0 {
          assert rest[i - 1].ts <= rest[j - 1].ts;
        }
      }
    }
    if InTime(last, cfg, events) {
      forall i, j | 0 <= i < j < |rest| && cfg.requireMonotonic ensures rest[i].ts <= rest[j].ts {
        assert events[i + 1].ts <= events[j + 1].ts;
      }
    }
  }

  /** What is fed is always in time, and every raw record is fed or counted as a failure unless the run breaks off. */
  lemma {:induction false} CourseFacts<R>(last: Option<int>, cfg: Config, raws: seq<R>, normalize: R -> Option<Timed>)
    ensures var c := CourseOf(last, cfg, raws, normalize);
            && InTime(last, cfg, c.fed)
            && |c.fed| + c.failures <= |raws|
            && (!c.threw ==> |c.fed| + c.failures == |raws|)
            && (cfg.failFast && !c.threw ==> c.failures == 0)
    decreases |raws|
  {
    if raws != [] {
      match normalize(raws[0]) {
        case None =>
          CourseFacts(last, cfg, raws[1..], normalize);
        case Some(ev) =>
          if Takes(last, cfg, ev.ts) {
            CourseFacts(Some(ev.ts), cfg, raws[1..], normalize);
            var c := CourseOf(last, cfg, raws, normalize);
            assert c.fed[1..] == CourseOf(Some(ev.ts), cfg, raws[1..], normalize).fed;
            InTimeNext(last, cfg, c.fed);
          }
      }
    }
  }

  /** What the adapter makes of raw records, the unusable ones left out. */
  function Readings<R>(raws: seq<R>, normalize: R -> Option<Timed>): seq<Timed> {
    if raws == [] then []
    else
      var ev := normalize(raws[0]);
      (if ev.Some? then [ev.value] else []) + Readings(raws[1..], normalize)
  }

  /** A run gets through these records: their readings are in time, and none is unusable if that is fatal. */
  ghost predicate Passes<R>(last: Option<int>, cfg: Config, raws: seq<R>, normalize: R -> Option<Timed>) {
    InTime(last, cfg, Readings(raws, normalize)) && (cfg.failFast ==> |Readings(raws, normalize)| == |raws|)
  }

  /**
   * The course of a run over raw records: it feeds the readings of the longest prefix that passes,
   * and it breaks off if and only if that is not all of them.
   */
  lemma {:induction false} CourseReads<R>(last: Option<int>, cfg: Config, raws: seq<R>,
                                          normalize: R -> Option<Timed>) returns (k: nat)
    ensures var c := CourseOf(last, cfg, raws, normalize);
            && k <= |raws| && (c.threw <==> k < |raws|)
            && c.fed == Readings(raws[..k], normalize)
            && c.failures == k - |c.fed| + (if k < |raws| && normalize(raws[k]).None? then 1 else 0)
            && Passes(last, cfg, raws[..k], normalize)
            && (k < |raws| ==> !Passes(last, cfg, raws[..k + 1], normalize))
    decreases |raws|
  {
    hide InTime;
    k := 0;
    NothingPasses(last, cfg, normalize);
    assert raws[..0] == [];
    if raws != [] {
      var first := normalize(raws[0]);
      FirstPasses(last, cfg, raws, 1, normalize);
      assert raws[1..][..0] == [];
      if if first.None? then !cfg.failFast else Takes(last, cfg, first.value.ts) {
        var now := if first.None? then last else Some(first.value.ts);
        NothingPasses(now, cfg, normalize);
        k := CourseReads(now, cfg, raws[1..], normalize);
        FirstPasses(last, cfg, raws, k + 1, normalize);
        if k + 1 < |raws| {
          FirstPasses(last, cfg, raws, k + 2, normalize);
        }
        k := k + 1;
      }
    }
  }

  lemma NothingPasses<R>(last: Option<int>, cfg: Config, normalize: R -> Option<Timed>)
    ensures Passes(last, cfg, [], normalize)
  {
  }

  /** The first of some records decides about itself, and leaves the rest to its time. */
  lemma FirstPasses<R>(last: Option<int>, cfg: Config, raws: seq<R>, n: nat, normalize: R -> Option<Timed>)
    requires 0 < n <= |raws|
    ensures var first := normalize(raws[0]);
            var more := raws[1..][..n - 1];
            && Readings(raws[..n], normalize)
               == (if first.Some? then [first.value] else []) + Readings(more, normalize)
            && |Readings(more, normalize)| <= n - 1
            && (Passes(last, cfg, raws[..n], normalize) <==>
                  if first.None? then !cfg.failFast && Passes(last, cfg, more, normalize)
                  else Takes(last, cfg, first.value.ts) && Passes(Some(first.value.ts), cfg, more, normalize))
  {
    var first := normalize(raws[0]);
    var more := raws[1..][..n - 1];
    assert raws[..n][1..] == more && raws[..n][0] == raws[0];
    ReadingsFewer(more, normalize);
    var readings := Readings(raws[..n], normalize);
    if first.Some? {
      assert readings[0] == first.value && readings[1..] == Readings(more, normalize);
      if Takes(last, cfg, first.value.ts) {
        InTimeNext(last, cfg, readings);
      }
    } else {
      assert [] + Readings(more, normalize) == Readings(more, normalize);
    }
  }

  lemma {:induction false} ReadingsFewer<R>(raws: seq<R>, normalize: R -> Option<Timed>)
    ensures |Readings(raws, normalize)| <= |raws|
    decreases |raws|
  {
    if raws != [] {
      ReadingsFewer(raws[1..], normalize);
    }
  }

  // ---- the summary --------------------------------------------------------------------------

  function Widened(range: Option<(int, int)>, ts: int): Option<(int, int)> {
    if range.None? then Some((ts, ts)) else Some((Min(range.value.0, ts), Max(range.value.1, ts)))
  }

  function RangeOf(fed: seq<Timed>): Option<(int, int)> {
    if fed == [] then None else Widened(RangeOf(fed[..|fed| - 1]), fed[|fed| - 1].ts)
  }

  lemma {:induction false} RangeNext(fed: seq<Timed>, ev: Timed)
    ensures RangeOf(fed + [ev]) == Widened(RangeOf(fed), ev.ts)
  {
    assert (fed + [ev])[..|fed|] == fed;
  }

  ghost predicate At(fed: seq<Timed>, ts: int) {
    exists i :: 0 <= i < |fed| && fed[i].ts == ts
  }

  /** The range is that of the times fed: both ends occur, and nothing lies outside. */
  lemma {:induction false} RangeMeans(fed: seq<Timed>)
    ensures RangeOf(fed).None? <==> fed == []
    ensures fed != [] ==>
              var r := RangeOf(fed).value;
              && At(fed, r.0) && At(fed, r.1)
              && forall i :: 0 <= i < |fed| ==> r.0 <= fed[i].ts <= r.1
  {
    if fed != [] {
      var before := fed[..|fed| - 1];
      RangeMeans(before);
      assert fed[|fed| - 1].ts == fed[|fed| - 1].ts && At(fed, fed[|fed| - 1].ts);
      if before != [] {
        Longer(before, fed, RangeOf(before).value.0);
        Longer(before, fed, RangeOf(before).value.1);
      }
      forall i | 0 <= i < |before| ensures before[i] == fed[i] {
      }
    }
  }

  lemma Longer(before: seq<Timed>, fed: seq<Timed>, ts: int)
    requires |before| < |fed| && before == fed[..|before|] && At(before, ts)
    ensures At(fed, ts)
  {
    var i :| 0 <= i < |before| && before[i].ts == ts;
    assert fed[i].ts == ts;
  }

  /** With the time check on, a run's range is from its first event to its last. */
  lemma {:induction false} OrderedRange(last: Option<int>, cfg: Config, fed: seq<Timed>)
    requires InTime(last, cfg, fed) && cfg.requireMonotonic && fed != []
    ensures RangeOf(fed) == Some((fed[0].ts, fed[|fed| - 1].ts))
  {
    RangeMeans(fed);
    var r := RangeOf(fed).value;
    var i :| 0 <= i < |fed| && fed[i].ts == r.0;
    var j :| 0 <= j < |fed| && fed[j].ts == r.1;
    assert i > 0 ==> fed[0].ts <= fed[i].ts;
    assert j < |fed| - 1 ==> fed[j].ts <= fed[|fed| - 1].ts;
  }

  // ---- the session --------------------------------------------------------------------------

  lemma {:induction false} CourseNext<R>(last: Option<int>, cfg: Config, raws: seq<R>, normalize: R -> Option<Timed>,
                                         i: nat, fed: seq<Timed>, failures: nat, now: Option<int>)
    requires i < |raws|
    requires OnCourse(CourseOf(last, cfg, raws, normalize), fed, failures, CourseOf(now, cfg, raws[i..], normalize))
    ensures var c := CourseOf(last, cfg, raws, normalize);
            var ev := normalize(raws[i]);
            if ev.None? then
              if cfg.failFast then c == Course(fed, failures + 1, true)
              else OnCourse(c, fed, failures + 1, CourseOf(now, cfg, raws[i + 1..], normalize))
            else if !Takes(now, cfg, ev.value.ts) then c == Course(fed, failures, true)
            else
              OnCourse(c, fed + [ev.value], failures, CourseOf(Some(ev.value.ts), cfg, raws[i + 1..], normalize))
  {
    assert raws[i..][0] == raws[i] && raws[i..][1..] == raws[i + 1..];
    assert fed + [] == fed;
    if normalize(raws[i]).Some? {
      var ev := normalize(raws[i]).value;
      var rest := CourseOf(Some(ev.ts), cfg, raws[i + 1..], normalize).fed;
      assert fed + ([ev] + rest) == (fed + [ev]) + rest;
    }
  }

  /** So far the run has fed `fed`; `rest` is still to come. */
  ghost predicate OnCourse(whole: Course, fed: seq<Timed>, failures: nat, rest: Course) {
    whole == Course(fed + rest.fed, failures + rest.failures, rest.threw)
  }

  class ReplaySession {
    const engine: PaperTradingSimulator
    var cfg: Config
    var lastTs: Option<int>

    constructor (engine: PaperTradingSimulator, cfg: Config)
      ensures this.engine == engine && this.cfg == cfg && lastTs == None
    {
      this.engine, this.cfg, lastTs := engine, cfg, None;
    }

    /** The engine has run these events since a state and a log. */
    ghost predicate HasFed(st0: Book.State, log0: seq<Record>, fed: seq<Timed>)
      reads engine, engine.orderPool, engine.paperPool
    {
      var r := Book.Run(engine.caps, st0, Events(fed));
      engine.Valid() && engine.st == r.0 && engine.log == log0 + r.1
    }

    /** One event: it is refused for its time, or the engine takes it. */
    method Step(ev: Timed, ghost st0: Book.State, ghost log0: seq<Record>, ghost fed: seq<Timed>) returns (threw: bool)
      requires HasFed(st0, log0, fed)
      modifies this`lastTs, engine, engine.orderPool, engine.paperPool
      ensures threw <==> !Takes(old(lastTs), cfg, ev.ts)
      ensures threw ==> HasFed(st0, log0, fed) && lastTs == old(lastTs)
      ensures !threw ==> HasFed(st0, log0, fed + [ev]) && lastTs == Some(ev.ts)
    {
      hide PaperTradingSimulator.Valid, Book.Run, Book.Step;
      if ev.ts < 0 {
        return true;
      }
      if cfg.requireMonotonic && lastTs.Some? && ev.ts < lastTs.value {
        return true;
      }
      lastTs := Some(ev.ts);
      EngineMatch.RunNext(engine.caps, st0, Events(fed), ev.event);
      assert Events(fed + [ev]) == Events(fed) + [ev.event];
      engine.Update(ev.event);
      return false;
    }

    lemma NothingFed()
      requires engine.Valid()
      ensures HasFed(engine.st, engine.log, [])
    {
      hide PaperTradingSimulator.Valid;
      EngineMatch.RunNone(engine.caps, engine.st);
      assert engine.log + [] == engine.log;
    }

    /** Feeds the engine a list of events. */
    method Run(events: seq<Timed>, cfg: Config) returns (summary: RunSummary, threw: bool)
      requires engine.Valid()
      modifies this, engine, engine.orderPool, engine.paperPool
      ensures var c := CourseOf(old(lastTs), cfg, events, Same);
              && HasFed(old(engine.st), old(engine.log), c.fed)
              && threw == c.threw && lastTs == LastTs(old(lastTs), c.fed)
              && (!threw ==> summary == RunSummary(0, |c.fed|, |c.fed|, 0, RangeOf(c.fed)))
      ensures this.cfg == cfg
    {
      hide PaperTradingSimulator.Valid, HasFed, CourseOf, Takes, RangeOf;
      ghost var st0, log0, last := engine.st, engine.log, lastTs;
      ghost var fed: seq<Timed> := [];
      this.cfg := cfg;
      summary := NOTHING;
      NothingFed();
      Started(last, cfg, events, Same);
      for i := 0 to |events|
        modifies this`lastTs, engine, engine.orderPool, engine.paperPool
        invariant HasFed(st0, log0, fed) && lastTs == LastTs(last, fed) && |fed| == i
        invariant OnCourse(CourseOf(last, cfg, events, Same), fed, 0, CourseOf(lastTs, cfg, events[i..], Same))
        invariant summary == RunSummary(0, |fed|, |fed|, 0, RangeOf(fed))
      {
        CourseNext(last, cfg, events, Same, i, fed, 0, lastTs);
        RangeNext(fed, events[i]);
        summary := summary.(normalizedEvents := summary.normalizedEvents + 1,
                            range := Widened(summary.range, events[i].ts));
        threw := Step(events[i], st0, log0, fed);
        if threw {
          return;
        }
        summary := summary.(engineUpdates := summary.engineUpdates + 1);
        fed := fed + [events[i]];
      }
      Finished(last, cfg, events, Same, fed, 0, lastTs);
      threw := false;
    }

    /** Feeds the engine what an adapter makes of raw records. */
    method RunAdapted<R>(raws: seq<R>, normalize: R -> Option<Timed>, cfg: Config)
      returns (summary: RunSummary, threw: bool)
      requires engine.Valid()
      modifies this, engine, engine.orderPool, engine.paperPool
      ensures var c := CourseOf(old(lastTs), cfg, raws, normalize);
              && HasFed(old(engine.st), old(engine.log), c.fed)
              && threw == c.threw && lastTs == LastTs(old(lastTs), c.fed)
              && (!threw ==> summary == RunSummary(|raws|, |c.fed|, |c.fed|, c.failures, RangeOf(c.fed)))
      ensures this.cfg == cfg
    {
      hide PaperTradingSimulator.Valid, HasFed, CourseOf, Takes, RangeOf;
      ghost var st0, log0, last := engine.st, engine.log, lastTs;
      ghost var fed: seq<Timed> := [];
      this.cfg := cfg;
      summary := NOTHING;
      NothingFed();
      Started(last, cfg, raws, normalize);
      for i := 0 to |raws|
        modifies this`lastTs, engine, engine.orderPool, engine.paperPool
        invariant HasFed(st0, log0, fed) && lastTs == LastTs(last, fed)
        invariant summary == RunSummary(i, |fed|, |fed|, summary.adapterFailures, RangeOf(fed))
        invariant OnCourse(CourseOf(last, cfg, raws, normalize), fed, summary.adapterFailures,
                        CourseOf(lastTs, cfg, raws[i..], normalize))
      {
        CourseNext(last, cfg, raws, normalize, i, fed, summary.adapterFailures, lastTs);
        summary := summary.(rawEvents := summary.rawEvents + 1);
        var ev := normalize(raws[i]);
        if ev.None? {
          summary := summary.(adapterFailures := summary.adapterFailures + 1);
          if cfg.failFast {
            threw := true;
            return;
          }
        } else {
          RangeNext(fed, ev.value);
          summary := summary.(normalizedEvents := summary.normalizedEvents + 1,
                              range := Widened(summary.range, ev.value.ts));
          threw := Step(ev.value, st0, log0, fed);
          if threw {
            return;
          }
          summary := summary.(engineUpdates := summary.engineUpdates + 1);
          fed := fed + [ev.value];
        }
      }
      Finished(last, cfg, raws, normalize, fed, summary.adapterFailures, lastTs);
      threw := false;
    }
  }

  lemma {:induction false} Started<R>(last: Option<int>, cfg: Config, raws: seq<R>, normalize: R -> Option<Timed>)
    ensures OnCourse(CourseOf(last, cfg, raws, normalize), [], 0, CourseOf(last, cfg, raws[0..], normalize))
    ensures RangeOf([]) == None
  {
    assert raws[0..] == raws;
    var c := CourseOf(last, cfg, raws, normalize);
    assert [] + c.fed == c.fed;
  }

  lemma {:induction false} Finished<R>(last: Option<int>, cfg: Config, raws: seq<R>, normalize: R -> Option<Timed>,
                                       fed: seq<Timed>, failures: nat, now: Option<int>)
    requires OnCourse(CourseOf(last, cfg, raws, normalize), fed, failures,
                      CourseOf(now, cfg, raws[|raws|..], normalize))
    ensures CourseOf(last, cfg, raws, normalize) == Course(fed, failures, false)
  {
    assert fed + [] == fed;
  }
}
