/**
 * The cooldown and cast-history timer of the fishing bot
 * (rf4s/controller/timer.py). The clock is not read here: every operation
 * that samples it takes the reading as a parameter, in seconds since the
 * epoch, and the configured delays are fixed when the timer is built.
 */
module Timers {
  import opened Wrappers

  /** The five time-gated actions. */
  datatype Gate = Tea | Alcohol | LureChange | SpodRodRecast | Pause

  /** Configured minimum intervals, in seconds: STAT.TEA_DELAY, STAT.ALCOHOL_DELAY,
      SCRIPT.LURE_CHANGE_DELAY, SCRIPT.SPOD_ROD_RECAST_DELAY and PAUSE.DELAY. */
  datatype Delays = Delays(tea: real, alcohol: real, lureChange: real, spodRodRecast: real, pause: real)

  function DelayOf(d: Delays, g: Gate): real {
    match g
    case Tea => d.tea
    case Alcohol => d.alcohol
    case LureChange => d.lureChange
    case SpodRodRecast => d.spodRodRecast
    case Pause => d.pause
  }

  /** The last-fired timestamp of every gate. */
  datatype Stamps = Stamps(tea: real, alcohol: real, lureChange: real, spodRodRecast: real, pause: real)

  function LastFired(s: Stamps, g: Gate): real {
    match g
    case Tea => s.tea
    case Alcohol => s.alcohol
    case LureChange => s.lureChange
    case SpodRodRecast => s.spodRodRecast
    case Pause => s.pause
  }

  /** The rearmed timestamps after gate `g` fires at `now`; alcohol also refills comfort. */
  function Arm(s: Stamps, g: Gate, now: real): Stamps {
    match g
    case Tea => s.(tea := now)
    case Alcohol => s.(alcohol := now, tea := now)
    case LureChange => s.(lureChange := now)
    case SpodRodRecast => s.(spodRodRecast := now)
    case Pause => s.(pause := now)
  }

  /** Whether the gate uses the stamp of `h` when it fires. */
  predicate Writes(g: Gate, h: Gate) {
    h == g || (g == Alcohol && h == Tea)
  }

  /**
   * One check-and-arm step of gate `g` at clock reading `now`: the gate is open
   * exactly when more than `delay` seconds have passed since it last fired, and
   * opening it rearms it (and, for alcohol, tea) at `now`.
   */
  function CheckGate(s: Stamps, g: Gate, delay: real, now: real): (r: (bool, Stamps))
    ensures r.0 <==> now - LastFired(s, g) > delay
    ensures !r.0 ==> r.1 == s
    ensures r.0 ==> forall h :: Writes(g, h) ==> LastFired(r.1, h) == now
    ensures forall h :: !Writes(g, h) ==> LastFired(r.1, h) == LastFired(s, h)
    ensures r.0 && delay >= 0.0 ==> LastFired(r.1, g) > LastFired(s, g)
    ensures r.0 && delay >= 0.0 ==> !(now - LastFired(r.1, g) > delay)
  {
    if now - LastFired(s, g) > delay then (true, Arm(s, g, now)) else (false, s)
  }

  /** No stamp of `a` is later than the same stamp of `b`. */
  predicate NoLater(a: Stamps, b: Stamps) {
    && a.tea <= b.tea && a.alcohol <= b.alcohol && a.lureChange <= b.lureChange
    && a.spodRodRecast <= b.spodRodRecast && a.pause <= b.pause
  }

  /** Every stamp lies at or before `t`. */
  predicate AllBy(s: Stamps, t: real) {
    s.tea <= t && s.alcohol <= t && s.lureChange <= t && s.spodRodRecast <= t && s.pause <= t
  }

  /** One call of an `is_*` check: the gate asked about and the clock reading. */
  datatype Check = Check(gate: Gate, now: real)

  /** The stamps after the checks `cs` run in order, each with its gate's configured delay. */
  function RunChecks(s: Stamps, d: Delays, cs: seq<Check>): Stamps
    decreases |cs|
  {
    if cs == [] then s
    else RunChecks(CheckGate(s, cs[0].gate, DelayOf(d, cs[0].gate), cs[0].now).1, d, cs[1..])
  }

  /**
   * A check at a clock reading no earlier than any stamp moves no stamp back,
   * whatever the delay: the tea stamp rewritten by alcohol included.
   */
  lemma CheckGateMonotonic(s: Stamps, g: Gate, delay: real, now: real)
    requires AllBy(s, now)
    ensures NoLater(s, CheckGate(s, g, delay, now).1)
    ensures AllBy(CheckGate(s, g, delay, now).1, now)
  {
  }

  /**
   * Under a clock that never runs backwards and starts no earlier than every
   * stamp, a run of checks never moves a stamp back, and every stamp stays at
   * or before the latest reading.
   */
  lemma {:induction false} RunChecksMonotonic(s: Stamps, d: Delays, cs: seq<Check>)
    requires |cs| > 0 ==> AllBy(s, cs[0].now)
    requires forall j :: 0 < j < |cs| ==> cs[j - 1].now <= cs[j].now
    ensures NoLater(s, RunChecks(s, d, cs))
    ensures |cs| > 0 ==> AllBy(RunChecks(s, d, cs), cs[|cs| - 1].now)
    decreases |cs|
  {
    if cs != [] {
      var s1 := CheckGate(s, cs[0].gate, DelayOf(d, cs[0].gate), cs[0].now).1;
      CheckGateMonotonic(s, cs[0].gate, DelayOf(d, cs[0].gate), cs[0].now);
      var rest := cs[1..];
      if rest != [] {
        assert cs[0].now <= cs[1].now;
      }
      assert forall j :: 0 < j < |rest| ==> rest[j - 1].now <= rest[j].now by {
        forall j | 0 < j < |rest| ensures rest[j - 1].now <= rest[j].now {
          assert rest[j - 1] == cs[j] && rest[j] == cs[j + 1];
        }
      }
      RunChecksMonotonic(s1, d, rest);
    }
  }

  /**
   * `int(elapsed)`: the elapsed time cut to whole seconds toward zero, so never
   * rounded up.
   */
  function RunningSeconds(elapsed: real): (r: int)
    ensures 0.0 <= elapsed ==> 0 <= r && r as real <= elapsed < r as real + 1.0
    ensures elapsed < 0.0 ==> r <= 0 && r as real - 1.0 < elapsed <= r as real
  {
    if elapsed >= 0.0 then elapsed.Floor else -((-elapsed).Floor)
  }

  /** `elapsed // 3600`: the whole real hours elapsed since the start. */
  function CastRealHour(elapsed: real): (h: int)
    ensures 3600.0 * h as real <= elapsed < 3600.0 * (h + 1) as real
    ensures 0.0 <= elapsed ==> 0 <= h
  {
    (elapsed / 3600.0).Floor
  }

  /**
   * The in-game hour at `minute`:`second` past the real hour; the game day runs
   * once per real hour, so every in-game hour lasts 150 real seconds.
   */
  function GameHour(minute: int, second: int): (h: int)
    ensures 0 <= h < 24
    ensures 0 <= minute < 60 && 0 <= second < 60 ==> 150 * h <= 60 * minute + second < 150 * (h + 1)
  {
    ((60 * minute + second) / 150) % 24
  }

  class Timer {
    const startTime: real
    const delays: Delays

    var lastTeaDrink: real
    var lastAlcoholDrink: real
    var lastLureChange: real
    var lastSpodRodRecast: real
    var lastPause: real

    /** The pending (real hour, in-game hour) pair of the latest cast. */
    var castRhour: Option<int>
    var castGhour: Option<int>
    /** The recorded pairs, kept as two index-aligned lists. */
    var castRhourList: seq<int>
    var castGhourList: seq<int>

    ghost predicate Valid()
      reads this
    {
      |castRhourList| == |castGhourList|
    }

    function Snapshot(): Stamps
      reads this
    {
      Stamps(lastTeaDrink, lastAlcoholDrink, lastLureChange, lastSpodRodRecast, lastPause)
    }

    /** Tea and alcohol may fire at once; the other gates wait one full interval. */
    constructor (startTime: real, delays: Delays)
      ensures this.startTime == startTime && this.delays == delays
      ensures Snapshot() == Stamps(0.0, 0.0, startTime, startTime, startTime)
      ensures castRhour == None && castGhour == None
      ensures castRhourList == [] && castGhourList == []
      ensures Valid()
    {
      this.startTime := startTime;
      this.delays := delays;
      castRhour, castGhour := None, None;
      castRhourList, castGhourList := [], [];
      lastTeaDrink, lastAlcoholDrink := 0.0, 0.0;
      lastLureChange, lastSpodRodRecast, lastPause := startTime, startTime, startTime;
    }

    method GetRunningTime(now: real) returns (seconds: int)
      ensures seconds == RunningSeconds(now - startTime)
    {
      seconds := RunningSeconds(now - startTime);
    }

    /** Samples the pending pair; `minute` and `second` are the wall clock's. */
    method UpdateCastTime(now: real, minute: int, second: int)
      modifies this`castRhour, this`castGhour
      ensures castRhour == Some(CastRealHour(now - startTime))
      ensures castGhour == Some(GameHour(minute, second))
    {
      castRhour := Some(CastRealHour(now - startTime));
      castGhour := Some(GameHour(minute, second));
    }

    /** Records the pending pair: each list grows by exactly that pair's half. */
    method AddCastTime()
      requires Valid() && castRhour.Some? && castGhour.Some?
      modifies this`castRhourList, this`castGhourList
      ensures Valid()
      ensures castRhourList == old(castRhourList) + [castRhour.value]
      ensures castGhourList == old(castGhourList) + [castGhour.value]
    {
      castRhourList := castRhourList + [castRhour.value];
      castGhourList := castGhourList + [castGhour.value];
    }

    method GetCastTimeList() returns (rhours: seq<int>, ghours: seq<int>)
      requires Valid()
      ensures rhours == castRhourList && ghours == castGhourList
      ensures |rhours| == |ghours|
    {
      rhours, ghours := castRhourList, castGhourList;
    }

    method IsTeaDrinkable(now: real) returns (drinkable: bool)
      modifies this`lastTeaDrink
      ensures (drinkable, Snapshot()) == CheckGate(old(Snapshot()), Tea, delays.tea, now)
    {
      drinkable := false;
      if now - lastTeaDrink > delays.tea {
        lastTeaDrink := now;
        drinkable := true;
      }
    }

    /** Alcohol also refills comfort, so opening it rearms tea as well. */
    method IsAlcoholDrinkable(now: real) returns (drinkable: bool)
      modifies this`lastAlcoholDrink, this`lastTeaDrink
      ensures (drinkable, Snapshot()) == CheckGate(old(Snapshot()), Alcohol, delays.alcohol, now)
    {
      drinkable := false;
      if now - lastAlcoholDrink > delays.alcohol {
        lastAlcoholDrink := now;
        lastTeaDrink := now;
        drinkable := true;
      }
    }

    method IsLureChangeable(now: real) returns (changeable: bool)
      modifies this`lastLureChange
      ensures (changeable, Snapshot()) == CheckGate(old(Snapshot()), LureChange, delays.lureChange, now)
    {
      changeable := false;
      if now - lastLureChange > delays.lureChange {
        lastLureChange := now;
        changeable := true;
      }
    }

    method IsSpodRodCastable(now: real) returns (castable: bool)
      modifies this`lastSpodRodRecast
      ensures (castable, Snapshot()) == CheckGate(old(Snapshot()), SpodRodRecast, delays.spodRodRecast, now)
    {
      castable := false;
      if now - lastSpodRodRecast > delays.spodRodRecast {
        lastSpodRodRecast := now;
        castable := true;
      }
    }

    method IsScriptPausable(now: real) returns (pausable: bool)
      modifies this`lastPause
      ensures (pausable, Snapshot()) == CheckGate(old(Snapshot()), Pause, delays.pause, now)
    {
      pausable := false;
      if now - lastPause > delays.pause {
        lastPause := now;
        pausable := true;
      }
    }
  }

  /** A tea delay of 300 s: open at 301 s after a start at 0, closed again half a second later. */
  method TeaScenario() {
    var timer := new Timer(0.0, Delays(300.0, 600.0, 1800.0, 1200.0, 3600.0));
    var first := timer.IsTeaDrinkable(301.0);
    assert first;
    var second := timer.IsTeaDrinkable(301.5);
    assert !second;
    var lure := timer.IsLureChangeable(301.5);
    assert !lure;
  }
}
