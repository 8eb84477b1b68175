/** `Scheduler` and `Controller` of src/control.rs: the start, stop and loop settings of a
    scheduled source, each kept in a shared atomic cell.

    Both structs are records of `Arc` pointers to cells, and their `Clone` copies the
    pointers: a clone is a new record over the same cells, so a value stored through one
    clone is loaded through every other. Here a cell is an object, a record a class whose
    fields are references to cells, and a clone a fresh record with the same references.
    `f64` values are reals; atomic orderings play no part in a sequential model. */
module Control {

  /** `f64::MAX`, the largest finite double, (2 - 2^-52) * 2^1023, written out. */
  const F64_MAX: real := 179769313486231570814527423731704356798070567525844996598917476803157260780028538760589558632766878171540458953514382464234321326889464182768467546703537516986049910576551282076245490090389328944075868508455133942304583236903222948165808559332123348274797826204144723168738177180919299881250404026184124858368.0

  /** `AtomicF64`: a cell holding one double. */
  class F64Cell {
    var value: real

    constructor (v: real)
      ensures value == v
    {
      value := v;
    }
  }

  /** `AtomicBool`: a cell holding one flag. */
  class BoolCell {
    var value: bool

    constructor (v: bool)
      ensures value == v
    {
      value := v;
    }
  }

  /** When a source plays: start and stop times, `f64::MAX` meaning "not scheduled". */
  class Scheduler {
    const start: F64Cell
    const stop: F64Cell

    /** The two settings live in two cells. */
    ghost predicate Valid() {
      start != stop
    }

    /** `Scheduler::new`: inactive, neither start nor stop scheduled. */
    constructor ()
      ensures Valid() && fresh(start) && fresh(stop)
      ensures GetStartAt() == F64_MAX && GetStopAt() == F64_MAX
    {
      start := new F64Cell(F64_MAX);
      stop := new F64Cell(F64_MAX);
    }

    /** `#[derive(Clone)]`: a new record over the same two cells. */
    method Clone() returns (c: Scheduler)
      requires Valid()
      ensures fresh(c) && c.Valid() && c.start == start && c.stop == stop
    {
      c := new Scheduler.Over(start, stop);
    }

    /** A record over two given cells. */
    constructor Over(start: F64Cell, stop: F64Cell)
      requires start != stop
      ensures Valid() && this.start == start && this.stop == stop
    {
      this.start := start;
      this.stop := stop;
    }

    /** `get_start_at`. */
    function GetStartAt(): real
      reads start
    {
      start.value
    }

    /** `get_stop_at`. */
    function GetStopAt(): real
      reads stop
    {
      stop.value
    }

    /** `start_at`: the start time is stored; the stop time is kept. */
    method StartAt(t: real)
      requires Valid()
      modifies start
      ensures GetStartAt() == t && GetStopAt() == old(GetStopAt())
    {
      start.value := t;
    }

    /** `stop_at`: the stop time is stored; the start time is kept. */
    method StopAt(t: real)
      requires Valid()
      modifies stop
      ensures GetStopAt() == t && GetStartAt() == old(GetStartAt())
    {
      stop.value := t;
    }
  }

  /** Every setting a `Controller` reads back, as one value. */
  datatype Settings = Settings(
    start: real, stop: real,
    looping: bool, loopStart: real, loopEnd: real, offset: real, duration: real)

  /** The defaults of `Controller::new`: nothing scheduled, no loop, the loop starting at
      0, and the loop end, offset and duration unset (`f64::MAX`). */
  function DefaultSettings(): (s: Settings)
    ensures !s.looping && s.loopStart == 0.0
    ensures s.start == s.stop == s.loopEnd == s.offset == s.duration == F64_MAX
  {
    Settings(F64_MAX, F64_MAX, false, 0.0, F64_MAX, F64_MAX, F64_MAX)
  }

  /** How a scheduled source plays: its scheduler (shared through an `Arc`) and the loop,
      offset and duration settings, each in a shared cell. */
  class Controller {
    const scheduler: Scheduler
    const looping: BoolCell
    const loopStart: F64Cell
    const loopEnd: F64Cell
    const offset: F64Cell
    const duration: F64Cell

    /** The five double settings and the two scheduler times live in seven cells. */
    ghost predicate Valid() {
      && scheduler.Valid()
      && |{scheduler.start, scheduler.stop, loopStart, loopEnd, offset, duration}| == 6
    }

    /** Everything the getters return. */
    function Get(): Settings
      reads scheduler, scheduler.start, scheduler.stop, looping, loopStart, loopEnd, offset, duration
    {
      Settings(scheduler.GetStartAt(), scheduler.GetStopAt(),
               looping.value, loopStart.value, loopEnd.value, offset.value, duration.value)
    }

    /** `Controller::new`. */
    constructor ()
      ensures Valid() && Get() == DefaultSettings()
      ensures fresh(scheduler) && fresh(scheduler.start) && fresh(scheduler.stop)
      ensures fresh(looping) && fresh(loopStart) && fresh(loopEnd) && fresh(offset) && fresh(duration)
    {
      scheduler := new Scheduler();
      looping := new BoolCell(false);
      loopStart := new F64Cell(0.0);
      loopEnd := new F64Cell(F64_MAX);
      offset := new F64Cell(F64_MAX);
      duration := new F64Cell(F64_MAX);
    }

    /** A record over given cells. */
    constructor Over(scheduler: Scheduler, looping: BoolCell, loopStart: F64Cell, loopEnd: F64Cell,
                     offset: F64Cell, duration: F64Cell)
      ensures this.scheduler == scheduler && this.looping == looping && this.loopStart == loopStart
      ensures this.loopEnd == loopEnd && this.offset == offset && this.duration == duration
    {
      this.scheduler := scheduler;
      this.looping := looping;
      this.loopStart := loopStart;
      this.loopEnd := loopEnd;
      this.offset := offset;
      this.duration := duration;
    }

    /** `#[derive(Clone)]`: a new record over the same scheduler and cells. */
    method Clone() returns (c: Controller)
      requires Valid()
      ensures fresh(c) && c.Valid() && c.scheduler == scheduler && c.looping == looping
      ensures c.loopStart == loopStart && c.loopEnd == loopEnd && c.offset == offset && c.duration == duration
    {
      c := new Controller.Over(scheduler, looping, loopStart, loopEnd, offset, duration);
    }

    /** `set_loop`. */
    method SetLoop(v: bool)
      requires Valid()
      modifies looping
      ensures Get() == old(Get()).(looping := v)
    {
      looping.value := v;
    }

    /** `set_loop_start`. */
    method SetLoopStart(v: real)
      requires Valid()
      modifies loopStart
      ensures Get() == old(Get()).(loopStart := v)
    {
      loopStart.value := v;
    }

    /** `set_loop_end`. */
    method SetLoopEnd(v: real)
      requires Valid()
      modifies loopEnd
      ensures Get() == old(Get()).(loopEnd := v)
    {
      loopEnd.value := v;
    }

    /** `set_offset`. */
    method SetOffset(v: real)
      requires Valid()
      modifies offset
      ensures Get() == old(Get()).(offset := v)
    {
      offset.value := v;
    }

    /** `set_duration`. */
    method SetDuration(v: real)
      requires Valid()
      modifies duration
      ensures Get() == old(Get()).(duration := v)
    {
      duration.value := v;
    }

    /** `scheduler().start_at(t)`: only the start time changes. */
    method StartAt(t: real)
      requires Valid()
      modifies scheduler.start
      ensures Get() == old(Get()).(start := t)
    {
      scheduler.StartAt(t);
    }

    /** `scheduler().stop_at(t)`: only the stop time changes. */
    method StopAt(t: real)
      requires Valid()
      modifies scheduler.stop
      ensures Get() == old(Get()).(stop := t)
    {
      scheduler.StopAt(t);
    }
  }

  /** A loop start stored through a clone of a new controller is read back through the
      original, and every other setting keeps its default. */
  method LoopStartSeenThroughClone(v: real) returns (seen: Settings)
    ensures seen == DefaultSettings().(loopStart := v)
  {
    var c := new Controller();
    var d := c.Clone();
    d.SetLoopStart(v);
    seen := c.Get();
  }

  /** A start time stored through a clone of a new scheduler is read back through the
      original, and the stop time stays unscheduled. */
  method StartSeenThroughClone(t: real) returns (start: real, stop: real)
    ensures start == t && stop == F64_MAX
  {
    var s := new Scheduler();
    var c := s.Clone();
    c.StartAt(t);
    start, stop := s.GetStartAt(), s.GetStopAt();
  }
}
