/**
 * The hardware the DS18B20 driver talks to: one tri-state GPIO line of the
 * RP2040, its busy-wait timer, the millisecond sleep and the interrupt mask.
 * Every SDK call the driver makes is recorded as an `Event` at the end of a
 * `Trace`; the functions at the end of the module read timing and masking
 * facts off such a trace.
 */
module Hal {

  datatype Direction = In | Out

  /** One call into the Pico SDK, with its pin and the value passed or returned. */
  datatype Event =
    | GpioInit(pin: nat)
    | SetDir(pin: nat, dir: Direction)
    | Put(pin: nat, level: bool)
    | Get(pin: nat, level: bool)
    | PullUp(pin: nat)
    | BusyWaitUs(us: nat)
    | SleepMs(ms: nat)
    | IrqSave(enabled: bool)      // save_and_disable_interrupts, returning the old state
    | IrqRestore(enabled: bool)   // restore_interrupts with the saved state

  /** The calls made so far, the most recent one last. */
  datatype Trace = Start | Then(before: Trace, last: Event)

  /** The level a released line shows at the k-th sample of a device script;
      past the end of the script nothing pulls the line low, so it reads high. */
  function Level(script: seq<bool>, k: nat): bool
  {
    if k < |script| then script[k] else true
  }

  /**
   * The board as the driver sees it. `dir` and `latch` are the direction and
   * output latch of the sensor's line, `pullUp` its pull-up, `irqEnabled` the
   * processor's interrupt state. `script` is the sequence of levels the device
   * presents at successive samples of the released line (an input of the
   * model), and `sampled` counts the samples taken so far.
   */
  class Board {
    var dir: Direction
    var latch: bool
    var pullUp: bool
    var irqEnabled: bool
    const script: seq<bool>
    var sampled: nat
    var trace: Trace

    /** The line and interrupt state are what the calls of the trace leave
        behind, from the state the board powers up in. */
    predicate Valid()
      reads this
    {
      Pin(dir, latch) == PinAfter(trace, Pin(In, false)) && irqEnabled == IrqAfter(trace, true)
    }

    constructor (script: seq<bool>)
      ensures Valid()
      ensures dir == In && !latch && !pullUp && irqEnabled
      ensures this.script == script && sampled == 0 && trace == Start
    {
      dir, latch, pullUp, irqEnabled := In, false, false, true;
      this.script, sampled, trace := script, 0, Start;
    }

    /** gpio_init: the pin becomes a released input with its latch cleared. */
    method GpioInit(pin: nat)
      requires Valid()
      modifies this`dir, this`latch, this`trace
      ensures Valid()
      ensures dir == In && !latch
      ensures trace == Then(old(trace), Event.GpioInit(pin))
    {
      dir, latch := In, false;
      trace := Then(trace, Event.GpioInit(pin));
    }

    method SetDir(pin: nat, d: Direction)
      requires Valid()
      modifies this`dir, this`trace
      ensures Valid()
      ensures dir == d
      ensures trace == Then(old(trace), Event.SetDir(pin, d))
    {
      dir := d;
      trace := Then(trace, Event.SetDir(pin, d));
    }

    method Put(pin: nat, level: bool)
      requires Valid()
      modifies this`latch, this`trace
      ensures Valid()
      ensures latch == level
      ensures trace == Then(old(trace), Event.Put(pin, level))
    {
      latch := level;
      trace := Then(trace, Event.Put(pin, level));
    }

    /** gpio_get: a driven line reads its own latch; a released line reads
        the device's next level. */
    method Get(pin: nat) returns (level: bool)
      requires Valid()
      modifies this`sampled, this`trace
      ensures Valid()
      ensures level == if dir == Out then latch else Level(script, old(sampled))
      ensures sampled == if dir == Out then old(sampled) else old(sampled) + 1
      ensures trace == Then(old(trace), Event.Get(pin, level))
    {
      if dir == Out {
        level := latch;
      } else {
        level := Level(script, sampled);
        sampled := sampled + 1;
      }
      trace := Then(trace, Event.Get(pin, level));
    }

    method PullUp(pin: nat)
      requires Valid()
      modifies this`pullUp, this`trace
      ensures Valid()
      ensures pullUp
      ensures trace == Then(old(trace), Event.PullUp(pin))
    {
      pullUp := true;
      trace := Then(trace, Event.PullUp(pin));
    }

    method BusyWaitUs(us: nat)
      requires Valid()
      modifies this`trace
      ensures Valid()
      ensures trace == Then(old(trace), Event.BusyWaitUs(us))
    {
      trace := Then(trace, Event.BusyWaitUs(us));
    }

    method SleepMs(ms: nat)
      requires Valid()
      modifies this`trace
      ensures Valid()
      ensures trace == Then(old(trace), Event.SleepMs(ms))
    {
      trace := Then(trace, Event.SleepMs(ms));
    }

    method SaveAndDisableInterrupts() returns (saved: bool)
      requires Valid()
      modifies this`irqEnabled, this`trace
      ensures Valid()
      ensures saved == old(irqEnabled) && !irqEnabled
      ensures trace == Then(old(trace), Event.IrqSave(saved))
    {
      saved := irqEnabled;
      irqEnabled := false;
      trace := Then(trace, Event.IrqSave(saved));
    }

    method RestoreInterrupts(saved: bool)
      requires Valid()
      modifies this`irqEnabled, this`trace
      ensures Valid()
      ensures irqEnabled == saved
      ensures trace == Then(old(trace), Event.IrqRestore(saved))
    {
      irqEnabled := saved;
      trace := Then(trace, Event.IrqRestore(saved));
    }
  }

  // ---------------------------------------------------------------------
  // Reading a trace: elapsed time, time the line is held low, masking.
  // ---------------------------------------------------------------------

  /** Microseconds spent in busy_wait_us. */
  function BusyMicros(t: Trace): nat
  {
    match t
    case Start => 0
    case Then(b, e) => BusyMicros(b) + (if e.BusyWaitUs? then e.us else 0)
  }

  /** Milliseconds spent in sleep_ms. */
  function SleepMillis(t: Trace): nat
  {
    match t
    case Start => 0
    case Then(b, e) => SleepMillis(b) + (if e.SleepMs? then e.ms else 0)
  }

  /** Total elapsed time in microseconds (the SDK calls themselves take none). */
  function ElapsedMicros(t: Trace): nat
  {
    BusyMicros(t) + 1000 * SleepMillis(t)
  }

  /** The direction and latch of the line. */
  datatype Pin = Pin(dir: Direction, latch: bool)

  function Step(p: Pin, e: Event): Pin
  {
    match e
    case GpioInit(_) => Pin(In, false)
    case SetDir(_, d) => Pin(d, p.latch)
    case Put(_, l) => Pin(p.dir, l)
    case _ => p
  }

  /** The line state after the trace, starting from state p. */
  function PinAfter(t: Trace, p: Pin): Pin
  {
    match t
    case Start => p
    case Then(b, e) => Step(PinAfter(b, p), e)
  }

  /** Microseconds of busy-wait during which the host drives the line low. */
  function LowMicros(t: Trace, p: Pin): nat
  {
    match t
    case Start => 0
    case Then(b, e) =>
      var q := Step(PinAfter(b, p), e);
      LowMicros(b, p) + (if e.BusyWaitUs? && q.dir == Out && !q.latch then e.us else 0)
  }

  /** The instants, in elapsed microseconds, at which the line was sampled. */
  function Samples(t: Trace): seq<nat>
  {
    match t
    case Start => []
    case Then(b, e) => Samples(b) + (if e.Get? then [ElapsedMicros(b)] else [])
  }

  /** Every sample of the trace was taken with the line released. */
  predicate SamplesReleased(t: Trace, p: Pin)
  {
    match t
    case Start => true
    case Then(b, e) => SamplesReleased(b, p) && (e.Get? ==> PinAfter(b, p).dir == In)
  }

  /** The interrupt state after one event. */
  function IrqStep(e: Event, enabled: bool): bool
  {
    match e
    case IrqSave(_) => false
    case IrqRestore(s) => s
    case _ => enabled
  }

  /** The interrupt state after the trace, starting from state `enabled`. */
  function IrqAfter(t: Trace, enabled: bool): bool
  {
    match t
    case Start => enabled
    case Then(b, e) => IrqStep(e, IrqAfter(b, enabled))
  }

  predicate IsLineOp(e: Event)
  {
    e.SetDir? || e.Put? || e.Get? || e.BusyWaitUs?
  }

  /** Every timing-critical line operation of the trace runs with interrupts
      masked, and every save records the state it actually saved. */
  predicate LineOpsMasked(t: Trace, enabled: bool)
  {
    match t
    case Start => true
    case Then(b, e) =>
      LineOpsMasked(b, enabled)
      && (IsLineOp(e) ==> !IrqAfter(b, enabled))
      && (e.IrqSave? ==> e.enabled == IrqAfter(b, enabled))
  }
}
