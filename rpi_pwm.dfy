/**
 * Software PWM on GPIO pins: a fixed pool of eight slots, one per driven
 * pin, each served by a worker thread that toggles the pin with a 10 ms
 * period.
 *
 * The pool's bookkeeping is first written as functions on a sequence of
 * slots (Find, FirstFree, InitPool, WritePool, StopPool); the class SoftPwm
 * then scans and updates an array of slots the way pwm_init, pwm_write and
 * pwm_stop do, and is proved to agree with those functions. Thread creation
 * is a success flag passed in by the caller and joining a worker is taken
 * to complete at once. One turn of the worker loop is the pure timing
 * function WorkerCycle.
 */
module RpiPwm {
  import opened RpiGpio

  /** The pool has room for this many PWM pins. */
  const MAX_PWM_PINS: nat := 8

  /** Length of one PWM period, in microseconds (10 ms). */
  const PERIOD_US: int := 10000

  /** pwm_pin_t without its thread handle. */
  datatype Slot = Slot(pin: int, duty: int, running: bool, active: bool)

  /** The all-zero slot the pool starts with. */
  const EMPTY_SLOT: Slot := Slot(0, 0, false, false)

  /** A slot serves `pin` when it is active and holds that pin. */
  predicate Holds(s: Slot, pin: int) {
    s.active && s.pin == pin
  }

  /** No two active slots share a pin. */
  predicate PinsUnique(pool: seq<Slot>) {
    forall i, j :: 0 <= i < j < |pool| && pool[i].active && pool[j].active ==> pool[i].pin != pool[j].pin
  }

  /** The lowest index of a slot serving `pin`, or -1 when none does. */
  function Find(pool: seq<Slot>, pin: int): (i: int)
    ensures -1 <= i < |pool|
    ensures i >= 0 ==> Holds(pool[i], pin) && forall j :: 0 <= j < i ==> !Holds(pool[j], pin)
    ensures i == -1 <==> forall j :: 0 <= j < |pool| ==> !Holds(pool[j], pin)
  {
    if |pool| == 0 then -1
    else if Holds(pool[0], pin) then 0
    else
      var r := Find(pool[1..], pin);
      if r == -1 then -1 else r + 1
  }

  /** The lowest index of an inactive slot, or -1 when every slot is active. */
  function FirstFree(pool: seq<Slot>): (i: int)
    ensures -1 <= i < |pool|
    ensures i >= 0 ==> !pool[i].active && forall j :: 0 <= j < i ==> pool[j].active
    ensures i == -1 <==> forall j :: 0 <= j < |pool| ==> pool[j].active
  {
    if |pool| == 0 then -1
    else if !pool[0].active then 0
    else
      var r := FirstFree(pool[1..]);
      if r == -1 then -1 else r + 1
  }

  /** pwm_write's clamp of the duty cycle to 0..100 percent. */
  function ClampDuty(duty: int): (d: int)
    ensures 0 <= d <= 100
    ensures 0 <= duty <= 100 ==> d == duty
    ensures duty < 0 ==> d == 0
    ensures duty > 100 ==> d == 100
  {
    if duty < 0 then 0 else if duty > 100 then 100 else duty
  }

  // ---------------------------------------------------------------------
  // The three pool operations, on a sequence of slots.

  /** Whether pwm_init(pin) takes a slot (and so sets the pin to OUTPUT):
      the pin is not already served and some slot is free. */
  predicate InitAllocates(pool: seq<Slot>, pin: int) {
    Find(pool, pin) == -1 && FirstFree(pool) != -1
  }

  /** pwm_init(pin): the new pool and the status it returns. A pin already
      served is left alone (status 0); a full pool refuses (status -1);
      otherwise the lowest free slot takes the pin with duty 0 and running
      set, and stays inactive (status -1) when the worker cannot be
      started. */
  function InitPool(pool: seq<Slot>, pin: int, spawnOk: bool): (r: (seq<Slot>, int))
    ensures |r.0| == |pool|
    ensures r.1 == 0 || r.1 == -1
    ensures r.1 == 0 <==> Find(r.0, pin) >= 0
  {
    if Find(pool, pin) >= 0 then (pool, 0)
    else
      var f := FirstFree(pool);
      if f == -1 then (pool, -1)
      else if spawnOk then
        var p := pool[f := Slot(pin, 0, true, true)];
        assert Holds(p[f], pin);
        (p, 0)
      else
        var p := pool[f := Slot(pin, 0, true, false)];
        assert forall j :: 0 <= j < |p| ==> !Holds(p[j], pin);
        (p, -1)
  }

  /** pwm_write(pin, duty): the serving slot, if any, takes the clamped
      duty. */
  function WritePool(pool: seq<Slot>, pin: int, duty: int): (r: seq<Slot>)
    ensures |r| == |pool|
  {
    var i := Find(pool, pin);
    if i == -1 then pool else pool[i := pool[i].(duty := ClampDuty(duty))]
  }

  /** pwm_stop(pin): the serving slot, if any, is stopped and freed. */
  function StopPool(pool: seq<Slot>, pin: int): (r: seq<Slot>)
    ensures |r| == |pool|
    ensures Find(pool, pin) >= 0 ==> !r[Find(pool, pin)].active && !r[Find(pool, pin)].running
  {
    var i := Find(pool, pin);
    if i == -1 then pool else pool[i := pool[i].(running := false, active := false)]
  }

  // ---------------------------------------------------------------------
  // What the pool operations promise.

  /** Registering a pin that is already served changes nothing and
      succeeds. */
  lemma InitRegistered(pool: seq<Slot>, pin: int, spawnOk: bool)
    requires Find(pool, pin) >= 0
    ensures InitPool(pool, pin, spawnOk) == (pool, 0)
  {
  }

  /** Registering a new pin fills the lowest-index inactive slot with the
      pin, duty 0 and running set; the slot is active and the status 0
      exactly when the worker started. No other slot changes. */
  lemma InitAllocatesLowestFree(pool: seq<Slot>, pin: int, spawnOk: bool)
    requires InitAllocates(pool, pin)
    ensures var (p, status) := InitPool(pool, pin, spawnOk);
      var f := FirstFree(pool);
      && |p| == |pool|
      && p[f] == Slot(pin, 0, true, spawnOk)
      && (forall j :: 0 <= j < f ==> pool[j].active)
      && (forall j :: 0 <= j < |pool| && j != f ==> p[j] == pool[j])
      && (status == 0 <==> spawnOk)
      && (status == 0 || status == -1)
  {
  }

  /** With every slot active and none serving the pin, pwm_init fails and
      leaves the pool as it was. */
  lemma InitFullFails(pool: seq<Slot>, pin: int, spawnOk: bool)
    requires forall j :: 0 <= j < |pool| ==> pool[j].active && pool[j].pin != pin
    ensures InitPool(pool, pin, spawnOk) == (pool, -1)
  {
  }

  /** A successful pwm_init leaves the pin served, and a second pwm_init of
      the same pin changes nothing: one slot, one worker per pin. */
  lemma {:induction false} InitIdempotent(pool: seq<Slot>, pin: int, spawnOk: bool, again: bool)
    requires InitPool(pool, pin, spawnOk).1 == 0
    ensures Find(InitPool(pool, pin, spawnOk).0, pin) >= 0
    ensures InitPool(InitPool(pool, pin, spawnOk).0, pin, again) == (InitPool(pool, pin, spawnOk).0, 0)
  {
    var p := InitPool(pool, pin, spawnOk).0;
    if Find(pool, pin) < 0 {
      var f := FirstFree(pool);
      assert Holds(p[f], pin);
    }
  }

  /** pwm_init keeps the pins of active slots distinct. */
  lemma InitKeepsUnique(pool: seq<Slot>, pin: int, spawnOk: bool)
    requires PinsUnique(pool)
    ensures PinsUnique(InitPool(pool, pin, spawnOk).0)
  {
  }

  /** pwm_write stores the clamped duty into the slot serving the pin and
      changes nothing else; for a pin no slot serves it changes nothing. */
  lemma WriteStoresClamped(pool: seq<Slot>, pin: int, duty: int)
    ensures |WritePool(pool, pin, duty)| == |pool|
    ensures Find(pool, pin) == -1 ==> WritePool(pool, pin, duty) == pool
    ensures Find(pool, pin) >= 0 ==>
      var i := Find(pool, pin);
      var p := WritePool(pool, pin, duty);
      && p[i] == Slot(pin, ClampDuty(duty), pool[i].running, true)
      && (forall j :: 0 <= j < |pool| && j != i ==> p[j] == pool[j])
  {
  }

  /** pwm_write keeps the pins of active slots distinct and the same pins
      served. */
  lemma WriteKeepsUnique(pool: seq<Slot>, pin: int, duty: int, q: int)
    requires PinsUnique(pool)
    ensures PinsUnique(WritePool(pool, pin, duty))
    ensures Find(WritePool(pool, pin, duty), q) == Find(pool, q)
  {
    var p := WritePool(pool, pin, duty);
    assert forall j :: 0 <= j < |pool| ==> (Holds(p[j], q) <==> Holds(pool[j], q));
  }

  /** pwm_stop on a served pin stops its slot's worker and frees the slot:
      afterwards no slot serves the pin, and a free slot exists at or below
      the freed index. On a pin no slot serves it changes nothing. */
  lemma StopFrees(pool: seq<Slot>, pin: int)
    requires PinsUnique(pool)
    ensures Find(pool, pin) == -1 ==> StopPool(pool, pin) == pool
    ensures Find(pool, pin) >= 0 ==>
      var i := Find(pool, pin);
      var p := StopPool(pool, pin);
      && p[i] == Slot(pin, pool[i].duty, false, false)
      && (forall j :: 0 <= j < |pool| && j != i ==> p[j] == pool[j])
      && Find(p, pin) == -1
      && 0 <= FirstFree(p) <= i
    ensures FirstFree(pool) == -1 && Find(pool, pin) >= 0 ==>
      FirstFree(StopPool(pool, pin)) == Find(pool, pin)
  {
  }

  /** pwm_stop keeps the pins of active slots distinct. */
  lemma StopKeepsUnique(pool: seq<Slot>, pin: int)
    requires PinsUnique(pool)
    ensures PinsUnique(StopPool(pool, pin))
  {
  }

  /** A stopped pin can be registered again, and it takes a slot no higher
      than the one it left. */
  lemma {:induction false} StopThenInitReuses(pool: seq<Slot>, pin: int, spawnOk: bool)
    requires PinsUnique(pool) && Find(pool, pin) >= 0
    ensures InitAllocates(StopPool(pool, pin), pin)
    ensures FirstFree(StopPool(pool, pin)) <= Find(pool, pin)
    ensures InitPool(StopPool(pool, pin), pin, spawnOk).1 == (if spawnOk then 0 else -1)
  {
    StopFrees(pool, pin);
  }

  /** The slot a stopped pin frees can be taken by a different pin: after
      pwm_stop(p), pwm_init(q) for a pin q no slot serves allocates, and in
      a full pool it takes exactly the slot p left. */
  lemma {:induction false} StopThenInitOther(pool: seq<Slot>, p: int, q: int, spawnOk: bool)
    requires PinsUnique(pool) && Find(pool, p) >= 0 && Find(pool, q) == -1
    ensures InitAllocates(StopPool(pool, p), q)
    ensures FirstFree(pool) == -1 ==>
      var (r, status) := InitPool(StopPool(pool, p), q, spawnOk);
      && r[Find(pool, p)] == Slot(q, 0, true, spawnOk)
      && (status == 0 <==> spawnOk)
  {
    StopFrees(pool, p);
    var s := StopPool(pool, p);
    var i := Find(pool, p);
    forall j | 0 <= j < |s|
      ensures !Holds(s[j], q)
    {
      if j != i {
        assert s[j] == pool[j];
      }
    }
  }

  // ---------------------------------------------------------------------
  // One turn of the worker loop.

  /** A stretch of one PWM period: the level driven and for how long, in
      microseconds. */
  datatype Phase = Phase(level: int, micros: int)

  /** What one turn of pwm_thread_func's loop drives, for the duty `d` read
      at its start: LOW for the whole period at d <= 0, HIGH for the whole
      period at d >= 100, otherwise HIGH for d * 100 us and then LOW for the
      rest of the period. */
  function WorkerCycle(d: int): (c: seq<Phase>)
    ensures 1 <= |c| <= 2 && c[0].level == (if d > 0 then HIGH else LOW)
  {
    if d <= 0 then [Phase(LOW, PERIOD_US)]
    else if d >= 100 then [Phase(HIGH, PERIOD_US)]
    else
      var onTime := d * 100;
      [Phase(HIGH, onTime), Phase(LOW, PERIOD_US - onTime)]
  }

  /** Total length of a run of phases. */
  function Duration(phases: seq<Phase>): int {
    if |phases| == 0 then 0 else phases[0].micros + Duration(phases[1..])
  }

  /** Time spent HIGH in a run of phases. */
  function HighTime(phases: seq<Phase>): int {
    if |phases| == 0 then 0
    else (if phases[0].level == HIGH then phases[0].micros else 0) + HighTime(phases[1..])
  }

  /** Every turn of the worker lasts exactly one 10 000 us period, made of
      phases of positive length that alternate HIGH then LOW, and it spends
      clamp(d) * 100 us of that period HIGH: the duty cycle is d percent. */
  lemma WorkerCycleTiming(d: int)
    ensures Duration(WorkerCycle(d)) == PERIOD_US
    ensures HighTime(WorkerCycle(d)) == ClampDuty(d) * 100
    ensures forall k :: 0 <= k < |WorkerCycle(d)| ==> WorkerCycle(d)[k].micros > 0
    ensures forall k :: 0 <= k < |WorkerCycle(d)| ==>
              WorkerCycle(d)[k].level == (if k == 0 && d > 0 then HIGH else LOW)
  {
    var c := WorkerCycle(d);
    if 0 < d < 100 {
      assert c[1..] == [c[1]] && c[1..][1..] == [];
      assert Duration(c[1..]) == c[1].micros;
      assert HighTime(c[1..]) == 0;
    } else {
      assert c[1..] == [];
    }
  }

  // ---------------------------------------------------------------------

  /**
   * The slot pool pwm_pins[MAX_PWM_PINS] together with the GPIO block its
   * workers drive.
   */
  class SoftPwm {
    const slots: array<Slot>
    const gpio: GpioMap

    ghost predicate Valid()
      reads slots
    {
      slots.Length == MAX_PWM_PINS && gpio.Valid() && PinsUnique(slots[..])
    }

    /** The zero-initialised pool. */
    constructor (gpio: GpioMap)
      requires gpio.Valid()
      ensures Valid() && fresh(slots) && this.gpio == gpio
      ensures slots[..] == seq(MAX_PWM_PINS, _ => EMPTY_SLOT)
    {
      this.gpio := gpio;
      slots := new Slot[MAX_PWM_PINS](_ => EMPTY_SLOT);
    }

    /** pwm_init(pin); `spawnOk` says whether pthread_create succeeds. The
        pin is set to OUTPUT exactly when a slot is taken for it. */
    method Init(pin: int, spawnOk: bool) returns (status: int)
      requires Valid()
      modifies slots, gpio.regs
      ensures Valid()
      ensures (slots[..], status) == InitPool(old(slots[..]), pin, spawnOk)
      ensures gpio.regs[..] == if InitAllocates(old(slots[..]), pin)
                               then PinModeRegs(old(gpio.regs[..]), gpio.mapped, pin, OUTPUT)
                               else old(gpio.regs[..])
    {
      var slot := -1;
      var i := 0;
      while i < MAX_PWM_PINS
        invariant 0 <= i <= MAX_PWM_PINS
        invariant forall j :: 0 <= j < i ==> !Holds(slots[j], pin)
        invariant slot == -1 ==> forall j :: 0 <= j < i ==> slots[j].active
        invariant slot != -1 ==> 0 <= slot < i && !slots[slot].active
                                 && forall j :: 0 <= j < slot ==> slots[j].active
      {
        if slots[i].active && slots[i].pin == pin {
          return 0;
        }
        if !slots[i].active && slot == -1 {
          slot := i;
        }
        i := i + 1;
      }
      assert Find(slots[..], pin) == -1;
      assert slot == FirstFree(slots[..]);

      if slot == -1 {
        return -1;
      }

      gpio.PinMode(pin, OUTPUT);

      slots[slot] := slots[slot].(pin := pin, duty := 0, running := true, active := true);

      if !spawnOk {
        slots[slot] := slots[slot].(active := false);
        assert slots[..] == old(slots[..])[slot := Slot(pin, 0, true, false)];
        InitKeepsUnique(old(slots[..]), pin, spawnOk);
        return -1;
      }
      InitKeepsUnique(old(slots[..]), pin, spawnOk);
      return 0;
    }

    /** pwm_write(pin, duty). */
    method Write(pin: int, duty: int)
      requires Valid()
      modifies slots
      ensures Valid()
      ensures slots[..] == WritePool(old(slots[..]), pin, duty)
    {
      var d := duty;
      if d < 0 { d := 0; }
      if d > 100 { d := 100; }

      WriteKeepsUnique(slots[..], pin, duty, pin);
      var i := 0;
      while i < MAX_PWM_PINS
        invariant 0 <= i <= MAX_PWM_PINS
        invariant forall j :: 0 <= j < i ==> !Holds(slots[j], pin)
      {
        if slots[i].active && slots[i].pin == pin {
          slots[i] := slots[i].(duty := d);
          return;
        }
        i := i + 1;
      }
    }

    /** pwm_stop(pin): the worker is told to stop and joined, the pin is
        driven LOW and the slot is freed; a pin no slot serves is left
        alone. */
    method Stop(pin: int)
      requires Valid()
      modifies slots, gpio.regs
      ensures Valid()
      ensures slots[..] == StopPool(old(slots[..]), pin)
      ensures gpio.regs[..] == if Find(old(slots[..]), pin) >= 0
                               then WriteRegs(old(gpio.regs[..]), gpio.mapped, pin, LOW)
                               else old(gpio.regs[..])
    {
      StopKeepsUnique(slots[..], pin);
      var i := 0;
      while i < MAX_PWM_PINS
        invariant 0 <= i <= MAX_PWM_PINS
        invariant forall j :: 0 <= j < i ==> !Holds(slots[j], pin)
      {
        if slots[i].active && slots[i].pin == pin {
          slots[i] := slots[i].(running := false);
          gpio.DigitalWrite(pin, LOW);
          slots[i] := slots[i].(active := false);
          return;
        }
        i := i + 1;
      }
    }
  }
}
