/**
 * The glow of a client's bubble in the server window (`ClientWidget`,
 * server.py:122-158): while the client is speaking a 50 ms timer moves
 * `pulse_alpha` up and down between 0 and 100 in steps of 10. Painting is
 * not modelled; a repaint request is counted.
 */
module Pulse {

  /** How far one timer tick moves the glow. */
  const Step := 10
  const MaxAlpha := 100
  /** The timer period while active, in milliseconds. */
  const TickInterval := 50

  /** The states the glow can reach from its initial state `(0, 1)`. */
  predicate ValidPulse(alpha: int, direction: int) {
    0 <= alpha <= MaxAlpha && alpha % Step == 0 && (direction == 1 || direction == -1)
  }

  /** `update_pulse` on the pair `(pulse_alpha, pulse_direction)`. Whatever
      the state, the new alpha is clamped to [0, 100], and the direction
      points back inwards at either bound. From a reachable state a tick
      stays reachable and moves the glow by exactly one step, except when it
      was already at the bound it was heading for, where it only turns round. */
  function PulseStep(alpha: int, direction: int): (r: (int, int))
    ensures 0 <= r.0 <= MaxAlpha
    ensures r.1 == (if r.0 == MaxAlpha then -1 else if r.0 == 0 then 1 else direction)
    ensures ValidPulse(alpha, direction) ==> ValidPulse(r.0, r.1)
    ensures ValidPulse(alpha, direction) ==>
      if (alpha == MaxAlpha && direction == 1) || (alpha == 0 && direction == -1)
      then r == (alpha, -direction)
      else r.0 == alpha + Step * direction
  {
    var next := alpha + Step * direction;
    if next >= MaxAlpha then (MaxAlpha, -1)
    else if next <= 0 then (0, 1)
    else (next, direction)
  }

  /** `n` timer ticks. */
  function Ticks(n: nat, alpha: int, direction: int): (int, int)
  {
    if n == 0 then (alpha, direction)
    else
      var before := Ticks(n - 1, alpha, direction);
      PulseStep(before.0, before.1)
  }

  /** Any number of ticks keeps a reachable state reachable. */
  lemma {:induction false} TicksValid(n: nat, alpha: int, direction: int)
    requires ValidPulse(alpha, direction)
    ensures ValidPulse(Ticks(n, alpha, direction).0, Ticks(n, alpha, direction).1)
  {
    if n > 0 {
      TicksValid(n - 1, alpha, direction);
    }
  }

  /** From the initial state the glow rises by 10 each tick ... */
  lemma {:induction false} Rising(k: nat)
    requires k <= 10
    ensures Ticks(k, 0, 1) == (Step * k, if k == 10 then -1 else 1)
  {
    if k > 0 {
      Rising(k - 1);
    }
  }

  /** ... and then falls by 10 each tick ... */
  lemma {:induction false} Falling(k: nat)
    requires k <= 10
    ensures Ticks(10 + k, 0, 1) == (MaxAlpha - Step * k, if k == 10 then 1 else -1)
  {
    if k == 0 {
      Rising(10);
    } else {
      Falling(k - 1);
      assert Ticks(10 + k, 0, 1) == PulseStep(Ticks(10 + k - 1, 0, 1).0, Ticks(10 + k - 1, 0, 1).1);
    }
  }

  /** ... so it is back where it started after 20 ticks, one second. */
  lemma PulsePeriod()
    ensures Ticks(20, 0, 1) == (0, 1)
    ensures forall k :: 0 < k < 20 ==> Ticks(k, 0, 1) != (0, 1)
  {
    Falling(10);
    forall k | 0 < k < 20
      ensures Ticks(k, 0, 1) != (0, 1)
    {
      if k <= 10 {
        Rising(k);
      } else {
        Falling(k - 10);
      }
    }
  }

  class ClientWidget {
    const name: string
    const langCode: string
    var isActive: bool
    var pulseAlpha: int
    var pulseDirection: int
    /** Whether `pulse_timer` is running; it fires `update_pulse`. */
    var timerRunning: bool
    /** The interval the timer was last started with, in milliseconds. */
    var timerInterval: nat
    /** How many repaints (`self.update()`) have been requested. */
    var repaints: nat

    /** The glow is in a reachable state, the timer runs exactly while the
        client is active, and an idle bubble has no glow. */
    ghost predicate Valid()
      reads this
    {
      && ValidPulse(pulseAlpha, pulseDirection)
      && timerRunning == isActive
      && (!isActive ==> pulseAlpha == 0)
    }

    constructor (name: string, langCode: string)
      ensures Valid()
      ensures this.name == name && this.langCode == langCode
      ensures !isActive && pulseAlpha == 0 && pulseDirection == 1 && repaints == 0
    {
      this.name := name;
      this.langCode := langCode;
      isActive := false;
      pulseAlpha := 0;
      pulseDirection := 1;
      timerRunning := false;
      timerInterval := 0;
      repaints := 0;
    }

    /** `set_active`: nothing happens unless the state changes. Becoming
        active starts the timer; becoming idle stops it and clears the glow
        but keeps the direction it was moving in. */
    method SetActive(active: bool)
      requires Valid()
      modifies this`isActive, this`timerRunning, this`timerInterval, this`pulseAlpha, this`repaints
      ensures Valid() && isActive == active
      ensures old(isActive) == active ==>
        timerInterval == old(timerInterval) && pulseAlpha == old(pulseAlpha) && repaints == old(repaints)
      ensures old(isActive) != active ==> repaints == old(repaints) + 1
      ensures old(isActive) != active && active ==> timerInterval == TickInterval && pulseAlpha == old(pulseAlpha)
      ensures old(isActive) != active && !active ==> timerInterval == old(timerInterval) && pulseAlpha == 0
    {
      if isActive != active {
        isActive := active;
        if isActive {
          timerRunning := true;
          timerInterval := TickInterval;
        } else {
          timerRunning := false;
          pulseAlpha := 0;
        }
        repaints := repaints + 1;
      }
    }

    /** `update_pulse`. */
    method UpdatePulse()
      modifies this`pulseAlpha, this`pulseDirection, this`repaints
      ensures (pulseAlpha, pulseDirection) == PulseStep(old(pulseAlpha), old(pulseDirection))
      ensures repaints == old(repaints) + 1
    {
      pulseAlpha := pulseAlpha + Step * pulseDirection;
      if pulseAlpha >= MaxAlpha {
        pulseAlpha := MaxAlpha;
        pulseDirection := -1;
      } else if pulseAlpha <= 0 {
        pulseAlpha := 0;
        pulseDirection := 1;
      }
      repaints := repaints + 1;
    }

    /** A timeout of `pulse_timer`: `update_pulse` runs only while the timer
        does, so an idle bubble stays dark. */
    method Tick()
      requires Valid()
      modifies this`pulseAlpha, this`pulseDirection, this`repaints
      ensures Valid()
      ensures (pulseAlpha, pulseDirection)
        == (if isActive then PulseStep(old(pulseAlpha), old(pulseDirection)) else (old(pulseAlpha), old(pulseDirection)))
      ensures repaints == old(repaints) + (if isActive then 1 else 0)
    {
      if timerRunning {
        UpdatePulse();
      }
    }
  }

}
