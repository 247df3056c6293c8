/**
 * The manual driving loop of `simple_drive.py`: the keyboard controller
 * (`KeyboardControl`) that turns held keys into a `carla.VehicleControl`
 * tick by tick, and the camera manager's switch between its two views.
 *
 * pygame's event queue and key state, the clock and the simulator are
 * parameters: the events of a tick, the set of held keys and the
 * milliseconds since the previous tick are given, the control is returned.
 */
module SimpleDrive {
  import opened Common

  const ThrottleStep: real := 0.1
  const BrakeStep: real := 0.2
  const SteerPerMillisecond: real := 0.0005
  const SteerLimit: real := 0.7
  /** The length of `_camera_transforms`. */
  const ViewCount: nat := 2

  function Min(a: real, b: real): real { if a <= b then a else b }
  function Max(a: real, b: real): real { if a >= b then a else b }

  /**
   * `n * x` as `n` additions of `x`. The ramps below are proved against this
   * linear form and converted to the product once, which keeps non-linear
   * arithmetic out of the inductive steps.
   */
  function Times(n: nat, x: real): real {
    if n == 0 then 0.0 else Times(n - 1, x) + x
  }

  lemma {:induction false} TimesIsProduct(n: nat, x: real)
    ensures Times(n, x) == n as real * x
  {
    if n > 0 {
      TimesIsProduct(n - 1, x);
      assert n as real * x == (n - 1) as real * x + x;
    }
  }

  // ---------------------------------------------------------------------
  // Pedals
  // ---------------------------------------------------------------------

  /**
   * One tick of a pedal: held, it grows by `step` up to 1.0; released, it
   * drops to 0.0 at once.
   */
  function Ramp(prev: real, step: real, held: bool): (r: real)
    requires step > 0.0
    ensures !held ==> r == 0.0
    ensures held ==> r <= 1.0 && (prev < r || r == 1.0)
  {
    if held then Min(prev + step, 1.0) else 0.0
  }

  /** The pedal after `n` ticks held, starting released. */
  function RampFromRest(step: real, n: nat): real
    requires step > 0.0
  {
    if n == 0 then 0.0 else Ramp(RampFromRest(step, n - 1), step, true)
  }

  lemma {:induction false} RampFromRestSum(step: real, n: nat)
    requires step > 0.0
    ensures RampFromRest(step, n) == Min(Times(n, step), 1.0)
  {
    if n > 0 {
      RampFromRestSum(step, n - 1);
    }
  }

  /** Holding a pedal for `n` ticks gives `min(n * step, 1.0)`. */
  lemma RampFromRestValue(step: real, n: nat)
    requires step > 0.0
    ensures RampFromRest(step, n) == Min(n as real * step, 1.0)
  {
    RampFromRestSum(step, n);
    TimesIsProduct(n, step);
  }

  /** Full throttle takes 10 ticks and full brake 5 (in exact arithmetic). */
  lemma FullPedalTicks()
    ensures RampFromRest(ThrottleStep, 9) < 1.0 && RampFromRest(ThrottleStep, 10) == 1.0
    ensures RampFromRest(BrakeStep, 4) < 1.0 && RampFromRest(BrakeStep, 5) == 1.0
  {
    RampFromRestValue(ThrottleStep, 9);
    RampFromRestValue(ThrottleStep, 10);
    RampFromRestValue(BrakeStep, 4);
    RampFromRestValue(BrakeStep, 5);
  }

  // ---------------------------------------------------------------------
  // Steering
  // ---------------------------------------------------------------------

  /**
   * The steering cache after one tick, before clamping: steering left never
   * moves the wheel right of where it was or of the centre (a right-turned
   * wheel snaps back to 0 first), steering right mirrors that, and left
   * wins when both are held; with neither held the wheel is centred.
   */
  function NextSteerCache(cache: real, left: bool, right: bool, increment: real): (r: real)
    requires increment >= 0.0
    ensures left ==> r <= Min(cache, 0.0)
    ensures left && cache > 0.0 ==> r == 0.0
    ensures left && cache <= 0.0 ==> r == cache - increment
    ensures !left && right ==> r >= Max(cache, 0.0)
    ensures !left && right && cache < 0.0 ==> r == 0.0
    ensures !left && right && cache >= 0.0 ==> r == cache + increment
    ensures !left && !right ==> r == 0.0
  {
    if left then
      if cache > 0.0 then 0.0 else cache - increment
    else if right then
      if cache < 0.0 then 0.0 else cache + increment
    else 0.0
  }

  /** `min(0.7, max(-0.7, x))` */
  function ClampSteer(x: real): (r: real)
    ensures -SteerLimit <= r <= SteerLimit
    ensures -SteerLimit <= x <= SteerLimit ==> r == x
  {
    Min(SteerLimit, Max(-SteerLimit, x))
  }

  /** `round(cache, 1)`: the steer value sent to the vehicle. */
  function SteerOutput(cache: real): real {
    RoundHalfEven(cache, 10)
  }

  /**
   * The steer sent is a whole number of tenths, within the steering limit,
   * and within 0.05 of the cache.
   */
  lemma SteerOutputBounds(cache: real)
    requires -SteerLimit <= cache <= SteerLimit
    ensures -SteerLimit <= SteerOutput(cache) <= SteerLimit
    ensures -0.05 <= SteerOutput(cache) - cache <= 0.05
    ensures (SteerOutput(cache) * 10.0).Floor as real == SteerOutput(cache) * 10.0
  {
    RoundTenthsWithin(cache, 7);
    var k := RoundedUnits(cache, 10);
    assert SteerOutput(cache) * 10.0 == k as real;
  }

  /** The cache after holding left for `n` ticks of `increment` each, starting centred. */
  function SteerHeldLeft(n: nat, increment: real): real
    requires increment >= 0.0
  {
    if n == 0 then 0.0 else ClampSteer(NextSteerCache(SteerHeldLeft(n - 1, increment), true, false, increment))
  }

  /** One more tick of left: a cache at `-min(before, 0.7)` moves to `-min(before + increment, 0.7)`. */
  lemma SteerLeftStep(before: real, increment: real)
    requires before >= 0.0 && increment >= 0.0
    ensures ClampSteer(NextSteerCache(-Min(before, SteerLimit), true, false, increment)) == -Min(before + increment, SteerLimit)
  {
    assert NextSteerCache(-Min(before, SteerLimit), true, false, increment) == -Min(before, SteerLimit) - increment;
  }

  lemma {:induction false} SteerHeldLeftSum(n: nat, increment: real)
    requires increment >= 0.0
    ensures Times(n, increment) >= 0.0
    ensures SteerHeldLeft(n, increment) == -Min(Times(n, increment), SteerLimit)
  {
    if n > 0 {
      SteerHeldLeftSum(n - 1, increment);
      SteerLeftStep(Times(n - 1, increment), increment);
    }
  }

  /** Holding left turns the wheel linearly until it stops at -0.7. */
  lemma SteerHeldLeftValue(n: nat, increment: real)
    requires increment >= 0.0
    ensures SteerHeldLeft(n, increment) == -Min(n as real * increment, SteerLimit)
  {
    SteerHeldLeftSum(n, increment);
    TimesIsProduct(n, increment);
  }

  // ---------------------------------------------------------------------
  // Gear
  // ---------------------------------------------------------------------

  /** `Q` puts a vehicle in reverse into gear 1 and any other into gear -1. */
  function NextGear(gear: int, reverse: bool, q: bool): (g: int)
    ensures !q ==> g == gear
    ensures q ==> (g < 0 <==> !reverse) && (g == 1 || g == -1)
  {
    if q then (if reverse then 1 else -1) else gear
  }

  // ---------------------------------------------------------------------
  // The controller
  // ---------------------------------------------------------------------

  /** The fields of `carla.VehicleControl` the controller sets. */
  datatype VehicleControl = VehicleControl(throttle: real, steer: real, brake: real, handBrake: bool, reverse: bool, gear: int)

  /** `carla.VehicleControl()` */
  const InitialControl := VehicleControl(0.0, 0.0, 0.0, false, false, 0)

  predicate Accelerating(keys: set<Key>) { ArrowUp in keys || KeyW in keys }
  predicate Braking(keys: set<Key>) { ArrowDown in keys || KeyS in keys }
  predicate SteeringLeft(keys: set<Key>) { ArrowLeft in keys || KeyA in keys }
  predicate SteeringRight(keys: set<Key>) { ArrowRight in keys || KeyD in keys }

  /**
   * `(c, cache)` is what `_parse_vehicle_keys` leaves after `(c0, cache0)`
   * when `keys` are held and `ms` milliseconds passed.
   */
  predicate KeysParsed(c0: VehicleControl, cache0: real, keys: set<Key>, ms: nat, c: VehicleControl, cache: real) {
    && c.throttle == Ramp(c0.throttle, ThrottleStep, Accelerating(keys))
    && c.brake == Ramp(c0.brake, BrakeStep, Braking(keys))
    && cache == ClampSteer(NextSteerCache(cache0, SteeringLeft(keys), SteeringRight(keys), SteerPerMillisecond * ms as real))
    && c.steer == SteerOutput(cache)
    && c.handBrake == (KeySpace in keys)
    && c.gear == NextGear(c0.gear, c0.reverse, KeyQ in keys)
    && c.reverse == (c.gear < 0)
  }

  /** The controller's invariant: pedals in [0, 1], steering within the limit, reverse exactly in a negative gear. */
  predicate InRange(c: VehicleControl, cache: real) {
    && 0.0 <= c.throttle <= 1.0
    && 0.0 <= c.brake <= 1.0
    && -SteerLimit <= cache <= SteerLimit
    && -SteerLimit <= c.steer <= SteerLimit
    && c.reverse == (c.gear < 0)
  }

  /** A tick of key parsing keeps the controller in range. */
  lemma KeysParsedInRange(c0: VehicleControl, cache0: real, keys: set<Key>, ms: nat, c: VehicleControl, cache: real)
    requires InRange(c0, cache0)
    requires KeysParsed(c0, cache0, keys, ms, c, cache)
    ensures InRange(c, cache)
  {
    SteerOutputBounds(cache);
  }

  /** With no key held everything returns to rest except the gear, which stays. */
  lemma ReleasedKeysRest(c0: VehicleControl, cache0: real, ms: nat, c: VehicleControl, cache: real)
    requires KeysParsed(c0, cache0, {}, ms, c, cache)
    ensures c.throttle == 0.0 && c.brake == 0.0 && cache == 0.0 && c.steer == 0.0 && !c.handBrake
    ensures c.gear == c0.gear
  {
    assert RoundedUnits(0.0, 10) == 0;
  }

  /** A pygame event that makes `parse_events` return True. */
  predicate EndsDrive(e: Event) {
    e == Quit || e == KeyUp(KeyEscape)
  }

  /** Camera switches requested before the first event that ends the loop. */
  function TogglesBeforeEnd(events: seq<Event>): nat {
    if events == [] || EndsDrive(events[0]) then 0
    else TogglesBeforeEnd(events[1..]) + (if events[0] == KeyUp(KeyTab) then 1 else 0)
  }

  /** Counting the switches of a stretch with no ending event, then of the rest. */
  lemma {:induction false} TogglesBeforeEndAppend(a: seq<Event>, b: seq<Event>)
    requires forall i :: 0 <= i < |a| ==> !EndsDrive(a[i])
    ensures TogglesBeforeEnd(a + b) == TogglesBeforeEnd(a) + TogglesBeforeEnd(b)
  {
    if a != [] {
      assert (a + b)[1..] == a[1..] + b;
      TogglesBeforeEndAppend(a[1..], b);
    } else {
      assert a + b == b;
    }
  }

  /** How the count moves when the loop looks at event `i`. */
  lemma TogglesStep(events: seq<Event>, i: nat)
    requires i < |events|
    requires forall j :: 0 <= j < i ==> !EndsDrive(events[j])
    ensures EndsDrive(events[i]) ==> TogglesBeforeEnd(events) == TogglesBeforeEnd(events[..i])
    ensures !EndsDrive(events[i]) ==>
      TogglesBeforeEnd(events[..i + 1]) == TogglesBeforeEnd(events[..i]) + (if events[i] == KeyUp(KeyTab) then 1 else 0)
  {
    assert events[..i] + events[i..] == events;
    TogglesBeforeEndAppend(events[..i], events[i..]);
    assert events[..i] + [events[i]] == events[..i + 1];
    TogglesBeforeEndAppend(events[..i], [events[i]]);
    assert [events[i]][1..] == [];
  }

  class CameraManager {
    /** 0 is the third-person view, 1 the driver's view. */
    var transformIndex: nat

    ghost predicate Valid()
      reads this
    {
      transformIndex < ViewCount
    }

    constructor ()
      ensures Valid() && transformIndex == 0
    {
      transformIndex := 0;
    }

    /** `toggle_camera`: the next view, wrapping round (the sensor respawn is left out). */
    method ToggleCamera()
      requires Valid()
      modifies this
      ensures Valid()
      ensures transformIndex == (old(transformIndex) + 1) % ViewCount
    {
      transformIndex := (transformIndex + 1) % ViewCount;
    }
  }

  /** With two views, a switch always changes the view and two switches restore it. */
  lemma ToggleAlternates(i: nat)
    requires i < ViewCount
    ensures (i + 1) % ViewCount != i
    ensures ((i + 1) % ViewCount + 1) % ViewCount == i
  {
  }

  class KeyboardControl {
    var control: VehicleControl
    var steerCache: real

    ghost predicate Valid()
      reads this
    {
      InRange(control, steerCache)
    }

    constructor ()
      ensures Valid() && control == InitialControl && steerCache == 0.0
    {
      control := InitialControl;
      steerCache := 0.0;
    }

    /** `_parse_vehicle_keys` */
    method ParseVehicleKeys(keys: set<Key>, milliseconds: nat)
      requires Valid()
      modifies this
      ensures Valid()
      ensures KeysParsed(old(control), old(steerCache), keys, milliseconds, control, steerCache)
    {
      ghost var c0, cache0 := control, steerCache;
      var throttle, brake, cache := control.throttle, control.brake, steerCache;
      if ArrowUp in keys || KeyW in keys {
        throttle := Min(throttle + ThrottleStep, 1.0);
      } else {
        throttle := 0.0;
      }
      assert throttle == Ramp(c0.throttle, ThrottleStep, Accelerating(keys));
      if ArrowDown in keys || KeyS in keys {
        brake := Min(brake + BrakeStep, 1.0);
      } else {
        brake := 0.0;
      }
      assert brake == Ramp(c0.brake, BrakeStep, Braking(keys));
      var steerIncrement := SteerPerMillisecond * milliseconds as real;
      if ArrowLeft in keys || KeyA in keys {
        if cache > 0.0 {
          cache := 0.0;
        } else {
          cache := cache - steerIncrement;
        }
      } else if ArrowRight in keys || KeyD in keys {
        if cache < 0.0 {
          cache := 0.0;
        } else {
          cache := cache + steerIncrement;
        }
      } else {
        cache := 0.0;
      }
      assert cache == NextSteerCache(cache0, SteeringLeft(keys), SteeringRight(keys), steerIncrement);
      cache := Min(SteerLimit, Max(-SteerLimit, cache));
      var steer := RoundHalfEven(cache, 10);
      var handBrake := KeySpace in keys;
      var gear := control.gear;
      if KeyQ in keys {
        gear := if control.reverse then 1 else -1;
      }
      control := VehicleControl(throttle, steer, brake, handBrake, gear < 0, gear);
      steerCache := cache;
      KeysParsedInRange(c0, cache0, keys, milliseconds, control, steerCache);
    }

    /**
     * `parse_events`: `quit` when a quit event or a released `ESC` comes
     * before the queue ends; every released `TAB` before it switches the
     * camera; only a tick that goes on parses the held keys and applies the
     * control.
     */
    method ParseEvents(events: seq<Event>, keys: set<Key>, milliseconds: nat, camera: CameraManager)
      returns (quit: bool, applied: Option<VehicleControl>)
      requires Valid() && camera.Valid()
      modifies this, camera
      ensures Valid() && camera.Valid()
      ensures quit <==> exists i :: 0 <= i < |events| && EndsDrive(events[i])
      ensures camera.transformIndex == (old(camera.transformIndex) + TogglesBeforeEnd(events)) % ViewCount
      ensures quit ==> applied.None? && control == old(control) && steerCache == old(steerCache)
      ensures !quit ==> applied == Some(control) && KeysParsed(old(control), old(steerCache), keys, milliseconds, control, steerCache)
    {
      ghost var index0 := camera.transformIndex;
      for i := 0 to |events|
        invariant camera.Valid()
        invariant forall j :: 0 <= j < i ==> !EndsDrive(events[j])
        invariant camera.transformIndex == (index0 + TogglesBeforeEnd(events[..i])) % ViewCount
        invariant control == old(control) && steerCache == old(steerCache)
      {
        var event := events[i];
        TogglesStep(events, i);
        if event == Quit {
          assert EndsDrive(events[i]);
          return true, None;
        } else if event.KeyUp? {
          if event.key == KeyEscape {
            assert EndsDrive(events[i]);
            return true, None;
          } else if event.key == KeyTab {
            camera.ToggleCamera();
          }
        }
      }
      assert events[..|events|] == events;
      ParseVehicleKeys(keys, milliseconds);
      quit, applied := false, Some(control);
    }
  }
}
