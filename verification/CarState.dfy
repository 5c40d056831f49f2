/** state/machine.go, CarState: the record of one car, updated in place. */
module Cars {
  import opened GoValues
  import opened Models
  import opened Engine
  import T = Topics

  /** A running time.Ticker. */
  datatype TimeTicker = TimeTicker(period: int, next: int)

  /** The enrichment fields. */
  predicate Measures(f: T.Field) {
    f.ChargerPower? || f.ChargeEnergyAdded? || f.TimeToFullCharge? || f.RatedRangeKm? || f.UsableBattery? || f.ChargeLimitSoc? ||
    f.Speed? || f.OutsideTemp? || f.Odometer? || f.ActiveRoute?
  }

  /** A car whose tickers have been stopped for good. */
  function Quiet(c: Car): Car {
    c.(charge := None, drive := None, driveStart := None, driveStartOdometer := 0.0)
  }

  class CarState {
    var state: string
    var chargingState: string
    var batteryLevel: int
    var pluggedIn: bool
    var geofence: string
    var updateAvailable: string
    var chargerPower: real
    /** The measurements that only travel into payloads. */
    var telemetry: Telemetry
    var displayName: string
    var model: string
    var updateVersion: string
    var previousGeofence: string
    var speed: int
    var odometer: real
    var centerDisplayState: int
    var batteryLowFired: bool
    var batteryHighFired: bool

    /** A stop channel is named by its place among the channels made for its kind of ticker. */
    var chargeOpens: nat
    var driveOpens: nat
    var liveActivityTicker: Option<TimeTicker>
    var liveActivityStop: Option<nat>
    var drivingTicker: Option<TimeTicker>
    var drivingStop: Option<nat>
    var driveStartTime: Option<nat>
    var driveStartOdometer: real

    var initialized: set<T.Field>
    var pendingEvents: seq<EventType>
    var raw: Option<map<string, string>>

    /** The pending events, each with the time its goroutine wakes up. */
    ghost var pending: seq<Pending>
    /** The stop channels of each kind below these are closed. */
    ghost var chargeCloses: nat
    ghost var driveCloses: nat

    ghost predicate Valid()
      reads this`pendingEvents, this`pending, this`liveActivityTicker, this`liveActivityStop, this`drivingTicker, this`drivingStop
      reads this`chargeOpens, this`chargeCloses, this`driveOpens, this`driveCloses
    {
      && |pendingEvents| == |pending|
      && (forall i | 0 <= i < |pending| :: pendingEvents[i] == pending[i].event)
      && liveActivityTicker.Some? == liveActivityStop.Some?
      && drivingTicker.Some? == drivingStop.Some?
      && chargeOpens == chargeCloses + (if liveActivityStop.Some? then 1 else 0)
      && (liveActivityStop.Some? ==> liveActivityStop.value == chargeCloses)
      && driveOpens == driveCloses + (if drivingStop.Some? then 1 else 0)
      && (drivingStop.Some? ==> drivingStop.value == driveCloses)
    }

    ghost function Joined(ticker: Option<TimeTicker>, stop: Option<nat>): Option<Ticker> {
      if ticker.Some? && stop.Some? then Some(Ticker(stop.value, ticker.value.period, ticker.value.next)) else None
    }

    ghost function View(): Car
      reads this
    {
      Car(state, chargingState, batteryLevel, pluggedIn, geofence, previousGeofence, updateAvailable, updateVersion,
          displayName, model, centerDisplayState, chargerPower, speed, odometer, telemetry,
          batteryLowFired, batteryHighFired,
          Joined(liveActivityTicker, liveActivityStop), Joined(drivingTicker, drivingStop), chargeOpens, driveOpens,
          driveStartTime, driveStartOdometer, initialized, pending, raw)
    }

    constructor ()
      ensures Valid() && View() == NEW_CAR
    {
      state, chargingState, batteryLevel, pluggedIn, geofence, previousGeofence := "", "", 0, false, "", "";
      updateAvailable, updateVersion, displayName, model, centerDisplayState := "", "", "", "", 0;
      chargerPower, speed, odometer, telemetry := 0.0, 0, 0.0, NO_TELEMETRY;
      batteryLowFired, batteryHighFired := false, false;
      liveActivityTicker, liveActivityStop, drivingTicker, drivingStop := None, None, None, None;
      driveStartTime, driveStartOdometer := None, 0.0;
      initialized, pendingEvents, raw := {}, [], None;
      pending, chargeOpens, chargeCloses, driveOpens, driveCloses := [], 0, 0, 0, 0;
    }

    /** What NewManager does with a car's cached names. */
    method Restore(cachedName: string, cachedModel: string)
      requires Valid() && View() == NEW_CAR
      modifies this`displayName, this`model, this`initialized
      ensures Valid() && View() == RestoredCar(cachedName, cachedModel)
    {
      if cachedName != "" {
        displayName := cachedName;
        initialized := initialized + {T.DisplayName};
      }
      if cachedModel != "" {
        model := cachedModel;
        initialized := initialized + {T.Model};
      }
    }

    /** close(ch): closing a closed channel would panic. */
    ghost method CloseChargeChannel(ch: nat)
      requires chargeCloses <= ch
      modifies this`chargeCloses
      ensures chargeCloses == ch + 1
    {
      chargeCloses := ch + 1;
    }

    ghost method CloseDriveChannel(ch: nat)
      requires driveCloses <= ch
      modifies this`driveCloses
      ensures driveCloses == ch + 1
    {
      driveCloses := ch + 1;
    }

    method StopLiveActivity()
      requires Valid()
      modifies this`liveActivityTicker, this`liveActivityStop, this`chargeCloses
      ensures Valid() && liveActivityStop.None? && View() == old(View()).(charge := None)
    {
      if liveActivityStop.Some? {
        CloseChargeChannel(liveActivityStop.value);
        liveActivityStop := None;
      }
      if liveActivityTicker.Some? {
        liveActivityTicker := None;
      }
    }

    method StopDrivingTicker()
      requires Valid()
      modifies this`drivingTicker, this`drivingStop, this`driveCloses
      ensures Valid() && drivingStop.None? && View() == old(View()).(drive := None)
    {
      if drivingStop.Some? {
        CloseDriveChannel(drivingStop.value);
        drivingStop := None;
      }
      if drivingTicker.Some? {
        drivingTicker := None;
      }
    }

    method StopTiming()
      modifies this`driveStartTime, this`driveStartOdometer
      ensures View() == old(View()).(driveStart := None, driveStartOdometer := 0.0)
    {
      driveStartTime := None;
      driveStartOdometer := 0.0;
    }

    method StopDrivingLiveActivity()
      requires Valid()
      modifies this`drivingTicker, this`drivingStop, this`driveStartTime, this`driveStartOdometer, this`driveCloses
      ensures Valid() && drivingStop.None?
      ensures View() == old(View()).(drive := None, driveStart := None, driveStartOdometer := 0.0)
    {
      StopDrivingTicker();
      StopTiming();
    }

    method StartTiming(now: nat)
      requires Valid()
      modifies this`driveStartTime, this`driveStartOdometer
      ensures Valid() && View() == old(View()).(driveStart := Some(now), driveStartOdometer := odometer)
    {
      driveStartTime := Some(now);
      driveStartOdometer := odometer;
    }

    method SetLiveActivity(ticker: TimeTicker, stop: nat)
      modifies this`liveActivityTicker, this`liveActivityStop
      ensures liveActivityTicker == Some(ticker) && liveActivityStop == Some(stop)
      ensures View() == old(View()).(charge := Some(Ticker(stop, ticker.period, ticker.next)))
    {
      liveActivityTicker := Some(ticker);
      liveActivityStop := Some(stop);
    }

    method SetDriving(ticker: TimeTicker, stop: nat)
      modifies this`drivingTicker, this`drivingStop
      ensures drivingTicker == Some(ticker) && drivingStop == Some(stop)
      ensures View() == old(View()).(drive := Some(Ticker(stop, ticker.period, ticker.next)))
    {
      drivingTicker := Some(ticker);
      drivingStop := Some(stop);
    }

    /** Stop, and time a new drive. */
    method RestartTiming(now: nat)
      requires Valid()
      modifies this`drivingTicker, this`drivingStop, this`driveStartTime, this`driveStartOdometer, this`driveCloses
      ensures Valid() && drivingStop.None?
      ensures var v := old(View());
              View() == v.(drive := None, driveStart := Some(now), driveStartOdometer := v.odometer)
    {
      StopDrivingLiveActivity();
      StartTiming(now);
    }

    /** A new ticker, first due one interval from now, with a new stop channel. */
    method OpenLiveActivity(interval: int, now: nat)
      requires Valid() && liveActivityStop.None?
      modifies this`liveActivityTicker, this`liveActivityStop, this`chargeOpens
      ensures Valid()
      ensures var v := old(View());
              View() == v.(charge := Some(Ticker(v.chargeOpens, interval, now + interval)), chargeOpens := v.chargeOpens + 1)
    {
      SetLiveActivity(TimeTicker(interval, now + interval), chargeOpens);
      chargeOpens := chargeOpens + 1;
    }

    method OpenDrivingLiveActivity(interval: int, now: nat)
      requires Valid() && drivingStop.None?
      modifies this`drivingTicker, this`drivingStop, this`driveOpens
      ensures Valid()
      ensures var v := old(View());
              View() == v.(drive := Some(Ticker(v.driveOpens, interval, now + interval)), driveOpens := v.driveOpens + 1)
    {
      SetDriving(TimeTicker(interval, now + interval), driveOpens);
      driveOpens := driveOpens + 1;
    }

    /** A copy of the raw map for an outgoing payload, or nil. */
    method RawSnapshot() returns (snapshot: Option<map<string, string>>)
      ensures snapshot == Engine.RawSnapshot(View())
    {
      if raw.None? || |raw.value| == 0 {
        return None;
      }
      var out: map<string, string> := map[];
      var left := raw.value.Keys;
      while left != {}
        invariant left <= raw.value.Keys
        invariant out == map k | k in raw.value.Keys - left :: raw.value[k]
      {
        var k :| k in left;
        out := out[k := raw.value[k]];
        left := left - {k};
      }
      assert out == raw.value;
      return Some(out);
    }

    method BatteryThresholdEvents(p: Params) returns (events: seq<EventType>)
      modifies this`batteryLowFired, this`batteryHighFired
      ensures var v := old(View());
              var a := BatteryThresholds(p, v.batteryLevel, v.lowFired, v.highFired);
              View() == v.(lowFired := a.low, highFired := a.high) && events == a.events
    {
      events := [];
      if batteryLevel <= p.batteryLow {
        if !batteryLowFired {
          batteryLowFired := true;
          events := events + [BatteryLow];
        }
      } else if batteryLevel >= p.batteryLow + REARM_MARGIN {
        batteryLowFired := false;
      }
      if batteryLevel >= p.batteryHigh {
        if !batteryHighFired {
          batteryHighFired := true;
          events := events + [BatteryFull];
        }
      } else if batteryLevel <= p.batteryHigh - REARM_MARGIN {
        batteryHighFired := false;
      }
    }

    /** Save the place before, then overwrite it. */
    method MoveTo(value: string)
      modifies this`geofence, this`previousGeofence
      ensures var v := old(View()); View() == v.(previousGeofence := v.geofence, geofence := value)
    {
      previousGeofence := geofence;
      geofence := value;
    }

    method MarkInitialized(f: T.Field)
      modifies this`initialized
      ensures View() == old(View()).(initialized := old(View()).initialized + {f})
    {
      initialized := initialized + {f};
    }

    method SetState(value: string)
      modifies this`state
      ensures View() == old(View()).(state := value)
    {
      state := value;
    }

    method SetChargingState(value: string)
      modifies this`chargingState
      ensures View() == old(View()).(chargingState := value)
    {
      chargingState := value;
    }

    method SetBatteryLevel(value: int)
      modifies this`batteryLevel
      ensures View() == old(View()).(batteryLevel := value)
    {
      batteryLevel := value;
    }

    method SetUpdateAvailable(value: string)
      modifies this`updateAvailable
      ensures View() == old(View()).(updateAvailable := value)
    {
      updateAvailable := value;
    }

    method SetUpdateVersion(value: string)
      modifies this`updateVersion
      ensures View() == old(View()).(updateVersion := value)
    {
      updateVersion := value;
    }

    method SetCenterDisplayState(value: int)
      modifies this`centerDisplayState
      ensures View() == old(View()).(centerDisplayState := value)
    {
      centerDisplayState := value;
    }

    method SetDisplayName(value: string)
      modifies this`displayName
      ensures View() == old(View()).(displayName := value)
    {
      displayName := value;
    }

    method SetModel(value: string)
      modifies this`model
      ensures View() == old(View()).(model := value)
    {
      model := value;
    }

    method SetPluggedIn(value: bool)
      modifies this`pluggedIn
      ensures View() == old(View()).(pluggedIn := value)
    {
      pluggedIn := value;
    }

    method SetChargerPower(value: real)
      modifies this`chargerPower
      ensures View() == old(View()).(chargerPower := value)
    {
      chargerPower := value;
    }

    method SetSpeed(value: int)
      modifies this`speed
      ensures View() == old(View()).(speed := value)
    {
      speed := value;
    }

    method SetOdometer(value: real)
      modifies this`odometer
      ensures View() == old(View()).(odometer := value)
    {
      odometer := value;
    }

    method SetTelemetry(value: Telemetry)
      modifies this`telemetry
      ensures View() == old(View()).(telemetry := value)
    {
      telemetry := value;
    }

    /** A field that updates state only. */
    method Measure(p: Params, f: T.Field, value: string)
      requires Measures(f)
      modifies this`chargerPower, this`speed, this`odometer, this`telemetry
      ensures View() == Assign(p, old(View()), f, value, false)
    {
      var x, i := p.parseFloat(value), Atoi(value);
      if f.ChargerPower? && x.Some? {
        SetChargerPower(x.value);
      } else if f.Speed? && i.Some? {
        SetSpeed(i.value);
      } else if f.Odometer? && x.Some? {
        SetOdometer(x.value);
      } else if f.ActiveRoute? {
        MeasureRoute(p, value);
      } else if !f.ChargerPower? && !f.Speed? && !f.Odometer? {
        MeasureTelemetry(p, f, value);
      }
    }

    /** An error clears the route; a route without a location keeps the last one. */
    method MeasureRoute(p: Params, value: string)
      modifies this`telemetry
      ensures View() == Assign(p, old(View()), T.ActiveRoute, value, false)
    {
      var m := p.parseRoute(value);
      if m.None? {
        return;
      }
      var t := telemetry;
      match m.value {
        case RouteError => t := t.(route := NO_ROUTE, location := NOWHERE);
        case RouteUpdate(route, location) =>
          t := t.(route := route);
          if location.Some? {
            t := t.(location := location.value);
          }
      }
      SetTelemetry(t);
    }

    method MeasureTelemetry(p: Params, f: T.Field, value: string)
      requires f.ChargeEnergyAdded? || f.TimeToFullCharge? || f.RatedRangeKm? || f.UsableBattery? || f.ChargeLimitSoc? || f.OutsideTemp?
      modifies this`telemetry
      ensures View() == Assign(p, old(View()), f, value, false)
    {
      var x, i := p.parseFloat(value), Atoi(value);
      var t := telemetry;
      match f {
        case ChargeEnergyAdded => if x.Some? { t := t.(chargeEnergyAdded := x.value); }
        case TimeToFullCharge => if x.Some? { t := t.(timeToFullCharge := x.value); }
        case RatedRangeKm => if x.Some? { t := t.(ratedRangeKm := x.value); }
        case UsableBattery => if i.Some? { t := t.(usableBattery := i.value); }
        case ChargeLimitSoc => if i.Some? { t := t.(chargeLimitSoc := i.value); }
        case OutsideTemp => if x.Some? { t := t.(outsideTemp := x.value); }
      }
      SetTelemetry(t);
    }

    /** The first pending event of a type. */
    method FindPending(e: EventType) returns (i: nat)
      requires Valid()
      ensures i == FirstPending(pending, e)
    {
      i := 0;
      while i < |pendingEvents|
        invariant i <= |pendingEvents| && forall k | 0 <= k < i :: pendingEvents[k] != e
      {
        if pendingEvents[i] == e {
          return;
        }
        i := i + 1;
      }
    }

    method AddPending(e: EventType, ghost due: nat)
      requires Valid()
      modifies this`pendingEvents, this`pending
      ensures Valid()
      ensures var v := old(View()); View() == v.(pending := v.pending + [Pending(e, due)])
    {
      pendingEvents := pendingEvents + [e];
      pending := pending + [Pending(e, due)];
    }

    method KeepPending(stillPending: seq<EventType>, ghost kept: seq<Pending>)
      requires Valid()
      requires |stillPending| == |kept| && forall i | 0 <= i < |kept| :: stillPending[i] == kept[i].event
      modifies this`pendingEvents, this`pending
      ensures Valid() && View() == old(View()).(pending := kept)
    {
      pendingEvents := stillPending;
      pending := kept;
    }

    method RemovePending(i: nat)
      requires Valid() && i < |pendingEvents|
      modifies this`pendingEvents, this`pending
      ensures Valid()
      ensures var v := old(View()); View() == v.(pending := v.pending[..i] + v.pending[i + 1..])
    {
      pendingEvents := pendingEvents[..i] + pendingEvents[i + 1..];
      pending := pending[..i] + pending[i + 1..];
    }

    /** A tick has been received: reset the ticker if the interval has changed, else let it run on. */
    method AdvanceLiveActivity(newInterval: int, now: nat)
      requires Valid() && liveActivityTicker.Some?
      modifies this`liveActivityTicker
      ensures Valid()
      ensures var v := old(View()); View() == v.(charge := Some(Ticked(v.charge.value, newInterval, now)))
    {
      var t := liveActivityTicker.value;
      liveActivityTicker :=
        Some(if newInterval != t.period then TimeTicker(newInterval, now + newInterval) else TimeTicker(t.period, t.next + t.period));
    }

    method AdvanceDriving(newInterval: int, now: nat)
      requires Valid() && drivingTicker.Some?
      modifies this`drivingTicker
      ensures Valid()
      ensures var v := old(View()); View() == v.(drive := Some(Ticked(v.drive.value, newInterval, now)))
    {
      var t := drivingTicker.value;
      drivingTicker :=
        Some(if newInterval != t.period then TimeTicker(newInterval, now + newInterval) else TimeTicker(t.period, t.next + t.period));
    }

    /** Both tickers, for good. */
    method StopTickers()
      requires Valid()
      modifies this`liveActivityTicker, this`liveActivityStop, this`chargeCloses
      modifies this`drivingTicker, this`drivingStop, this`driveStartTime, this`driveStartOdometer, this`driveCloses
      ensures Valid() && View() == Quiet(old(View()))
    {
      StopLiveActivity();
      StopDrivingLiveActivity();
    }
  }
}
