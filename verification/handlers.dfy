/**
  The two service callbacks that recolour text: the battery handler picks the
  hour-text colour from the charge state, and the connection handler picks the
  date-text colour and asks for a vibration when the phone is not connected.
 */
module Handlers {
  import opened Palette
  import opened Wrappers

  /** Thresholds of the battery chain, in percent. */
  const BATTERY_OK_ABOVE: int := 20
  const BATTERY_CRITICAL_AT_OR_BELOW: int := 10

  /** The battery handler's if / else-if chain, first match wins. The chain
      has no final `else`, so the result is `None` when no branch matches;
      the contract shows that never happens. */
  function BatteryColor(isCharging: bool, percent: int): (c: Option<Color>)
    ensures c.Some?
    ensures c.value in {Accent, White, Warn, Error}
    ensures isCharging ==> c == Some(Accent)
  {
    if isCharging then Some(Accent)
    else if percent > BATTERY_OK_ABOVE then Some(White)
    else if percent <= BATTERY_CRITICAL_AT_OR_BELOW then Some(Error)
    else if percent <= BATTERY_OK_ABOVE then Some(Warn)
    else None
  }

  /** What one connection callback does to the display. */
  datatype ConnectionEffect = ConnectionEffect(dateColor: Color, vibrate: bool)

  /** The connection handler. It keeps no memory of the previous state: every
      disconnected callback vibrates, including repeated ones. */
  function OnConnection(connected: bool): (e: ConnectionEffect)
    ensures e.vibrate <==> e.dateColor == Error
  {
    if connected then ConnectionEffect(Main, false)
    else ConnectionEffect(Error, true)
  }

  /** How alarming a hour-text colour is, for comparing battery outcomes. */
  function Severity(c: Color): nat {
    match c
    case White => 0
    case Warn => 1
    case Error => 2
    case _ => 0
  }

  /** Number of vibrations a sequence of connection callbacks requests. */
  function Vibrations(events: seq<bool>): (n: nat)
    ensures n <= |events|
  {
    if |events| == 0 then 0
    else
      var last := if OnConnection(events[|events| - 1]).vibrate then 1 else 0;
      Vibrations(events[..|events| - 1]) + last
  }

  /** Number of connected-to-disconnected transitions in `events`, given the
      state before the first one. */
  function DisconnectEdges(before: bool, events: seq<bool>): (n: nat)
    ensures n <= |events|
    decreases events
  {
    if |events| == 0 then 0
    else (if before && !events[0] then 1 else 0) + DisconnectEdges(events[0], events[1..])
  }

  /** Off the charger the colour is white above 20%, warn for 11..20% and
      error at 10% and below; on the charger it is accent at every percent. */
  lemma BatteryBands(isCharging: bool, percent: int)
    ensures isCharging ==> BatteryColor(isCharging, percent) == Some(Accent)
    ensures !isCharging ==>
      (BatteryColor(isCharging, percent) == Some(White) <==> percent > 20)
    ensures !isCharging ==>
      (BatteryColor(isCharging, percent) == Some(Warn) <==> 11 <= percent <= 20)
    ensures !isCharging ==>
      (BatteryColor(isCharging, percent) == Some(Error) <==> percent <= 10)
  {
  }

  /** The boundary values of the chain. */
  lemma BatteryBoundaries()
    ensures BatteryColor(false, 21) == Some(White)
    ensures BatteryColor(false, 20) == Some(Warn)
    ensures BatteryColor(false, 11) == Some(Warn)
    ensures BatteryColor(false, 10) == Some(Error)
    ensures BatteryColor(false, 0) == Some(Error)
    ensures forall p :: BatteryColor(true, p) == Some(Accent)
  {
  }

  /** Off the charger, a lower charge never gives a less alarming colour. */
  lemma BatterySeverityMonotone(p1: int, p2: int)
    requires p1 <= p2
    ensures Severity(BatteryColor(false, p1).value) >= Severity(BatteryColor(false, p2).value)
  {
  }

  /** Connected shows the date in the main colour without vibrating;
      disconnected shows it in the error colour and vibrates. */
  lemma ConnectionColors(connected: bool)
    ensures connected ==> OnConnection(connected) == ConnectionEffect(Main, false)
    ensures !connected ==> OnConnection(connected) == ConnectionEffect(Error, true)
  {
  }

  /** Every disconnected callback vibrates: the count is the number of
      `false` events, not the number of transitions. */
  lemma {:induction false} VibrationsCountDisconnects(events: seq<bool>)
    ensures Vibrations(events) == multiset(events)[false]
  {
    if |events| > 0 {
      var init := events[..|events| - 1];
      VibrationsCountDisconnects(init);
      assert events == init + [events[|events| - 1]];
    }
  }

  /** Vibrations can only exceed the transition count: a run of repeated
      disconnected callbacks vibrates once per callback. */
  lemma {:induction false} VibrationsCoverEdges(before: bool, events: seq<bool>)
    ensures DisconnectEdges(before, events) <= multiset(events)[false]
    ensures DisconnectEdges(before, events) <= Vibrations(events)
    decreases events
  {
    if |events| > 0 {
      VibrationsCoverEdges(events[0], events[1..]);
      assert events == [events[0]] + events[1..];
    }
    VibrationsCountDisconnects(events);
  }

  /** Two disconnected callbacks in a row vibrate twice, though only one of
      them is a transition. */
  lemma RepeatedDisconnectVibratesAgain()
    ensures Vibrations([false, false]) == 2
    ensures DisconnectEdges(true, [false, false]) == 1
  {
    assert [false, false][..1] == [false];
    assert [false, false][1..] == [false];
  }
}
