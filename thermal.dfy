/**
 * Thermal pause and resume (src/main.py:751-766). Readings are in degrees Celsius; the source
 * reads them from the SoC temperature file, which is not modelled.
 */
module Thermal {

  /** Running, or paused since a reading above the limit; `reading` is the latest one seen. */
  datatype GateState = Running | Paused(reading: real)

  /** The temperature at or below which a paused board resumes: `max_pi_temp - 3`. */
  function ResumeAt(maxTemp: int): real {
    (maxTemp - 3) as real
  }

  /** One observation: a running board pauses above `maxTemp`; a paused one stays paused above
      `maxTemp - 3` and resumes at or below it. */
  function Step(g: GateState, t: real, maxTemp: int): GateState {
    match g
    case Running => if t > maxTemp as real then Paused(t) else Running
    case Paused(_) => if t > ResumeAt(maxTemp) then Paused(t) else Running
  }

  /** The state after the readings `ts`, in order. */
  function Run(g: GateState, ts: seq<real>, maxTemp: int): GateState
    decreases |ts|
  {
    if ts == [] then g else Run(Step(g, ts[0], maxTemp), ts[1..], maxTemp)
  }

  /** A running board pauses exactly on a reading above the limit; a paused board resumes exactly
      on a reading at or below the limit minus three; the same reading never does both. */
  lemma StepHysteresis(t: real, p: real, maxTemp: int)
    ensures Step(Running, t, maxTemp).Paused? <==> t > maxTemp as real
    ensures Step(Paused(p), t, maxTemp) == Running <==> t <= (maxTemp - 3) as real
    ensures Step(Running, t, maxTemp).Paused? ==> Step(Step(Running, t, maxTemp), t, maxTemp).Paused?
  {
  }

  /** While paused, readings above the limit minus three keep the board paused. */
  lemma {:induction false} StaysPausedWhileWarm(g: GateState, ts: seq<real>, maxTemp: int)
    requires g.Paused?
    requires forall i :: 0 <= i < |ts| ==> ts[i] > ResumeAt(maxTemp)
    ensures Run(g, ts, maxTemp).Paused?
    decreases |ts|
  {
    if ts != [] {
      StaysPausedWhileWarm(Step(g, ts[0], maxTemp), ts[1..], maxTemp);
    }
  }

  /** While running, readings at or below the limit keep the board running. */
  lemma {:induction false} StaysRunningWhileCool(ts: seq<real>, maxTemp: int)
    requires forall i :: 0 <= i < |ts| ==> ts[i] <= maxTemp as real
    ensures Run(Running, ts, maxTemp) == Running
    decreases |ts|
  {
    if ts != [] {
      StaysRunningWhileCool(ts[1..], maxTemp);
    }
  }

  /** A paused board that is running again has seen a reading at or below the limit minus three. */
  lemma {:induction false} ResumeNeedsCoolReading(g: GateState, ts: seq<real>, maxTemp: int)
    requires g.Paused?
    requires Run(g, ts, maxTemp) == Running
    ensures exists i :: 0 <= i < |ts| && ts[i] <= ResumeAt(maxTemp)
  {
    if forall i :: 0 <= i < |ts| ==> ts[i] > ResumeAt(maxTemp) {
      StaysPausedWhileWarm(g, ts, maxTemp);
    }
  }

  /** With a limit of 60: 61 pauses, 60 and 59 stay paused, 57 resumes. */
  lemma HysteresisExample()
    ensures Run(Running, [61.0], 60).Paused?
    ensures Run(Running, [61.0, 60.0, 59.0], 60).Paused?
    ensures Run(Running, [61.0, 60.0, 59.0, 57.0], 60) == Running
  {
  }

  /** The `threading.Event` the workers wait on: set while running, cleared while cooling. */
  class PauseEvent {
    var isSet: bool

    constructor ()
      ensures isSet
    {
      isSet := true;
    }

    method Set()
      modifies this
      ensures isSet
    {
      isSet := true;
    }

    method Clear()
      modifies this
      ensures !isSet
    {
      isSet := false;
    }
  }

  /**
   * The temperature check of the display loop: `first` is the reading taken after a frame was
   * consumed and `later` the readings taken every ten seconds while cooling down. Above the limit
   * the event is cleared and one cooldown screen is shown per reading until a reading at or below
   * the limit minus three sets the event again. `used` counts the readings taken from `later`;
   * `done` is false when `later` runs out while the board is still too hot (the source would keep
   * waiting).
   */
  method CheckTemperature(event: PauseEvent, maxTemp: int, first: real, later: seq<real>)
    returns (screens: seq<real>, used: nat, done: bool)
    modifies event
    ensures used <= |later|
    ensures first <= maxTemp as real ==> screens == [] && used == 0 && done && event.isSet == old(event.isSet)
    ensures first > maxTemp as real ==>
      && screens == ([first] + later)[..used]
      && event.isSet == done
      && (Run(Running, [first] + later[..used], maxTemp) == Running <==> done)
      && (done <==> exists i :: 0 <= i < |later| && later[i] <= ResumeAt(maxTemp))
      && (done ==> 1 <= used && later[used - 1] <= ResumeAt(maxTemp))
      && forall i :: 0 <= i < used - 1 ==> later[i] > ResumeAt(maxTemp)
  {
    screens, used, done := [], 0, true;
    if first > maxTemp as real {
      event.Clear();
      var temp := first;
      while temp > ResumeAt(maxTemp) && used < |later|
        invariant used <= |later|
        invariant temp == ([first] + later)[used]
        invariant screens == ([first] + later)[..used]
        invariant forall i :: 0 <= i < used ==> ([first] + later)[i] > ResumeAt(maxTemp)
        invariant temp > ResumeAt(maxTemp) ==> Run(Running, [first] + later[..used], maxTemp) == Paused(temp)
        invariant temp <= ResumeAt(maxTemp) ==> Run(Running, [first] + later[..used], maxTemp) == Running
        invariant !event.isSet
        decreases |later| - used
      {
        screens := screens + [temp];
        temp := later[used];
        RunSnoc(Running, [first] + later[..used], temp, maxTemp);
        assert [first] + later[..used + 1] == [first] + later[..used] + [temp];
        used := used + 1;
      }
      done := temp <= ResumeAt(maxTemp);
      assert forall i :: 0 <= i < used - 1 ==> later[i] == ([first] + later)[i + 1];
      if !done {
        assert forall i :: 0 <= i < |later| ==> later[i] == ([first] + later)[i + 1];
      }
      if done {
        event.Set();
      }
    }
  }

  lemma {:induction false} RunSnoc(g: GateState, ts: seq<real>, t: real, maxTemp: int)
    ensures Run(g, ts + [t], maxTemp) == Step(Run(g, ts, maxTemp), t, maxTemp)
    decreases |ts|
  {
    if ts == [] {
      assert ts + [t] == [t];
    } else {
      assert (ts + [t])[1..] == ts[1..] + [t];
      RunSnoc(Step(g, ts[0], maxTemp), ts[1..], t, maxTemp);
    }
  }
}
