/**
 * One cycle of each stage of the board, run sequentially: the fetch worker (`api_fetch_worker`,
 * src/main.py:495-547), the render worker (`arrival_lines_worker`, src/main.py:550-628) and one
 * tick of the display loop in `main` (src/main.py:739-804). The threads, their sleeps and the
 * interleavings between them are not modelled; `pause_event.wait()` is modelled as a cycle that
 * does nothing while the event is clear.
 */
module Workers {
  import opened Outcomes
  import Query
  import Arrivals
  import Layout
  import Channel
  import Thermal
  import Text
  import Countdown

  /** `get_arrivals`'s default row count `n`. */
  const DefaultRows: int := 7

  /** `query_TFL`'s default `max_retries`. */
  const DefaultRetries: int := 3

  /** The selection the fetch worker computes for one profile from the attempts of its query. */
  function Fetched(attempts: nat -> Query.Attempt<Arrivals.Body>, filter: Arrivals.LineFilter, earliest: int, parse: string -> Option<int>): seq<Arrivals.Entry> {
    var reply := Query.QueryReply(attempts, DefaultRetries, Arrivals.BodyFalsy, Arrivals.JsonList([]));
    Arrivals.GetArrivals(reply, filter, earliest, DefaultRows, parse)
  }

  /**
   * One fetch cycle: both profiles are fetched and selected, and each selection replaces whatever
   * is unread in that profile's raw-data queue. A fetch that fails publishes the empty selection.
   */
  method FetchCycle(
    event: Thermal.PauseEvent,
    raw1: Channel.Slot<seq<Arrivals.Entry>>, raw2: Channel.Slot<seq<Arrivals.Entry>>,
    attempts1: nat -> Query.Attempt<Arrivals.Body>, attempts2: nat -> Query.Attempt<Arrivals.Body>,
    filter1: Arrivals.LineFilter, filter2: Arrivals.LineFilter, earliest: int, parse: string -> Option<int>)
    returns (ran: bool)
    requires raw1 != raw2
    modifies raw1, raw2
    ensures ran == event.isSet
    ensures !ran ==> raw1.item == old(raw1.item) && raw2.item == old(raw2.item)
    ensures ran ==> raw1.item == Some(Fetched(attempts1, filter1, earliest, parse))
    ensures ran ==> raw2.item == Some(Fetched(attempts2, filter2, earliest, parse))
  {
    ran := event.isSet;
    if !ran {
      return;
    }
    var reply1, _, _ := Query.QueryTfl(attempts1, DefaultRetries, Arrivals.BodyFalsy, Arrivals.JsonList([]));
    var newArrivals1 := Arrivals.GetArrivals(reply1, filter1, earliest, DefaultRows, parse);
    var reply2, _, _ := Query.QueryTfl(attempts2, DefaultRetries, Arrivals.BodyFalsy, Arrivals.JsonList([]));
    var newArrivals2 := Arrivals.GetArrivals(reply2, filter2, earliest, DefaultRows, parse);
    raw1.Publish(newArrivals1);
    raw2.Publish(newArrivals2);
  }

  /** When every attempt fails, the fetch worker's selection is empty: it overwrites the last one
      instead of keeping it. */
  lemma FailedFetchPublishesEmpty(attempts: nat -> Query.Attempt<Arrivals.Body>, filter: Arrivals.LineFilter, earliest: int, parse: string -> Option<int>)
    requires forall i :: 0 <= i < DefaultRetries ==> attempts(i).Failed?
    ensures Fetched(attempts, filter, earliest, parse) == []
  {
  }

  /**
   * One render cycle. Both raw-data queues are read inside one `try`: when the first is empty the
   * second is not read at all and both current lists are kept; otherwise the first value is taken
   * and the second is taken if present. Both lists are then laid out and each frame replaces the
   * unread one in its frame queue.
   */
  method RenderCycle(
    event: Thermal.PauseEvent,
    raw1: Channel.Slot<seq<Arrivals.Entry>>, raw2: Channel.Slot<seq<Arrivals.Entry>>,
    frames1: Channel.Slot<Layout.Frame>, frames2: Channel.Slot<Layout.Frame>,
    current1: seq<Arrivals.Entry>, current2: seq<Arrivals.Entry>,
    now: int, earliest: int, g: Layout.Geometry, width: string -> int)
    returns (ran: bool, next1: seq<Arrivals.Entry>, next2: seq<Arrivals.Entry>)
    requires raw1 != raw2 && frames1 != frames2
    modifies raw1, raw2, frames1, frames2
    ensures ran == event.isSet
    ensures !ran ==> next1 == current1 && next2 == current2
    ensures !ran ==> raw1.item == old(raw1.item) && raw2.item == old(raw2.item)
    ensures !ran ==> frames1.item == old(frames1.item) && frames2.item == old(frames2.item)
    ensures ran && old(raw1.item).None? ==>
      next1 == current1 && next2 == current2 && raw1.item == None && raw2.item == old(raw2.item)
    ensures ran && old(raw1.item).Some? ==>
      && next1 == old(raw1.item).value && raw1.item == None
      && next2 == (if old(raw2.item).Some? then old(raw2.item).value else current2) && raw2.item == None
    ensures ran ==> frames1.item == Some(Layout.Plan(next1, 1, now, earliest, g, width))
    ensures ran ==> frames2.item == Some(Layout.Plan(next2, 1, now, earliest, g, width))
  {
    ran := event.isSet;
    next1, next2 := current1, current2;
    if !ran {
      return;
    }
    var got1 := raw1.TryConsume();
    if got1.Some? {
      next1 := got1.value;
      next2 := raw2.ConsumeOrKeep(current2);
    }
    var rows1 := Layout.DrawArrivalLines(next1, now, earliest, g, width);
    var rows2 := Layout.DrawArrivalLines(next2, now, earliest, g, width);
    frames1.Publish(rows1);
    frames2.Publish(rows2);
  }

  /**
   * One tick of the display loop. On the Raspberry Pi the switch picks the frame queue; only when
   * a frame was taken is the temperature checked (an empty queue skips the check), and the frame
   * is pasted once cooling, if any, is over. Elsewhere the first queue is read and there is no
   * temperature check. `shown` is the output buffer before the tick and `out` after it; `done`
   * is false when the cooling readings ran out while the board was still too hot. The clock
   * overlay and the output call are not modelled.
   */
  method DisplayTick(
    onPi: bool, switchHigh: bool,
    frames1: Channel.Slot<Layout.Frame>, frames2: Channel.Slot<Layout.Frame>,
    event: Thermal.PauseEvent, maxTemp: int, shown: Layout.Frame, first: real, later: seq<real>)
    returns (out: Layout.Frame, checked: bool, screens: seq<real>, done: bool)
    requires frames1 != frames2
    modifies frames1, frames2, event
    ensures var q := if onPi && !switchHigh then frames2 else frames1;
      var other := if onPi && !switchHigh then frames1 else frames2;
      && q.item == None && other.item == old(other.item)
      && checked == (onPi && old(q.item).Some?)
      && (!checked ==> screens == [] && done && event.isSet == old(event.isSet))
      && (old(q.item).None? ==> out == shown)
      && (old(q.item).Some? && done ==> out == old(q.item).value)
      && (!done ==> out == shown && checked && !event.isSet)
    ensures checked ==> (
      && |screens| <= |later|
      && (first <= maxTemp as real ==> screens == [] && done && event.isSet == old(event.isSet))
      && (first > maxTemp as real ==>
            && screens == ([first] + later)[..|screens|]
            && event.isSet == done
            && (done <==> exists i :: 0 <= i < |later| && later[i] <= Thermal.ResumeAt(maxTemp))))
  {
    out, checked, screens, done := shown, false, [], true;
    var newFrame: Option<Layout.Frame>;
    if onPi {
      if switchHigh {
        newFrame := frames1.TryConsume();
      } else {
        newFrame := frames2.TryConsume();
      }
      if newFrame.None? {
        return;
      }
      checked := true;
      var used;
      screens, used, done := Thermal.CheckTemperature(event, maxTemp, first, later);
      if !done {
        return;
      }
    } else {
      newFrame := frames1.TryConsume();
    }
    if newFrame.Some? {
      out := newFrame.value;
    }
  }

  /** One Piccadilly eastbound record 600 s away, a threshold of 8 minutes: the selection is that
      one entry, and with the clock at fetch time it reads "10 min" in row 1. */
  lemma EndToEndExample(parse: string -> Option<int>, t: int, g: Layout.Geometry, width: string -> int)
    requires parse("2025-06-01T12:10:00Z") == Some(t)
    requires g.yOffset < g.maxY
    ensures var p := Arrivals.Prediction(Some("piccadilly"), Some("Piccadilly"), Some("Eastbound - Platform 1"),
        Some("Cockfosters"), None, Some(600), Some("2025-06-01T12:10:00Z"));
      var e := Arrivals.Entry("Cockfosters", t, Some(600), Some("Piccadilly"));
      && Arrivals.Select([p], {("piccadilly", "eastbound")}, 8, DefaultRows, parse) == [e]
      && Layout.Plan([e], 1, t - 600, 8, g, width) == [Layout.Row(1, g.yOffset, "Cockfosters", "10 min", g.displayWidth - width("10 min") - g.xOffset)]
  {
    var p := Arrivals.Prediction(Some("piccadilly"), Some("Piccadilly"), Some("Eastbound - Platform 1"),
      Some("Cockfosters"), None, Some(600), Some("2025-06-01T12:10:00Z"));
    var platform := Text.Lower("Eastbound - Platform 1");
    assert platform[0..9] == "eastbound";
    assert Text.OccursAt("eastbound", platform, 0);
    assert Arrivals.Keep(p, {("piccadilly", "eastbound")}, 8);
    assert Arrivals.Candidates([p], {("piccadilly", "eastbound")}, 8) == [p];
    Countdown.TimeToArrivalExamples(width);
  }
}
