/**
 * The dashboard's selection state machine: room, then sensor, then a
 * seeded chart kept current by one live feed of readings.
 */
module Dashboard {
  import opened Types
  import opened ChartBuffer
  import Supabase

  /** Handle of one live feed of new readings for one sensor. */
  datatype Subscription = Subscription(handle: nat, sensorId: string)

  /** The subscriptions a nullable subscription field holds. */
  function Held(sub: Option<Subscription>): set<Subscription>
  {
    if sub.Some? then {sub.value} else {}
  }

  class DashboardComponent {
    const service: Supabase.SupabaseService
    /** Renders a reading's receipt timestamp as a clock time. */
    const timeLabel: string -> string
    var rooms: seq<Room>
    var sensors: seq<Sensor>
    var selectedRoom: Option<Room>
    var selectedSensor: Option<Sensor>
    var latestData: Option<Reading>
    var chart: Chart?
    var updateSubscription: Option<Subscription>
    /** The feeds that currently deliver readings to this component. */
    var live: set<Subscription>
    /** The handle the next subscription receives; every earlier handle is smaller. */
    var nextHandle: nat
    /** Whether the service's realtime channel has been released. */
    var feedReleased: bool
    /** The paths the router has been told to navigate to, in order. */
    var navigations: seq<string>

    /**
     * A chart, when there is one, is aligned, and at most one feed is live:
     * the one held in `updateSubscription`.
     */
    ghost predicate Valid()
      reads this, chart
    {
      && (chart != null ==> chart.Valid())
      && live <= Held(updateSubscription)
      && (updateSubscription.Some? ==> updateSubscription.value.handle < nextHandle)
    }

    /** The chart shows `data` as seeded: its labels and both datasets. */
    ghost predicate ShowsHistory(data: seq<Reading>)
      reads this, chart
    {
      chart != null
      && chart.labels == Seed(data, timeLabel).labels
      && chart.datasets == SeedDatasets(Seed(data, timeLabel))
    }

    constructor (service: Supabase.SupabaseService, timeLabel: string -> string)
      ensures Valid()
      ensures this.service == service && this.timeLabel == timeLabel
      ensures rooms == [] && sensors == [] && selectedRoom.None? && selectedSensor.None?
      ensures latestData.None? && chart == null && updateSubscription.None? && live == {}
      ensures !feedReleased && navigations == []
    {
      this.service := service;
      this.timeLabel := timeLabel;
      rooms, sensors := [], [];
      selectedRoom, selectedSensor, latestData := None, None, None;
      chart := null;
      updateSubscription, live, nextHandle := None, {}, 0;
      feedReleased, navigations := false, [];
    }

    /** Loads the room list; a failed fetch keeps the previous list. */
    method LoadRooms(fetch: Result<seq<Room>, FetchError>)
      requires Valid()
      modifies this`rooms
      ensures Valid()
      ensures rooms == if fetch.Ok? then fetch.value else old(rooms)
    {
      match fetch {
        case Ok(rs) => rooms := rs;
        case Err(_) =>
      }
    }

    /** The part of a room change that runs before the sensor fetch. */
    method ClearForRoom(room: Room)
      requires Valid()
      modifies this`selectedRoom, this`selectedSensor, this`latestData, this`chart
      ensures Valid()
      ensures selectedRoom == Some(room) && selectedSensor.None? && latestData.None? && chart == null
    {
      selectedRoom := Some(room);
      selectedSensor := None;
      latestData := None;
      chart := null;
    }

    /**
     * Selects a room: clears the sensor, the latest reading and the chart,
     * then fetches the room's sensors and, when there is one, selects the
     * first and loads it. The live feed of the previous sensor is left as it is
     * unless a sensor load replaces it.
     */
    method SelectRoom(room: Room, sensorsFetch: Result<seq<Sensor>, FetchError>,
                      historyFetch: Result<seq<Reading>, FetchError>, canvasReady: bool)
      requires Valid()
      modifies this
      ensures Valid()
      ensures selectedRoom == Some(room)
      ensures rooms == old(rooms) && navigations == old(navigations) && feedReleased == old(feedReleased)
      ensures sensors == if sensorsFetch.Ok? then sensorsFetch.value else old(sensors)
      // no sensor to select: the selection stays cleared and the old feed is untouched
      ensures sensorsFetch.Err? || |sensorsFetch.value| == 0 ==>
                && selectedSensor.None? && latestData.None? && chart == null
                && updateSubscription == old(updateSubscription) && live == old(live)
      ensures sensorsFetch.Ok? && |sensorsFetch.value| > 0 ==>
                && selectedSensor == Some(sensorsFetch.value[0])
                && (old(updateSubscription).Some? ==> old(updateSubscription).value !in live)
      ensures sensorsFetch.Ok? && |sensorsFetch.value| > 0 && historyFetch.Err? ==>
                updateSubscription.None? && live == {} && latestData.None? && chart == null
      ensures sensorsFetch.Ok? && |sensorsFetch.value| > 0 && historyFetch.Ok? ==>
                var s := sensorsFetch.value[0];
                var data := historyFetch.value;
                var sub := Subscription(old(nextHandle), s.id);
                && updateSubscription == Some(sub) && live == {sub}
                && latestData == (if |data| > 0 then Some(data[0]) else None)
                && (if |data| > 0 && canvasReady then fresh(chart) && ShowsHistory(data) else chart == null)
    {
      ClearForRoom(room);
      match sensorsFetch {
        case Err(_) =>
        case Ok(ss) =>
          sensors := ss;
          if |sensors| > 0 {
            selectedSensor := Some(sensors[0]);
            OnSensorChange(historyFetch, canvasReady);
          }
      }
    }

    /** The part of a sensor change that runs before the history fetch: the held feed is released. */
    method ReleaseSubscription()
      requires Valid()
      modifies this`updateSubscription, this`live
      ensures Valid()
      ensures updateSubscription.None? && live == {}
      ensures old(updateSubscription).Some? ==> old(updateSubscription).value !in live
    {
      if updateSubscription.Some? {
        live := live - {updateSubscription.value};
        updateSubscription := None;
      }
    }

    /** Opens a live feed for `sensorId` and returns its fresh handle. */
    method Subscribe(sensorId: string) returns (sub: Subscription)
      modifies this`live, this`nextHandle
      ensures sub == Subscription(old(nextHandle), sensorId)
      ensures live == old(live) + {sub} && nextHandle == old(nextHandle) + 1
    {
      sub := Subscription(nextHandle, sensorId);
      live := live + {sub};
      nextHandle := nextHandle + 1;
    }

    /**
     * Loads the selected sensor: releases the held feed, fetches the
     * history, shows its newest reading and seeds the chart from it when
     * it is non-empty, and opens one new feed. A failed fetch opens no
     * feed and keeps the latest reading and the chart. Nothing happens
     * without a selected sensor.
     */
    method OnSensorChange(historyFetch: Result<seq<Reading>, FetchError>, canvasReady: bool)
      requires Valid()
      modifies this
      ensures Valid()
      ensures old(selectedSensor).None? ==> unchanged(this)
      ensures rooms == old(rooms) && sensors == old(sensors) && selectedRoom == old(selectedRoom)
      ensures selectedSensor == old(selectedSensor) && navigations == old(navigations)
      ensures feedReleased == old(feedReleased)
      ensures selectedSensor.Some? && old(updateSubscription).Some? ==> old(updateSubscription).value !in live
      ensures selectedSensor.Some? && historyFetch.Err? ==>
                && updateSubscription.None? && live == {}
                && latestData == old(latestData) && chart == old(chart)
      ensures selectedSensor.Some? && historyFetch.Ok? ==>
                var data := historyFetch.value;
                var sub := Subscription(old(nextHandle), selectedSensor.value.id);
                && updateSubscription == Some(sub) && live == {sub}
                && latestData == (if |data| > 0 then Some(data[0]) else old(latestData))
                && (if |data| > 0 && canvasReady then fresh(chart) && ShowsHistory(data)
                    else chart == old(chart))
    {
      if selectedSensor.None? {
        return;
      }
      ReleaseSubscription();
      match historyFetch {
        case Err(_) =>
        case Ok(data) =>
          if |data| > 0 {
            latestData := Some(data[0]);
            UpdateChart(data, canvasReady);
          }
          var sub := Subscribe(selectedSensor.value.id);
          updateSubscription := Some(sub);
      }
    }

    /** Creates a chart seeded from `data`, or leaves the chart alone when there is no canvas to draw on. */
    method UpdateChart(data: seq<Reading>, canvasReady: bool)
      requires Valid()
      modifies this`chart
      ensures Valid()
      ensures canvasReady ==> fresh(chart) && ShowsHistory(data)
      ensures !canvasReady ==> chart == old(chart)
    {
      if !canvasReady {
        return;
      }
      var series := Seed(data, timeLabel);
      chart := new Chart(series.labels, SeedDatasets(series));
    }

    /**
     * A reading delivered on feed `sub`. Only a live feed delivers. The
     * reading becomes the latest one, and when there is a chart its label is
     * pushed onto the labels and its temperature and humidity onto the
     * matching datasets; when the labels then exceed `Capacity`, the first
     * label and the first point of every dataset are shifted off.
     */
    method OnLiveReading(sub: Subscription, newData: Reading)
      requires Valid()
      modifies this`latestData, chart
      ensures Valid()
      ensures sub !in live ==> latestData == old(latestData) && (chart != null ==> unchanged(chart))
      ensures sub in live ==> latestData == Some(newData)
      ensures sub in live && chart != null ==>
                && chart.labels == Slide(old(chart.labels), timeLabel(newData.timestampReceived))
                && chart.datasets == AdvancedAll(old(chart.datasets), newData, Overflows(|old(chart.labels)|))
                && chart.datasets[0].data == Slide(old(chart.datasets[0].data), newData.temperature)
                && chart.datasets[1].data == Slide(old(chart.datasets[1].data), newData.humidity)
    {
      if sub !in live {
        return;
      }
      latestData := Some(newData);
      if chart == null {
        return;
      }
      var c := chart;
      ghost var labels0, datasets0 := c.labels, c.datasets;
      var timeText := timeLabel(newData.timestampReceived);
      c.PushReading(timeText, newData);
      if |c.labels| > Capacity {
        c.EvictOldest();
      }
      assert c.datasets == AdvancedAll(datasets0, newData, Overflows(|labels0|));
      LiveUpdateSlides(labels0, datasets0, timeText, newData);
    }

    /** Tears down: the held feed is released and so is the service's realtime channel. */
    method NgOnDestroy()
      requires Valid()
      modifies this`live, this`feedReleased
      ensures Valid()
      ensures live == {} && feedReleased
    {
      if updateSubscription.Some? {
        live := live - {updateSubscription.value};
      }
      feedReleased := true;
    }

    /** Signs out and, only when that succeeds, navigates to the login page. */
    method Logout(remote: Outcome)
      requires Valid()
      modifies this`navigations
      ensures Valid()
      ensures navigations == old(navigations) + (if remote.Pass? then [LoginPath] else [])
    {
      var r := service.SignOut(remote);
      if r.Pass? {
        navigations := navigations + [LoginPath];
      }
    }
  }

  /**
   * Reloading the selected sensor while its feed is live: afterwards the
   * old feed is no longer live, a reading arriving on it is not delivered,
   * and at most one feed, the new one, is live.
   */
  method ReloadIgnoresStaleFeed(d: DashboardComponent, historyFetch: Result<seq<Reading>, FetchError>,
                                canvasReady: bool, stale: Reading)
    requires d.Valid() && d.selectedSensor.Some? && d.updateSubscription.Some?
    modifies d, d.chart
    ensures d.Valid()
    ensures old(d.updateSubscription).value !in d.live
    ensures historyFetch.Err? ==> d.live == {} && d.latestData == old(d.latestData)
    ensures historyFetch.Ok? ==>
              && d.live == {Subscription(old(d.nextHandle), old(d.selectedSensor).value.id)}
              && d.latestData == (if |historyFetch.value| > 0 then Some(historyFetch.value[0])
                                  else old(d.latestData))
    // the chart is the reseeded one, or else the old chart left exactly as it was
    ensures historyFetch.Ok? && |historyFetch.value| > 0 && canvasReady ==> d.ShowsHistory(historyFetch.value)
    ensures !(historyFetch.Ok? && |historyFetch.value| > 0 && canvasReady) ==>
              && d.chart == old(d.chart)
              && (d.chart != null ==> d.chart.labels == old(d.chart.labels) && d.chart.datasets == old(d.chart.datasets))
  {
    var previous := d.updateSubscription.value;
    d.OnSensorChange(historyFetch, canvasReady);
    d.OnLiveReading(previous, stale);
  }
}
