/**
 * The weather ingestion path: turning the station entries of one feed
 * document into observation records, appending them to the observation
 * store, and reading back the latest observation of a city.
 *
 * Retrieval over HTTP and XML extraction are outside the model: a feed is
 * given as its station entries with their child elements already extracted,
 * the batch timestamp is given as a number, and decimal parsing is a
 * parameter.
 */
module WeatherDataService {
  import opened Wrappers
  import opened Entities

  /** Feed stations that serve a delivery city, mapped to that city. */
  const StationToCity: map<string, string> :=
    map["Tallinn-Harku" := "Tallinn", "Tartu-Tõravere" := "Tartu", "Pärnu" := "Pärnu"]

  /**
   * One `station` element of the feed: the text of its `name`, `wmocode`,
   * `airtemperature`, `windspeed` and `phenomenon` children, `None` where the
   * child is absent.
   */
  datatype StationEntry = StationEntry(
    name: Option<string>,
    wmoCode: Option<string>,
    airTemperature: Option<string>,
    windSpeed: Option<string>,
    phenomenon: Option<string>)

  /** The parsed number, or 0 when the text is absent or does not parse. */
  function DecimalOrZero(text: Option<string>, tryParse: string -> Option<real>): real {
    match text
    case None => 0.0
    case Some(s) => tryParse(s).GetOr(0.0)
  }

  /** The record a single station entry contributes, or `None` for a station outside the map. */
  function ParseStation(station: StationEntry, timestamp: int, tryParse: string -> Option<real>): (r: Option<WeatherData>)
    ensures r.Some? <==> station.name.Some? && station.name.value in StationToCity
    ensures r.Some? ==> r.value.stationName == station.name.value
    ensures r.Some? ==> r.value.city == StationToCity[station.name.value]
    ensures r.Some? ==> r.value.timestamp == timestamp
    ensures r.Some? && (station.airTemperature.None? || tryParse(station.airTemperature.value).None?) ==>
              r.value.airTemperature == 0.0
    ensures r.Some? && station.airTemperature.Some? && tryParse(station.airTemperature.value).Some? ==>
              r.value.airTemperature == tryParse(station.airTemperature.value).value
    ensures r.Some? && (station.windSpeed.None? || tryParse(station.windSpeed.value).None?) ==>
              r.value.windSpeed == 0.0
    ensures r.Some? && station.windSpeed.Some? && tryParse(station.windSpeed.value).Some? ==>
              r.value.windSpeed == tryParse(station.windSpeed.value).value
    ensures r.Some? ==> r.value.weatherPhenomenon == station.phenomenon.GetOr("")
    ensures r.Some? ==> r.value.wmoCode == station.wmoCode.GetOr("")
  {
    match station.name
    case Some(stationName) =>
      if stationName in StationToCity then
        Some(WeatherData(
          stationName,
          station.wmoCode.GetOr(""),
          DecimalOrZero(station.airTemperature, tryParse),
          DecimalOrZero(station.windSpeed, tryParse),
          station.phenomenon.GetOr(""),
          timestamp,
          StationToCity[stationName]))
      else None
    case None => None
  }

  /** Reference definition of a parse: the records of the monitored stations, in feed order. */
  function ParsedRecords(stations: seq<StationEntry>, timestamp: int, tryParse: string -> Option<real>): (r: seq<WeatherData>)
    ensures |r| <= |stations|
    ensures forall k :: 0 <= k < |r| ==>
              && r[k].timestamp == timestamp
              && r[k].stationName in StationToCity
              && r[k].city == StationToCity[r[k].stationName]
  {
    if stations == [] then []
    else
      var last := ParseStation(stations[|stations| - 1], timestamp, tryParse);
      ParsedRecords(stations[..|stations| - 1], timestamp, tryParse) + (if last.Some? then [last.value] else [])
  }

  /** Parsing a feed in two parts yields the two parts' records one after the other: feed order is kept. */
  lemma {:induction false} ParsedRecordsAppend(s1: seq<StationEntry>, s2: seq<StationEntry>, timestamp: int, tryParse: string -> Option<real>)
    ensures ParsedRecords(s1 + s2, timestamp, tryParse)
         == ParsedRecords(s1, timestamp, tryParse) + ParsedRecords(s2, timestamp, tryParse)
    decreases |s2|
  {
    if s2 == [] {
      assert s1 + s2 == s1;
    } else {
      var n := |s2| - 1;
      assert (s1 + s2)[..|s1 + s2| - 1] == s1 + s2[..n];
      assert (s1 + s2)[|s1 + s2| - 1] == s2[n];
      ParsedRecordsAppend(s1, s2[..n], timestamp, tryParse);
    }
  }

  /** Exactly the monitored entries contribute: each record is the record of some entry, and each monitored entry's record is present. */
  lemma {:induction false} ParsedRecordsAreTheMonitoredStations(stations: seq<StationEntry>, timestamp: int, tryParse: string -> Option<real>)
    ensures forall w :: w in ParsedRecords(stations, timestamp, tryParse) ==>
              exists j :: 0 <= j < |stations| && ParseStation(stations[j], timestamp, tryParse) == Some(w)
    ensures forall j :: 0 <= j < |stations| && ParseStation(stations[j], timestamp, tryParse).Some? ==>
              ParseStation(stations[j], timestamp, tryParse).value in ParsedRecords(stations, timestamp, tryParse)
    decreases |stations|
  {
    if stations != [] {
      var n := |stations| - 1;
      var init := stations[..n];
      ParsedRecordsAreTheMonitoredStations(init, timestamp, tryParse);
      forall w | w in ParsedRecords(stations, timestamp, tryParse)
        ensures exists j :: 0 <= j < |stations| && ParseStation(stations[j], timestamp, tryParse) == Some(w)
      {
        if w in ParsedRecords(init, timestamp, tryParse) {
          var j :| 0 <= j < |init| && ParseStation(init[j], timestamp, tryParse) == Some(w);
          assert stations[j] == init[j];
        } else {
          assert ParseStation(stations[n], timestamp, tryParse) == Some(w);
        }
      }
      forall j | 0 <= j < |stations| && ParseStation(stations[j], timestamp, tryParse).Some?
        ensures ParseStation(stations[j], timestamp, tryParse).value in ParsedRecords(stations, timestamp, tryParse)
      {
        if j < n {
          assert stations[j] == init[j];
        }
      }
    }
  }

  /**
   * The station loop of the parser: keeps each entry whose name is a key of
   * the station map, names the record after the mapped city, and stamps it
   * with the batch timestamp.
   */
  method ParseWeatherData(stations: seq<StationEntry>, timestamp: int, tryParse: string -> Option<real>)
    returns (result: seq<WeatherData>)
    ensures result == ParsedRecords(stations, timestamp, tryParse)
    ensures |result| <= |stations|
    ensures forall k :: 0 <= k < |result| ==>
              result[k].timestamp == timestamp && result[k].city == StationToCity[result[k].stationName]
  {
    result := [];
    for i := 0 to |stations|
      invariant result == ParsedRecords(stations[..i], timestamp, tryParse)
    {
      assert stations[..i + 1][..i] == stations[..i];
      var weatherData := ParseStation(stations[i], timestamp, tryParse);
      if weatherData.Some? {
        result := result + [weatherData.value];
      }
    }
    assert stations[..|stations|] == stations;
  }

  /**
   * The latest record of `city` in `records`: the one with the greatest
   * timestamp, and among equal greatest timestamps the one stored first
   * (a stable descending sort followed by taking the first element).
   */
  function LatestForCity(records: seq<WeatherData>, city: string): (r: Option<WeatherData>)
    ensures r.None? <==> forall k :: 0 <= k < |records| ==> records[k].city != city
    ensures r.Some? ==> r.value.city == city
    ensures r.Some? ==> forall k :: 0 <= k < |records| && records[k].city == city ==>
              records[k].timestamp <= r.value.timestamp
    ensures r.Some? ==>
              exists k :: 0 <= k < |records| && records[k] == r.value &&
                (forall j :: 0 <= j < k && records[j].city == city ==> records[j].timestamp < r.value.timestamp)
  {
    if records == [] then None
    else
      var n := |records| - 1;
      var earlier := LatestForCity(records[..n], city);
      var last := records[n];
      if last.city == city && (earlier.None? || earlier.value.timestamp < last.timestamp) then
        Some(last)
      else
        earlier
  }

  /** The observation store: an append-only table of records. */
  class WeatherDataStore {
    var records: seq<WeatherData>

    constructor ()
      ensures records == []
    {
      records := [];
    }

    /** Appends a batch after the stored records; nothing stored before changes. */
    method SaveWeatherData(weatherData: seq<WeatherData>)
      modifies this
      ensures records == old(records) + weatherData
      ensures |records| == |old(records)| + |weatherData|
      ensures records[..|old(records)|] == old(records)
    {
      records := records + weatherData;
    }

    /** The stored record of `city` with the greatest timestamp, or `None` when the city has none. */
    function GetLatestWeatherDataForCity(city: string): (r: Option<WeatherData>)
      reads this
      ensures r.None? <==> forall w :: w in records ==> w.city != city
      ensures r.Some? ==> r.value in records && r.value.city == city
      ensures r.Some? ==> forall w :: w in records && w.city == city ==> w.timestamp <= r.value.timestamp
    {
      LatestForCity(records, city)
    }
  }

  /** A record newer than every other record of its city in the store is the latest one after it is saved. */
  lemma SaveNewerThenLatest(stored: seq<WeatherData>, batch: seq<WeatherData>, w: WeatherData)
    requires w in batch
    requires forall x :: x in stored + batch && x.city == w.city && x != w ==> x.timestamp < w.timestamp
    ensures LatestForCity(stored + batch, w.city) == Some(w)
  {
    var all := stored + batch;
    var r := LatestForCity(all, w.city);
    assert w in all;
    var k :| 0 <= k < |all| && all[k] == w;
    assert r.Some?;
    assert all[k].timestamp <= r.value.timestamp;
  }

  /** Saving records of a city that are no newer than its latest record leaves that latest record in place. */
  lemma {:induction false} SaveOlderKeepsLatest(stored: seq<WeatherData>, batch: seq<WeatherData>, city: string, w: WeatherData)
    requires LatestForCity(stored, city) == Some(w)
    requires forall x :: x in batch && x.city == city ==> x.timestamp <= w.timestamp
    ensures LatestForCity(stored + batch, city) == Some(w)
  {
    var all := stored + batch;
    var kw :| 0 <= kw < |stored| && stored[kw] == w &&
      forall j :: 0 <= j < kw && stored[j].city == city ==> stored[j].timestamp < w.timestamp;
    assert all[kw] == w;
    var r := LatestForCity(all, city);
    assert r.Some?;
    var k :| 0 <= k < |all| && all[k] == r.value &&
      forall j :: 0 <= j < k && all[j].city == city ==> all[j].timestamp < r.value.timestamp;
    assert r.value.timestamp >= w.timestamp;
    assert k < |stored|;
    assert stored[k] == r.value;
    assert k == kw;
  }

  /** No two monitored stations serve the same city. */
  lemma StationToCityInjective(a: string, b: string)
    requires a in StationToCity && b in StationToCity
    requires StationToCity[a] == StationToCity[b]
    ensures a == b
  {
  }

  /**
   * End to end: after a batch is parsed and saved, the record of a monitored
   * station that appears once in the feed is the latest record of its city,
   * provided the batch timestamp is newer than every stored record of that city.
   */
  lemma IngestedRecordIsLatest(
    stored: seq<WeatherData>, stations: seq<StationEntry>, timestamp: int, tryParse: string -> Option<real>, j: int)
    requires 0 <= j < |stations|
    requires ParseStation(stations[j], timestamp, tryParse).Some?
    requires forall i :: 0 <= i < |stations| && i != j ==> stations[i].name != stations[j].name
    requires forall x :: x in stored && x.city == StationToCity[stations[j].name.value] ==> x.timestamp < timestamp
    ensures LatestForCity(stored + ParsedRecords(stations, timestamp, tryParse), StationToCity[stations[j].name.value])
         == ParseStation(stations[j], timestamp, tryParse)
  {
    var batch := ParsedRecords(stations, timestamp, tryParse);
    var w := ParseStation(stations[j], timestamp, tryParse).value;
    ParsedRecordsAreTheMonitoredStations(stations, timestamp, tryParse);
    forall x | x in stored + batch && x.city == w.city
      ensures x == w || x.timestamp < w.timestamp
    {
      if x !in stored {
        var i :| 0 <= i < |stations| && ParseStation(stations[i], timestamp, tryParse) == Some(x);
        StationToCityInjective(stations[i].name.value, stations[j].name.value);
        assert i == j;
      }
    }
    SaveNewerThenLatest(stored, batch, w);
  }

  /** The four-station sample document of the service's tests, with Kuressaare outside the station map. */
  function SampleFeed(): seq<StationEntry> {
    [ StationEntry(Some("Tallinn-Harku"), Some("26038"), Some("5.0"), Some("3.0"), Some("Clear")),
      StationEntry(Some("Tartu-Tõravere"), Some("26242"), Some("-2.1"), Some("4.7"), Some("Light snow shower")),
      StationEntry(Some("Pärnu"), Some("41803"), Some("3.5"), Some("5.2"), Some("Light rain")),
      StationEntry(Some("Kuressaare"), Some("26231"), Some("4.2"), Some("6.1"), Some("Moderate rain")) ]
  }

  /** Parsing the sample keeps exactly the three monitored stations, renamed to their cities, in feed order. */
  lemma SampleFeedYieldsThreeCities(timestamp: int, tryParse: string -> Option<real>)
    ensures var r := ParsedRecords(SampleFeed(), timestamp, tryParse);
      |r| == 3 && r[0].city == "Tallinn" && r[1].city == "Tartu" && r[2].city == "Pärnu"
  {
    var feed := SampleFeed();
    var r1 := ParsedRecords(feed[..1], timestamp, tryParse);
    assert feed[..1][..0] == [];
    assert r1 == [ParseStation(feed[0], timestamp, tryParse).value];
    var r2 := ParsedRecords(feed[..2], timestamp, tryParse);
    assert feed[..2][..1] == feed[..1];
    assert r2 == r1 + [ParseStation(feed[1], timestamp, tryParse).value];
    var r3 := ParsedRecords(feed[..3], timestamp, tryParse);
    assert feed[..3][..2] == feed[..2];
    assert r3 == r2 + [ParseStation(feed[2], timestamp, tryParse).value];
    assert feed[..|feed| - 1] == feed[..3];
    assert ParseStation(feed[3], timestamp, tryParse) == None;
    assert ParsedRecords(feed, timestamp, tryParse) == r3;
  }
}
