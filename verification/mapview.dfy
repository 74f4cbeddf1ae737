/** The child's location map: one marker per scan with its popup, and the
    route through the scans in time order. Tiles, zoom and the viewport are
    the map library's and are not part of this module. */
module MapView {
  import opened Wrappers
  import opened Text
  import opened Api
  import opened Seqs
  import Layout
  import SocketStore

  datatype LatLng = LatLng(lat: real, lng: real)

  function PositionOf(l: ScanLog): LatLng {
    LatLng(l.latitude, l.longitude)
  }

  /** The positions of the scans, in the order given. */
  function Positions(s: seq<ScanLog>): (r: seq<LatLng>)
    ensures |r| == |s|
    ensures forall i :: 0 <= i < |s| ==> r[i] == PositionOf(s[i])
  {
    if s == [] then [] else [PositionOf(s[0])] + Positions(s[1..])
  }

  /** The popup's accuracy line: the number of metres, or a dash when the
      scan carries none (zero metres is still a number). The number reads
      back as the accuracy. */
  function AccuracyText(accuracy: Option<int>): (t: string)
    ensures accuracy.None? <==> t == "—"
    ensures accuracy.Some? ==> ParseInt(t) == accuracy && EndsWith(t, " m")
    ensures accuracy.Some? ==> |t| == |IntToString(accuracy.value)| + 2
  {
    match accuracy
    case None => "—"
    case Some(n) =>
      ParseIntOfIntToStringThen(n, " m");
      assert IntToString(n)[0] != "—"[0];
      IntToString(n) + " m"
  }

  /** A marker's popup: when the scan was captured, the message if it is
      truthy (as sent, not trimmed) and whether it is styled as danger, and
      the accuracy line. */
  datatype Popup = Popup(capturedAt: int, message: Option<string>, danger: bool, accuracy: string)

  function PopupOf(l: ScanLog): (p: Popup)
    ensures p.capturedAt == l.timestamp
    ensures p.message.Some? <==> Truthy(l.message)
    ensures p.message.Some? ==> p.message.value == l.message.value
    ensures p.danger <==> p.message.Some? && Layout.IsDanger(p.message.value)
    ensures p.accuracy == AccuracyText(l.accuracy)
  {
    if Truthy(l.message) then
      Popup(l.timestamp, l.message, Layout.IsDanger(l.message.value), AccuracyText(l.accuracy))
    else
      Popup(l.timestamp, None, false, AccuracyText(l.accuracy))
  }

  /** The map and the live banner never disagree on whether a scan is about
      danger. */
  lemma PopupAgreesWithBanner(alert: SocketStore.ScanAlert)
    ensures PopupOf(alert.log).danger <==> Layout.BannerOf(Some(alert)).value.container == Layout.Red
  {
    if alert.log.message == Some("") {
      Layout.ShortIsSafe();
    }
  }

  /** They do disagree on showing a non-empty message of white space only:
      the popup prints it as sent, the banner leaves the message segment out. */
  lemma BlankMessageShownOnlyOnMap(alert: SocketStore.ScanAlert)
    requires alert.log.message.Some? && alert.log.message.value != ""
    requires AllSpace(alert.log.message.value)
    ensures PopupOf(alert.log).message == alert.log.message
    ensures Layout.BannerOf(Some(alert)).value.message.None?
  {
  }

  /** The comparator's order: by capture time, earliest first. */
  predicate SortedByTime(s: seq<ScanLog>) {
    forall i, j :: 0 <= i < j < |s| ==> s[i].timestamp <= s[j].timestamp
  }

  /** Insert `x` ahead of the first scan taken at the same time as `x` or
      later. */
  function Insert(x: ScanLog, s: seq<ScanLog>): (r: seq<ScanLog>)
    ensures |r| == |s| + 1
    ensures r[0] == x || (s != [] && r[0] == s[0])
    ensures multiset(r) == multiset(s) + multiset{x}
  {
    if s == [] || x.timestamp <= s[0].timestamp then [x] + s
    else
      assert s == [s[0]] + s[1..];
      [s[0]] + Insert(x, s[1..])
  }

  /** Inserting into a time-sorted list keeps it sorted. */
  lemma {:induction false} InsertSorted(x: ScanLog, s: seq<ScanLog>)
    requires SortedByTime(s)
    ensures SortedByTime(Insert(x, s))
  {
    if s != [] && x.timestamp > s[0].timestamp {
      var rest := Insert(x, s[1..]);
      InsertSorted(x, s[1..]);
      assert s[0].timestamp <= rest[0].timestamp;
      assert Insert(x, s) == [s[0]] + rest;
    }
  }

  /** The scans sorted by time, earlier scans first among those taken at the
      same moment, as the stable `Array.prototype.sort` leaves them. */
  function SortByTime(s: seq<ScanLog>): (r: seq<ScanLog>)
    ensures |r| == |s|
    ensures SortedByTime(r)
    ensures multiset(r) == multiset(s)
  {
    if s == [] then []
    else
      assert s == [s[0]] + s[1..];
      var sorted := SortByTime(s[1..]);
      InsertSorted(s[0], sorted);
      Insert(s[0], sorted)
  }

  /** The scans taken at time `t`. */
  function At(t: int): ScanLog -> bool {
    (l: ScanLog) => l.timestamp == t
  }

  lemma {:induction false} InsertStable(x: ScanLog, s: seq<ScanLog>, t: int)
    requires SortedByTime(s)
    ensures Filter(Insert(x, s), At(t)) == (if x.timestamp == t then [x] else []) + Filter(s, At(t))
  {
    if s == [] || x.timestamp <= s[0].timestamp {
      assert ([x] + s)[1..] == s;
    } else {
      var rest := Insert(x, s[1..]);
      InsertStable(x, s[1..], t);
      assert ([s[0]] + rest)[1..] == rest;
      assert s == [s[0]] + s[1..];
    }
  }

  /** Sorting is stable: for every moment, the scans taken then appear in
      the sorted list in the order they were given. */
  lemma {:induction false} SortStable(s: seq<ScanLog>, t: int)
    ensures Filter(SortByTime(s), At(t)) == Filter(s, At(t))
  {
    if s != [] {
      SortStable(s[1..], t);
      InsertStable(s[0], SortByTime(s[1..]), t);
    }
  }

  /** Sorting only reorders: the route visits every marker's position. */
  lemma {:induction false} SortKeepsPositions(s: seq<ScanLog>)
    ensures multiset(Positions(SortByTime(s))) == multiset(Positions(s))
  {
    if s != [] {
      var sorted := SortByTime(s[1..]);
      SortKeepsPositions(s[1..]);
      InsertKeepsPositions(s[0], sorted);
      assert Positions(s) == [PositionOf(s[0])] + Positions(s[1..]);
    }
  }

  lemma {:induction false} InsertKeepsPositions(x: ScanLog, s: seq<ScanLog>)
    ensures multiset(Positions(Insert(x, s))) == multiset(Positions(s)) + multiset{PositionOf(x)}
  {
    if s == [] || x.timestamp <= s[0].timestamp {
      assert Positions(Insert(x, s)) == [PositionOf(x)] + Positions(s);
    } else {
      var rest := Insert(x, s[1..]);
      InsertKeepsPositions(x, s[1..]);
      assert Positions(Insert(x, s)) == [PositionOf(s[0])] + Positions(rest);
      assert Positions(s) == [PositionOf(s[0])] + Positions(s[1..]);
    }
  }

  datatype Marker = Marker(at: LatLng, popup: Popup)

  /** One marker per scan, in the order given. */
  function Markers(logs: seq<ScanLog>): (m: seq<Marker>)
    ensures |m| == |logs|
    ensures forall i :: 0 <= i < |logs| ==> m[i] == Marker(PositionOf(logs[i]), PopupOf(logs[i]))
  {
    if logs == [] then [] else [Marker(PositionOf(logs[0]), PopupOf(logs[0]))] + Markers(logs[1..])
  }

  /** What the logs effect adds to the map: the markers, the route, and
      whether the route is drawn. */
  datatype Drawing = Drawing(markers: seq<Marker>, route: seq<LatLng>, polyline: bool)

  /** The logs effect. Nothing is drawn before the map exists or when there
      are no scans. Otherwise one marker per scan at its position, in the
      order given, and the route through the scans in time order, drawn
      only when it has two points or more. A change of the logs removes the
      previous drawing first, so what is on the map is always this. */
  function Draw(mapReady: bool, logs: seq<ScanLog>): (r: Option<Drawing>)
    ensures r.None? <==> !mapReady || logs == []
    ensures r.Some? ==> |r.value.markers| == |logs|
    ensures r.Some? ==> forall i :: 0 <= i < |logs| ==>
      r.value.markers[i].at == PositionOf(logs[i]) && r.value.markers[i].popup == PopupOf(logs[i])
    ensures r.Some? ==> multiset(r.value.route) == multiset(Positions(logs))
    ensures r.Some? ==> r.value.route == Positions(SortByTime(logs))
    ensures r.Some? ==> (r.value.polyline <==> |logs| >= 2)
  {
    if !mapReady || logs == [] then None
    else
      var route := Positions(SortByTime(logs));
      SortKeepsPositions(logs);
      Some(Drawing(Markers(logs), route, |route| >= 2))
  }

  /** One scan gives a marker and no line; two scans out of order give a
      line from the earlier to the later. */
  lemma RouteExamples(a: ScanLog, b: ScanLog)
    requires a.timestamp < b.timestamp
    ensures !Draw(true, [a]).value.polyline
    ensures Draw(true, [b, a]).value.route == [PositionOf(a), PositionOf(b)]
    ensures Draw(true, [b, a]).value.polyline
  {
    assert SortByTime([a]) == [a];
    assert [b, a][1..] == [a];
    assert SortByTime([b, a]) == Insert(b, [a]);
    assert Insert(b, [a]) == [a] + Insert(b, []);
  }
}
