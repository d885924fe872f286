// The result writer: the translation of one successful measurement result
// into the three tagged points handed to the datastore, and the decoding that
// recovers from those points everything they carry.
module Writer {
  import opened Schema

  datatype Option<T> = None | Some(value: T)

  /** Everything of a result that the three points carry: all of it except the
      test identification, which only reaches the log. */
  datatype Reading = Reading(
    server: Server,
    isp: string,
    ping: PingStats,
    packetLoss: real,
    download: Transfer,
    upload: Transfer)

  function ReadingOf(res: SpeedTestResult): Reading
  {
    Reading(res.server, res.isp, res.ping, res.packetLoss, res.download, res.upload)
  }

  // ---------------------------------------------------------------------
  // Encoding
  // ---------------------------------------------------------------------

  /** The tag object every point carries: the server's location, country and
      host and the client's ISP. */
  function PointTags(res: SpeedTestResult): map<TagKey, string>
  {
    map[Location := res.server.location, Country := res.server.country,
        Host := res.server.host, Isp := res.isp]
  }

  /** A transfer record passed through unchanged as the field object. */
  function TransferFields(t: Transfer): map<FieldKey, FieldValue>
  {
    map[Bandwidth := IntegerValue(t.bandwidth), Bytes := IntegerValue(t.bytes),
        Elapsed := IntegerValue(t.elapsed)]
  }

  /** The ping fields: jitter and latency of the ping record, and the packet
      loss of the result's top level. */
  function PingFields(res: SpeedTestResult): map<FieldKey, FieldValue>
  {
    map[Jitter := FloatValue(res.ping.jitter), Latency := FloatValue(res.ping.latency),
        PacketLoss := FloatValue(res.packetLoss)]
  }

  lemma TagsConform(res: SpeedTestResult, s: MeasurementSchema)
    requires s.tags == TagNames
    ensures forall t :: t in PointTags(res) <==> t in s.tags
  {
  }

  lemma PingConforms(res: SpeedTestResult)
    ensures ConformsTo(Point(Ping, PointTags(res), PingFields(res)), Measurements[0])
  {
    TagsConform(res, Measurements[0]);
  }

  lemma TransferConforms(t: Transfer, res: SpeedTestResult, i: nat)
    requires i == 1 || i == 2
    ensures ConformsTo(Point(Measurements[i].measurement, PointTags(res), TransferFields(t)), Measurements[i])
  {
    TagsConform(res, Measurements[i]);
  }

  /** The payload of the one `writePoints` call of a successful run. */
  function ToPoints(res: SpeedTestResult): seq<Point>
  {
    var tags := PointTags(res);
    [Point(Ping, tags, PingFields(res)),
     Point(Download, tags, TransferFields(res.download)),
     Point(Upload, tags, TransferFields(res.upload))]
  }

  /** The batch is three points, ping, download and upload in that order,
      each fitting its entry of the declared schema. */
  lemma PointsFitSchema(res: SpeedTestResult)
    ensures var ps := ToPoints(res);
      && |ps| == 3
      && ps[0].measurement == Ping && ps[1].measurement == Download && ps[2].measurement == Upload
      && (forall i :: 0 <= i < 3 ==> ConformsTo(ps[i], Measurements[i]))
  {
    PingConforms(res);
    TransferConforms(res.download, res, 1);
    TransferConforms(res.upload, res, 2);
  }

  /** All three points share one tag object, made of the server's location,
      country and host and the client's ISP. */
  lemma PointsShareTags(res: SpeedTestResult)
    ensures var ps := ToPoints(res);
      && |ps| == 3
      && (forall i, j :: 0 <= i < 3 && 0 <= j < 3 ==> ps[i].tags == ps[j].tags)
      && (forall i :: 0 <= i < 3 ==> ps[i].tags.Keys == {Location, Country, Host, Isp})
      && (forall i :: 0 <= i < 3 ==>
            ps[i].tags[Location] == res.server.location && ps[i].tags[Country] == res.server.country
            && ps[i].tags[Host] == res.server.host && ps[i].tags[Isp] == res.isp)
  {
  }

  // ---------------------------------------------------------------------
  // Decoding (the partner of ToPoints)
  // ---------------------------------------------------------------------

  predicate HasFloat(m: map<FieldKey, FieldValue>, k: FieldKey)
  {
    k in m && m[k].FloatValue?
  }

  predicate HasInteger(m: map<FieldKey, FieldValue>, k: FieldKey)
  {
    k in m && m[k].IntegerValue?
  }

  predicate HasTransfer(m: map<FieldKey, FieldValue>)
  {
    HasInteger(m, Bandwidth) && HasInteger(m, Bytes) && HasInteger(m, Elapsed)
  }

  predicate HasTags(m: map<TagKey, string>)
  {
    Location in m && Country in m && Host in m && Isp in m
  }

  /** Three points in the order ping, download, upload, sharing one tag object,
      each with the keys the decoder reads. */
  predicate Decodable(ps: seq<Point>)
  {
    && |ps| == 3
    && ps[0].measurement == Ping && ps[1].measurement == Download && ps[2].measurement == Upload
    && ps[0].tags == ps[1].tags == ps[2].tags
    && HasTags(ps[0].tags)
    && HasFloat(ps[0].fields, Jitter) && HasFloat(ps[0].fields, Latency)
    && HasFloat(ps[0].fields, PacketLoss)
    && HasTransfer(ps[1].fields) && HasTransfer(ps[2].fields)
  }

  function TransferOf(m: map<FieldKey, FieldValue>): Transfer
    requires HasTransfer(m)
  {
    Transfer(m[Bandwidth].i, m[Bytes].i, m[Elapsed].i)
  }

  /** Reads back what a batch of points records, or None when the batch does
      not have the shape the writer produces. */
  function FromPoints(ps: seq<Point>): Option<Reading>
  {
    if !Decodable(ps) then None
    else
      var tags := ps[0].tags;
      var ping := ps[0].fields;
      Some(Reading(
        Server(tags[Location], tags[Country], tags[Host]),
        tags[Isp],
        PingStats(ping[Jitter].f, ping[Latency].f),
        ping[PacketLoss].f,
        TransferOf(ps[1].fields),
        TransferOf(ps[2].fields)))
  }

  // ---------------------------------------------------------------------
  // Properties
  // ---------------------------------------------------------------------

  /** Decoding the written points gives back the server, ISP, ping statistics,
      the top-level packet loss and both transfer records unchanged. */
  lemma RoundTrip(res: SpeedTestResult)
    ensures FromPoints(ToPoints(res)) == Some(ReadingOf(res))
  {
    var ps := ToPoints(res);
    assert Decodable(ps);
  }

  /** Two results produce the same points exactly when they agree on everything
      but their test identification. */
  lemma PointsDetermineReading(a: SpeedTestResult, b: SpeedTestResult)
    ensures ToPoints(a) == ToPoints(b) <==> ReadingOf(a) == ReadingOf(b)
  {
    if ToPoints(a) == ToPoints(b) {
      RoundTrip(a);
      RoundTrip(b);
    }
  }

  /** Conversely, a decodable batch whose points fit the declared schema is
      exactly what the writer produces for the reading it decodes to. */
  lemma SchemaBatchIsEncoding(ps: seq<Point>, info: TestInfo)
    requires FromPoints(ps).Some?
    requires forall i :: 0 <= i < 3 ==> ConformsTo(ps[i], Measurements[i])
    ensures var rd := FromPoints(ps).value;
            ToPoints(SpeedTestResult(info, rd.server, rd.isp, rd.ping, rd.packetLoss, rd.download, rd.upload)) == ps
  {
    var rd := FromPoints(ps).value;
    var qs := ToPoints(SpeedTestResult(info, rd.server, rd.isp, rd.ping, rd.packetLoss, rd.download, rd.upload));
    PointsFitSchema(SpeedTestResult(info, rd.server, rd.isp, rd.ping, rd.packetLoss, rd.download, rd.upload));
    assert ConformsTo(ps[0], Measurements[0]);
    assert ConformsTo(ps[1], Measurements[1]);
    assert ConformsTo(ps[2], Measurements[2]);
    assert qs[0].tags == ps[0].tags;
    assert qs[0].fields == ps[0].fields;
    assert qs[1].fields == ps[1].fields;
    assert qs[2].fields == ps[2].fields;
    assert qs[0] == ps[0] && qs[1] == ps[1] && qs[2] == ps[2];
  }

  /** A concrete result and the three points it yields, tag and field values
      included. */
  lemma WorkedExample()
    ensures var res := SpeedTestResult(
              TestInfo("t1", "u1"), Server("X", "Y", "Z"), "ISP1", PingStats(2.0, 30.0), 1.5,
              Transfer(1000, 500000, 4000), Transfer(200, 100000, 5000));
            var tags := map[Location := "X", Country := "Y", Host := "Z", Isp := "ISP1"];
            ToPoints(res) == [
              Point(Ping, tags,
                map[Jitter := FloatValue(2.0), Latency := FloatValue(30.0), PacketLoss := FloatValue(1.5)]),
              Point(Download, tags,
                map[Bandwidth := IntegerValue(1000), Bytes := IntegerValue(500000), Elapsed := IntegerValue(4000)]),
              Point(Upload, tags,
                map[Bandwidth := IntegerValue(200), Bytes := IntegerValue(100000), Elapsed := IntegerValue(5000)])]
  {
  }
}
