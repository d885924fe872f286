// The data the speed-test script handles: the result record produced by the
// external probe, the tagged time-series point written to the datastore, and
// the datastore schema the script declares for its three measurements.
module Schema {

  /** Name of the database the script bootstraps and writes into. */
  const DatabaseName: string := "speedtest_db"

  // ---------------------------------------------------------------------
  // Measurement result (produced by the probe, consumed once)
  // ---------------------------------------------------------------------

  /** Identification of one test run; only `id` is read by the script. */
  datatype TestInfo = TestInfo(id: string, url: string)

  datatype Server = Server(location: string, country: string, host: string)

  /** Floats of the probe are modelled as reals: they are copied, never computed. */
  datatype PingStats = PingStats(jitter: real, latency: real)

  /** One transfer direction: bytes per second, bytes moved, milliseconds taken. */
  datatype Transfer = Transfer(bandwidth: int, bytes: int, elapsed: int)

  datatype SpeedTestResult = SpeedTestResult(
    result: TestInfo,
    server: Server,
    isp: string,
    ping: PingStats,
    packetLoss: real,
    download: Transfer,
    upload: Transfer)

  // ---------------------------------------------------------------------
  // Time-series points and the declared schema
  // ---------------------------------------------------------------------

  /** The three measurements of the schema, 'ping', 'download' and 'upload'. */
  datatype Measurement = Ping | Download | Upload

  /** The tag keys 'location', 'country', 'host' and 'isp'. */
  datatype TagKey = Location | Country | Host | Isp

  /** The field keys: 'jitter', 'latency' and 'packetLoss' of the ping
      measurement, 'bandwidth', 'bytes' and 'elapsed' of the transfer ones. */
  datatype FieldKey = Jitter | Latency | PacketLoss | Bandwidth | Bytes | Elapsed

  datatype FieldType = Float | Integer

  datatype FieldValue = FloatValue(f: real) | IntegerValue(i: int)

  function TypeOf(v: FieldValue): FieldType
  {
    match v
    case FloatValue(_) => Float
    case IntegerValue(_) => Integer
  }

  /** A point as handed to the datastore client: tags and fields are keyed objects. */
  datatype Point = Point(measurement: Measurement, tags: map<TagKey, string>, fields: map<FieldKey, FieldValue>)

  /** One entry of the schema given to the datastore client. */
  datatype MeasurementSchema = MeasurementSchema(measurement: Measurement, fields: map<FieldKey, FieldType>, tags: seq<TagKey>)

  const TagNames: seq<TagKey> := [Location, Country, Host, Isp]

  /** The schema declared when the datastore client is constructed, in declaration order. */
  const Measurements: seq<MeasurementSchema> := [
    MeasurementSchema(Ping,
      map[Jitter := Float, Latency := Float, PacketLoss := Float], TagNames),
    MeasurementSchema(Download,
      map[Bandwidth := Integer, Bytes := Integer, Elapsed := Integer], TagNames),
    MeasurementSchema(Upload,
      map[Bandwidth := Integer, Bytes := Integer, Elapsed := Integer], TagNames)
  ]

  /** A point fits a schema entry: same measurement, exactly the declared fields
      with the declared types, and exactly the declared tag keys. */
  predicate ConformsTo(p: Point, s: MeasurementSchema)
  {
    && p.measurement == s.measurement
    && p.fields.Keys == s.fields.Keys
    && (forall k :: k in p.fields ==> TypeOf(p.fields[k]) == s.fields[k])
    && (forall t :: t in p.tags ==> t in s.tags)
    && (forall t :: t in s.tags ==> t in p.tags)
  }
}
