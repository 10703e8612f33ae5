/** The Kafka producer service's startup checks, its TLS guard, and the
    access-log entry that encodes itself once and caches the result. */
module KafkaProducer {

  import opened Base
  import opened Text

  // ---------------------------------------------------------------------------
  // Options and startup

  /** `KafkaProducerOptions`. */
  datatype ProducerOptions = ProducerOptions(
    addr: string, brokers: string, verbose: bool,
    certFile: string, keyFile: string, caFile: string, verifySsl: bool)

  /** The three default brokers. */
  const DefaultBrokerList: seq<string> := ["10.0.0.247:9092", "10.0.0.248:9092", "10.0.0.230:9092"]

  /** `defaultKafkaProducerOptions`; its `Brokers` is the default brokers
      joined with ',', "10.0.0.247:9092,10.0.0.248:9092,10.0.0.230:9092". */
  const DefaultProducerOptions := ProducerOptions(":9095", Join(DefaultBrokerList, ','), false, "", "", "", false)

  /** The panic message of `init` for an empty broker list. */
  const NoBrokersMessage := "no Kafka bootstrap brokers defined, please set the -brokers flag"

  /** `init`'s check and `main`'s split: an empty `Brokers` is rejected
      (`init` panics), otherwise the broker list is the comma split of
      `Brokers` — the unique list of comma-free pieces that joins back to it. */
  function ProducerStartup(o: ProducerOptions): (r: Result<seq<string>, string>)
    ensures r.Err? <==> |o.brokers| == 0
    ensures r.Err? ==> r.error == NoBrokersMessage
    ensures r.Ok? ==> |r.value| >= 1 && Join(r.value, ',') == o.brokers
    ensures r.Ok? ==> forall i | 0 <= i < |r.value| :: ',' !in r.value[i]
  {
    if |o.brokers| == 0 then Err(NoBrokersMessage)
    else
      JoinSplit(o.brokers, ',');
      SplitPiecesHaveNoSep(o.brokers, ',');
      Ok(Split(o.brokers, ','))
  }

  /** The defaults start up with the three default brokers. */
  lemma DefaultsStartWithThreeBrokers()
    ensures ProducerStartup(DefaultProducerOptions) == Ok(DefaultBrokerList)
  {
    var b := DefaultBrokerList;
    assert ',' !in b[0] && ',' !in b[1] && ',' !in b[2];
    SplitJoin(b, ',');
    assert Join(b, ',') != [];
  }

  // ---------------------------------------------------------------------------
  // The TLS guard

  /** The parts of `tls.Config` that `createTlsConfiguration` decides: the files
      the certificate and the CA pool are loaded from, and the
      `InsecureSkipVerify` switch. */
  datatype TlsConfig = TlsConfig(certFile: string, keyFile: string, caFile: string, insecureSkipVerify: bool)

  predicate HasTlsFiles(o: ProducerOptions)
  {
    o.certFile != "" && o.keyFile != "" && o.caFile != ""
  }

  /** `createTlsConfiguration`, as written: a configuration only when the
      certificate, key and CA file are all given, with `InsecureSkipVerify`
      copied from the "verify" flag; otherwise nil. */
  function TlsConfiguration(o: ProducerOptions): (t: Option<TlsConfig>)
    ensures t.Some? <==> HasTlsFiles(o)
    ensures t.Some? ==> t.value.certFile == o.certFile && t.value.keyFile == o.keyFile && t.value.caFile == o.caFile
    ensures t.Some? ==> t.value.insecureSkipVerify == o.verifySsl
  {
    if o.certFile != "" && o.keyFile != "" && o.caFile != "" then
      Some(TlsConfig(o.certFile, o.keyFile, o.caFile, o.verifySsl))
    else None
  }

  /** Asking for certificate verification turns it off: with all three files
      and the "verify" flag set, the configuration skips verification. */
  lemma VerifyFlagDisablesVerification(o: ProducerOptions)
    requires HasTlsFiles(o) && o.verifySsl
    ensures TlsConfiguration(o).Some? && TlsConfiguration(o).value.insecureSkipVerify
  {
  }

  /** `createTlsConfiguration` with the flag read as its description says:
      verification is skipped exactly when "verify" is not set. */
  function TlsConfigurationVerifying(o: ProducerOptions): (t: Option<TlsConfig>)
    ensures t.Some? <==> HasTlsFiles(o)
  {
    if HasTlsFiles(o) then Some(TlsConfig(o.certFile, o.keyFile, o.caFile, !o.verifySsl)) else None
  }

  /** With the corrected reading, a set "verify" flag verifies the chain, and
      the result agrees with the as-written one on everything but that switch. */
  lemma VerifyFlagVerifies(o: ProducerOptions)
    ensures TlsConfigurationVerifying(o).Some? ==>
      (TlsConfigurationVerifying(o).value.insecureSkipVerify <==> !o.verifySsl)
    ensures TlsConfigurationVerifying(o).Some? ==>
      TlsConfigurationVerifying(o).value
        == TlsConfiguration(o).value.(insecureSkipVerify := !o.verifySsl)
  {
  }

  // ---------------------------------------------------------------------------
  // The access-log entry's encode-once cache

  /** The exported fields of `accessLogEntry` that the JSON encoder sees; the
      floating-point response time is not modelled. */
  datatype AccessLogFields = AccessLogFields(httpMethod: string, host: string, path: string, ip: string)

  /** What `json.Marshal` leaves in the two cache fields: the bytes and no
      error, or nil bytes and the error. */
  datatype Cache = Cache(encoded: Option<Bytes>, err: Option<string>)

  function CacheOf(r: Result<Bytes, string>): (c: Cache)
    ensures r.Ok? ==> c == Cache(Some(r.value), None)
    ensures r.Err? ==> c == Cache(None, Some(r.error))
  {
    match r
    case Ok(b) => Cache(Some(b), None)
    case Err(e) => Cache(None, Some(e))
  }

  /** `len(ale.encoded)`: the length of the bytes, 0 for nil. */
  function CachedLength(c: Cache): nat
  {
    match c.encoded
    case Some(b) => |b|
    case None => 0
  }

  /** Whatever the encoder returns, the cache it fills is never "both unset",
      so the encoder is not called again — a failure included. */
  lemma FilledCacheIsFinal(r: Result<Bytes, string>)
    ensures CacheOf(r).encoded.Some? || CacheOf(r).err.Some?
    ensures CacheOf(r).encoded.Some? != CacheOf(r).err.Some?
  {
  }

  /** An `accessLogEntry`. `marshal` is the JSON encoder, abstract;
      `marshalCalls` counts its invocations. */
  class AccessLogEntry {
    const fields: AccessLogFields
    const marshal: AccessLogFields -> Result<Bytes, string>
    var encoded: Option<Bytes>
    var err: Option<string>
    ghost var marshalCalls: nat

    /** Either nothing is cached and the encoder has not run, or it has run
        exactly once and its result is cached. */
    ghost predicate Valid()
      reads this
    {
      (marshalCalls == 0 && encoded == None && err == None)
      || (marshalCalls == 1 && Cache(encoded, err) == CacheOf(marshal(fields)))
    }

    constructor(fields: AccessLogFields, marshal: AccessLogFields -> Result<Bytes, string>)
      ensures Valid()
      ensures this.fields == fields && this.marshal == marshal
      ensures encoded == None && err == None && marshalCalls == 0
    {
      this.fields := fields;
      this.marshal := marshal;
      encoded := None;
      err := None;
      marshalCalls := 0;
    }

    /** `ensureEncoded`: the encoder runs only when both cache fields are
        unset; afterwards the cache holds its result and it has run once. */
    method EnsureEncoded()
      requires Valid()
      modifies this
      ensures Valid()
      ensures marshalCalls == 1
      ensures Cache(encoded, err) == CacheOf(marshal(fields))
      ensures old(marshalCalls) == 1 ==> encoded == old(encoded) && err == old(err)
    {
      if encoded == None && err == None {
        var c := CacheOf(marshal(fields));
        encoded, err := c.encoded, c.err;
        marshalCalls := marshalCalls + 1;
      }
    }

    /** `Length`: encodes if needed and returns the cached length. */
    method Length() returns (n: nat)
      requires Valid()
      modifies this
      ensures Valid()
      ensures marshalCalls == 1
      ensures Cache(encoded, err) == CacheOf(marshal(fields))
      ensures n == CachedLength(CacheOf(marshal(fields)))
    {
      EnsureEncoded();
      n := match encoded case Some(b) => |b| case None => 0;
    }

    /** `Encode`: encodes if needed and returns the cached bytes and error, the
        same pair on every call. */
    method Encode() returns (bytes: Option<Bytes>, e: Option<string>)
      requires Valid()
      modifies this
      ensures Valid()
      ensures marshalCalls == 1
      ensures Cache(bytes, e) == CacheOf(marshal(fields))
      ensures Cache(encoded, err) == Cache(bytes, e)
    {
      EnsureEncoded();
      bytes, e := encoded, err;
    }
  }

  /** The producer asks for the length and the bytes: whichever it asks first,
      the encoder runs once, the two answers agree, and repeating `Encode`
      returns the same pair. */
  method LengthAndEncode(entry: AccessLogEntry, lengthFirst: bool)
    returns (n: nat, bytes: Option<Bytes>, e: Option<string>)
    requires entry.Valid()
    modifies entry
    ensures entry.Valid() && entry.marshalCalls == 1
    ensures Cache(bytes, e) == CacheOf(entry.marshal(entry.fields))
    ensures n == match bytes case Some(b) => |b| case None => 0
    ensures bytes.Some? != e.Some?
  {
    if lengthFirst {
      n := entry.Length();
      bytes, e := entry.Encode();
    } else {
      bytes, e := entry.Encode();
      n := entry.Length();
    }
    var again, e2 := entry.Encode();
    assert again == bytes && e2 == e;
    FilledCacheIsFinal(entry.marshal(entry.fields));
  }
}
