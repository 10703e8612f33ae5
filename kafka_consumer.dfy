/** The Kafka consumer service's startup: the flag checks of `init` and the
    configuration `main` builds before it joins the consumer group. */
module KafkaConsumer {

  import opened Base
  import opened Text

  /** `KafkaConsumerOptions`. */
  datatype ConsumerOptions = ConsumerOptions(
    brokers: string, version: string, group: string, topics: string,
    assignor: string, oldest: bool, verbose: bool)

  /** The three default brokers. */
  const DefaultBrokerList: seq<string> := ["10.0.0.247:9092", "10.0.0.248:9092", "10.0.0.230:9092"]

  /** The three default topics. */
  const DefaultTopicList: seq<string> := ["important", "access_log", "maxwell"]

  /** `defaultKafkaConsumerOptions`; its `Brokers` and `Topics` are the default
      lists joined with ',': "10.0.0.247:9092,10.0.0.248:9092,10.0.0.230:9092"
      and "important,access_log,maxwell". */
  const DefaultConsumerOptions :=
    ConsumerOptions(Join(DefaultBrokerList, ','), "2.8.1", "sql", Join(DefaultTopicList, ','), "range", true, false)

  /** Why startup stops: one of `init`'s three panics, a version the version
      parser rejects, or an unrecognised assignor. */
  datatype StartupError = NoBrokers | NoTopics | NoGroup | BadVersion(version: string) | UnknownAssignor(assignor: string)

  /** `init`'s checks, in order: brokers, then topics, then group. */
  function InitCheck(o: ConsumerOptions): (e: Option<StartupError>)
    ensures e == Some(NoBrokers) <==> o.brokers == ""
    ensures e == Some(NoTopics) <==> o.brokers != "" && o.topics == ""
    ensures e == Some(NoGroup) <==> o.brokers != "" && o.topics != "" && o.group == ""
    ensures e == None <==> o.brokers != "" && o.topics != "" && o.group != ""
  {
    if |o.brokers| == 0 then Some(NoBrokers)
    else if |o.topics| == 0 then Some(NoTopics)
    else if |o.group| == 0 then Some(NoGroup)
    else None
  }

  /** Sarama's rebalance strategies. */
  datatype Strategy = Sticky | RoundRobin | Range

  /** The assignor switch: the three exact names, and nothing else. */
  function StrategyOf(assignor: string): (s: Option<Strategy>)
    ensures s == Some(Sticky) <==> assignor == "sticky"
    ensures s == Some(RoundRobin) <==> assignor == "roundrobin"
    ensures s == Some(Range) <==> assignor == "range"
    ensures s == None <==> assignor != "sticky" && assignor != "roundrobin" && assignor != "range"
  {
    if assignor == "sticky" then Some(Sticky)
    else if assignor == "roundrobin" then Some(RoundRobin)
    else if assignor == "range" then Some(Range)
    else None
  }

  /** Where a new consumer group starts: sarama's default is the newest offset. */
  datatype InitialOffset = OffsetNewest | OffsetOldest

  /** The configuration `main` hands to the consumer group. */
  datatype ConsumerConfig = ConsumerConfig(
    version: string, strategy: Strategy, initial: InitialOffset,
    brokers: seq<string>, group: string, topics: seq<string>)

  /** Startup, from the flags to the configuration: `init`'s checks, then the
      version (the parser is abstract: `versionOk`), then the assignor, then
      the initial offset; brokers and topics are split on ','. */
  function Startup(o: ConsumerOptions, versionOk: string -> bool): (r: Result<ConsumerConfig, StartupError>)
    ensures InitCheck(o).Some? ==> r == Err(InitCheck(o).value)
    ensures InitCheck(o).None? && !versionOk(o.version) ==> r == Err(BadVersion(o.version))
    ensures InitCheck(o).None? && versionOk(o.version) && StrategyOf(o.assignor).None? ==>
      r == Err(UnknownAssignor(o.assignor))
    ensures r.Ok? <==> InitCheck(o).None? && versionOk(o.version) && StrategyOf(o.assignor).Some?
    ensures r.Ok? ==> r.value.strategy == StrategyOf(o.assignor).value
    ensures r.Ok? ==> (r.value.initial == OffsetOldest <==> o.oldest)
    ensures r.Ok? ==> r.value.version == o.version && r.value.group == o.group
    ensures r.Ok? ==> Join(r.value.brokers, ',') == o.brokers && Join(r.value.topics, ',') == o.topics
    ensures r.Ok? ==> forall i | 0 <= i < |r.value.brokers| :: ',' !in r.value.brokers[i]
    ensures r.Ok? ==> forall i | 0 <= i < |r.value.topics| :: ',' !in r.value.topics[i]
  {
    match InitCheck(o)
    case Some(e) => Err(e)
    case None =>
      if !versionOk(o.version) then Err(BadVersion(o.version))
      else
        match StrategyOf(o.assignor)
        case None => Err(UnknownAssignor(o.assignor))
        case Some(s) =>
          JoinSplit(o.brokers, ',');
          JoinSplit(o.topics, ',');
          SplitPiecesHaveNoSep(o.brokers, ',');
          SplitPiecesHaveNoSep(o.topics, ',');
          Ok(ConsumerConfig(o.version, s, if o.oldest then OffsetOldest else OffsetNewest,
                            Split(o.brokers, ','), o.group, Split(o.topics, ',')))
  }

  /** The defaults pass every check (given that the version parser accepts
      "2.8.1"), select the range strategy from the oldest offset, and consume
      the three default topics from the three default brokers. */
  lemma DefaultsStart(versionOk: string -> bool)
    requires versionOk("2.8.1")
    ensures Startup(DefaultConsumerOptions, versionOk)
         == Ok(ConsumerConfig("2.8.1", Range, OffsetOldest, DefaultBrokerList, "sql", DefaultTopicList))
  {
    var b := DefaultBrokerList;
    var t := DefaultTopicList;
    assert ',' !in b[0] && ',' !in b[1] && ',' !in b[2];
    assert ',' !in t[0] && ',' !in t[1] && ',' !in t[2];
    SplitJoin(b, ',');
    SplitJoin(t, ',');
    assert Join(b, ',') != [] && Join(t, ',') != [];
  }
}
