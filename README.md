# go-demo: websocket hub, API server start-up and Kafka services, in Dafny

This project models the core of the `go-demo` repository in Dafny and proves
properties of that model. The core has three parts.

- **Websocket home controller.**
  - The client hub keeps a registry of connected clients, keyed by remote
    address. It has three branches: register, unregister and broadcast.
  - Each client has a bounded outbox (its buffered `send` channel), a read
    loop that answers Ping with Pong, and a write loop that drains the
    outbox to the connection as binary frames.
  - The message envelope is a `Msg` with a one-byte type tag and a data
    string.
- **API server start-up.**
  - The option structs, their defaults and their validators.
  - The run function: build the configuration, set up the logger, run the
    server.
  - The logger set-up and its caller label.
  - The listen address, and the readiness probe's URL.
- **Kafka services.**
  - The producer's broker check and split, its TLS guard, and the
    access-log entry that encodes itself once and caches the result.
  - The consumer's start-up checks, assignor choice, initial offset and
    splits.

Stateful parts are classes:
- `Home.Client` and `Home.Hub` stand for the Go `Client` and `ClientHub`.
- `Home.Conn` stands for the websocket connection.
- `KafkaProducer.AccessLogEntry` stands for `accessLogEntry`.

Their methods are proved against pure functions (`HubModel`, `ClientModel`),
and the lemmas about those functions carry the properties.

Foreign code the core calls appears as function-typed parameters:
- the JSON encoder and decoder;
- logrus's level parser (`levelOk`);
- sarama's version parser (`versionOk`);
- the HTTP server run (`serve`);
- the probe loop (`probe`).

The Go library functions the core relies on are written out in module
`Text`: `strings.Split`, `strings.Join`, `strings.Contains`,
`strings.ToLower` (ASCII), `strconv.Itoa`, `path.Base` and
`net.JoinHostPort`.

Source paths below are relative to the repository root.

## Model

| member | source | states |
|---|---|---|
| Base.AsciiBytes | websocket/internal/apiserver/controller/home/client.go:103 | `[]byte("...")` of a literal whose characters are all below 128: one byte per character, each with that character's code |
| Text.ToLower | websocket/internal/pkg/options/log_options.go:48 | same length; every character is lowered where the input has an ASCII capital |
| Text.ToLowerIdempotent | websocket/internal/pkg/options/log_options.go:48 | lowering twice is lowering once |
| Text.ContainsIff | websocket/internal/apiserver/apiserver.go:83 | `strings.Contains` holds exactly when the substring occurs at some index |
| Text.Split | kafka/producer/main.go:56 | `strings.Split` with a one-character separator always returns at least one piece |
| Text.JoinSplit | kafka/producer/main.go:56 | joining the split pieces with the separator gives back the input |
| Text.SplitPiecesHaveNoSep | kafka/consumer/main.go:98 | no piece of a split contains the separator |
| Text.SplitSepFreePrefix | kafka/consumer/main.go:111 | a separator-free prefix becomes part of the first piece |
| Text.SplitJoin | kafka/consumer/main.go:98 | splitting the join of a non-empty list of separator-free pieces gives back that list |
| Text.SplitPair | websocket/internal/apiserver/app.go:59 | splitting `a sep b` with separator-free parts gives `[a, b]` |
| Text.NatToDecimalValue | websocket/internal/apiserver/apiserver.go:32 | the decimal digits of `n` are non-empty, all digits, read back as `n`, and have a leading zero only for `n == 0` |
| Text.ItoaRoundTrip | websocket/internal/apiserver/apiserver.go:32 | `strconv.Itoa` is reversed by parsing, negative numbers included |
| Text.ItoaHasNoColon | websocket/internal/apiserver/apiserver.go:32 | a decimal numeral never contains ':' |
| Text.TrimTrailingSlashes | websocket/internal/apiserver/app.go:58 | the result is a prefix of the path, does not end in '/', and everything cut off is '/' |
| Text.AfterLastSlash | websocket/internal/apiserver/app.go:58 | the last path element contains no '/' |
| Text.AfterLastSlashOfJoin | websocket/internal/apiserver/app.go:58 | the element after the last '/' of `dir/name` is `name` |
| Text.PathBaseOfJoin | websocket/internal/apiserver/app.go:58 | `path.Base("dir/name")` and `path.Base("name")` are `name` |
| Text.PathBaseShape | websocket/internal/apiserver/app.go:58 | `path.Base` is never empty, and contains '/' only when it is "/" |
| Text.JoinHostPortSplits | websocket/internal/apiserver/apiserver.go:32 | for a host and a port without ':', the joined address splits at ':' into exactly `[host, port]` |
| Envelope.TagValues | websocket/internal/apiserver/controller/home/home.go:10-14 | Ping, Pong and Test are 1, 2 and 3; they are distinct, and 0 is not a named tag |
| Envelope.TagInByteRange | websocket/internal/apiserver/controller/home/home.go:8 | every `MsgType` value lies in 0..255 |
| Envelope.MsgFields | websocket/internal/apiserver/controller/home/home.go:16-19 | the JSON object of a `Msg` has exactly the keys "msgType" and "data" |
| Envelope.MsgFieldsRoundTrip | websocket/internal/apiserver/controller/home/home.go:16-19 | reading the two tagged fields back gives the same `Msg` |
| Envelope.FieldsCodecRoundTrips | websocket/internal/apiserver/controller/home/client.go:55-62 | a byte codec that goes through the two tagged fields over a round-tripping object codec gives the message round trip that `json.Marshal` and `json.Unmarshal` are assumed to have |
| Envelope.CheckOrigin | websocket/internal/apiserver/controller/home/home.go:28-30 | every origin is accepted |
| HubModel.RegisterEffect | websocket/internal/apiserver/controller/home/client_hub.go:53-55 | register adds the address; on a duplicate the earlier entry is kept; no other entry changes |
| HubModel.RemoveEffect | websocket/internal/apiserver/controller/home/client_hub.go:62-66 | the guarded delete removes exactly that address, touches no other entry, and is idempotent |
| HubModel.BroadcastEffect | websocket/internal/apiserver/controller/home/client_hub.go:68-75 | broadcast keeps the key set; an outbox with room gets the message at its tail; a full outbox is unchanged; capacities and the capacity bound are kept |
| HubModel.BroadcastInOrderTouches | websocket/internal/apiserver/controller/home/client_hub.go:69-75 | sending along a repetition-free order changes exactly the addresses in that order |
| HubModel.BroadcastOrderIrrelevant | websocket/internal/apiserver/controller/home/client_hub.go:69 | every iteration order over the registry gives the same registry |
| HubModel.KeysAsWrittenOnlyGrow | websocket/internal/apiserver/controller/home/client_hub.go:58-61 | as written, the key set after a run is the starting set plus every admitted address: nothing is removed |
| HubModel.UnregisterAsWrittenKeepsClient | websocket/internal/apiserver/controller/home/client_hub.go:58-61 | registering then unregistering a client leaves it registered |
| HubModel.RunAsWrittenKeys | websocket/internal/apiserver/controller/home/client_hub.go:45-78 | the key set after an as-written run over the registry is the as-written key fold |
| HubModel.RunAsWrittenWithinCapacity | websocket/internal/apiserver/controller/home/client_hub.go:53-75 | if every outbox and every admitted outbox is within its capacity, every outbox is still within it after the run |
| HubModel.KeysAreAdmittedNotEvicted | websocket/internal/apiserver/controller/home/client_hub.go:48-67 | with the guard corrected, an address is registered after a run exactly when its last event was a register, or when it was there before and has no event |
| ClientModel.RepliesAppend | websocket/internal/apiserver/controller/home/client.go:43-70 | the replies to two runs of frames are the replies to each, in order |
| ClientModel.NonPingFrameIgnored | websocket/internal/apiserver/controller/home/client.go:55-59 | a frame that does not decode to Ping adds nothing, and the later frames are still answered |
| ClientModel.PingGetsOnePong | websocket/internal/apiserver/controller/home/client.go:59-68 | one Ping frame gets exactly one reply, the encoded Pong |
| ClientModel.RepliesArePongs | websocket/internal/apiserver/controller/home/client.go:59-68 | one reply per Ping frame, and every reply is the encoded Pong |
| ClientModel.RepliesDecodeAsPong | websocket/internal/apiserver/controller/home/client.go:61-68 | with a codec that round-trips, every reply decodes at the peer as Pong without error |
| ClientModel.RepliesEmptyWithoutPong | websocket/internal/apiserver/controller/home/client.go:62-66 | if the Pong fails to encode, nothing is ever queued |
| ClientModel.BinaryFrames | websocket/internal/apiserver/controller/home/client.go:91 | one binary frame per item, with the same payload, in the same order |
| ClientModel.BinaryFramesAppend | websocket/internal/apiserver/controller/home/client.go:91 | writing one more item adds one binary frame at the end |
| ClientModel.DrainStepwiseIsDrain | websocket/internal/apiserver/controller/home/client.go:84-98 | the item-by-item loop ends as the closed form says |
| ClientModel.DrainAccounts | websocket/internal/apiserver/controller/home/client.go:84-98 | each queued item is written in order, lost to the failing write, or still queued; the loop fails exactly at the first rejected write; a closed exit needs a closed channel |
| ClientModel.ClosedConnectionWritesNothing | websocket/internal/apiserver/controller/home/client.go:90-94 | draining onto a closed connection writes no frame; a non-empty outbox loses its oldest item to the failed write and the loop ends |
| Home.Client.constructor | websocket/internal/apiserver/controller/home/client.go:24-28 | the client keeps the connection, is keyed by its remote address, and has an empty, open outbox of capacity 10·1024·1024 |
| Home.Client.ReadMessage | websocket/internal/apiserver/controller/home/client.go:34-71 | the outbox grows by exactly the replies to the inbound frames; the connection ends closed, with nothing written to it |
| Home.Client.WriteMessage | websocket/internal/apiserver/controller/home/client.go:73-99 | the exit, the remaining outbox and the frames written are those of the closed-form drain, in which a connection already closed rejects its first write; the connection stays open only while waiting |
| Home.Client.TrySend | websocket/internal/apiserver/controller/home/client_hub.go:70-74 | the message is queued exactly when the outbox has room; otherwise it is dropped and the outbox is unchanged |
| Home.Client.SendHello | websocket/internal/apiserver/controller/home/client.go:101-106 | one round queues the bytes of "hello" at the tail |
| Home.FirstNilUnregister | websocket/internal/apiserver/controller/home/client_hub.go:58-67 | the index of the first nil unregister: no earlier event is one, and the event at the index is one |
| Home.OpsOf | websocket/internal/apiserver/controller/home/client_hub.go:47-76 | one step per event, in order |
| Home.ClientsAsWrittenKeepsEntries | websocket/internal/apiserver/controller/home/client_hub.go:53-55 | a run of register steps keeps every earlier entry, and every new entry is a client registered in the run, stored under its own address |
| Home.RunExtend | websocket/internal/apiserver/controller/home/client_hub.go:45-78 | before the first nil unregister, handling one more event applies that event's step to the registry |
| Home.ClientsExtend | websocket/internal/apiserver/controller/home/client_hub.go:45-78 | handling one more event applies that event's register step to the map of clients |
| Home.Hub.constructor | websocket/internal/apiserver/controller/home/client_hub.go:23-31 | a new hub has an empty registry |
| Home.Hub.Register | websocket/internal/apiserver/controller/home/client_hub.go:48-57 | a nil client changes nothing; otherwise the client is inserted under its address only if the address is absent; no stored client is dropped |
| Home.Hub.Unregister | websocket/internal/apiserver/controller/home/client_hub.go:58-67 | as written: a real client is skipped, a nil one dereferences nil, and the registry is unchanged either way |
| Home.Hub.Remove | websocket/internal/apiserver/controller/home/client_hub.go:62-66 | the guarded delete: exactly the client's address leaves the registry |
| Home.Hub.AbsentAddressesNotMembers | websocket/internal/apiserver/controller/home/client_hub.go:53-55 | a client whose address is not registered is not one of the stored clients |
| Home.Hub.Broadcast | websocket/internal/apiserver/controller/home/client_hub.go:68-75 | only the stored clients' outboxes are written; the registry becomes the broadcast of the old one; the dropped addresses are exactly those whose outbox was full |
| Home.Hub.Handle | websocket/internal/apiserver/controller/home/client_hub.go:46-76 | one branch per event, writing only outboxes of stored clients: a nil unregister panics and changes nothing; the map of clients takes the event's register step (a new client stored only under an absent address); the registry takes the event's as-written step, a register bringing the client's outbox and a broadcast delivering to every outbox with room; no stored client is dropped |
| Home.Hub.RunStep | websocket/internal/apiserver/controller/home/client_hub.go:45-78 | one turn of the loop: it panics exactly at the first nil unregister, changing nothing; otherwise the map of clients and the registry extend the as-written folds by one event; no stored client is dropped, and a registered client still not stored keeps the outbox it had when the run began |
| Home.Hub.Run | websocket/internal/apiserver/controller/home/client_hub.go:45-78 | the loop handles the events up to the first nil unregister; the map of clients is the as-written register fold, and the registry is the as-written fold over the events, each client bringing the outbox it had when the run began; the keys are the as-written keys; no stored client is dropped, and a registered client the run does not store (its address taken, or its event after the stop) keeps its outbox |
| Home.NewClient | websocket/internal/apiserver/controller/home/client.go:20-32 | a nil connection gives the error and registers nothing; otherwise a fresh client is built and registered by address |
| LogConfig.NewLogOptions | websocket/internal/pkg/options/log_options.go:17-37 | the defaults: "text", "2006-01-02 15:05:06.000", "debug" |
| LogConfig.Validate | websocket/internal/pkg/options/log_options.go:40-54 | at most two errors; clean exactly when the level parses and the format is accepted; the level error comes before the format error |
| LogConfig.FormatCheckIgnoresCase | websocket/internal/pkg/options/log_options.go:48-51 | formatters equal up to case are accepted alike |
| LogConfig.UppercaseFormatsAccepted | websocket/internal/pkg/options/log_options.go:48-51 | "JSON" and "Text" pass the format check |
| LogConfig.TimeFormatterNotValidated | websocket/internal/pkg/options/log_options.go:40-54 | the timestamp layout does not affect validation |
| LogConfig.DefaultsValid | websocket/internal/pkg/options/log_options.go:17-21 | the defaults validate clean when the parser accepts "debug" |
| ServerRunConfig.NewServerRunOptions | websocket/internal/pkg/options/server_run_options.go:5-19 | zero-valued defaults: empty mode, healthz off, no middlewares |
| ServerRunConfig.Validate | websocket/internal/pkg/options/server_run_options.go:21-24 | never reports an error |
| ApiServerConfig.NewApiServerOptions | websocket/internal/apiserver/options/apiserver_options.go:8-23 | the defaults: "127.0.0.1", port 9099 |
| ApiServerConfig.Validate | websocket/internal/apiserver/options/apiserver_options.go:30-39 | clean exactly when the port is in 0..65535; otherwise exactly one error naming the port |
| ApiServerConfig.PortBoundsInclusive | websocket/internal/apiserver/options/apiserver_options.go:33-36 | 0 and 65535 are accepted; -1 and 65536 are rejected |
| ApiServerConfig.BindAddressNotValidated | websocket/internal/apiserver/options/apiserver_options.go:30-39 | the bind address does not affect validation |
| ApiServerConfig.DefaultsValid | websocket/internal/apiserver/options/apiserver_options.go:8-11 | the defaults validate clean |
| AppOptions.NewOptions | websocket/internal/apiserver/options/options.go:15-22 | each part comes from its own constructor |
| AppOptions.Validate | websocket/internal/apiserver/options/options.go:32-38 | the bind errors, then the log errors, in order; clean exactly when the port is in range, the level parses and the format is accepted; at most three |
| AppOptions.ValidateIsConcatenation | websocket/internal/apiserver/options/options.go:32-38 | the length is the sum of the three validators' lengths; clean exactly when all three are |
| AppOptions.DefaultsValid | websocket/internal/apiserver/options/options.go:15-22 | the default options validate clean when the parser accepts "debug" |
| App.InitLog | websocket/internal/apiserver/app.go:45-76 | a rejected level is the error; otherwise the level is set; exactly "json" installs the JSON formatter, exactly "text" the text formatter with full timestamps and caller reporting, and anything else installs none |
| App.UppercaseJsonKeepsFormatter | websocket/internal/apiserver/app.go:51-73 | "JSON" validates clean, yet it installs no formatter |
| App.InitLogFolded | websocket/internal/apiserver/app.go:45-76 | the corrected set-up fails exactly on a rejected level, and sets that level |
| App.ValidatedFormatIsInstalled | websocket/internal/pkg/options/log_options.go:48-51 | with the lowercase comparison, every option set that validates clean gets the formatter its name selects |
| App.FoldedAgreesOnLowercase | websocket/internal/apiserver/app.go:51-73 | on lowercase formatters, the corrected set-up equals the original |
| App.CallerLabel | websocket/internal/apiserver/app.go:57-60 | the first part of the label is the function name |
| App.CallerLabelFields | websocket/internal/apiserver/app.go:67-70 | for a file `dir/name`, the second part splits at ':' into the base name and a number that reads back as the line |
| App.RunApp | websocket/internal/apiserver/app.go:28-43 | the server runs exactly when the log level parses; a log error is returned before serving; otherwise the server's own error, if any, is returned |
| App.ValidOptionsReachServer | websocket/internal/apiserver/app.go:28-43 | options that validate clean always reach the server run |
| ApiServer.CreateApiServer | websocket/internal/apiserver/apiserver.go:28-35 | never fails; copies healthz and mode; the address joins the bind address with the decimal port |
| ApiServer.AddressFields | websocket/internal/apiserver/apiserver.go:32 | for a bind address without ':', the listen address splits into the host and a field that reads back as the port |
| ApiServer.HealthUrl | websocket/internal/apiserver/apiserver.go:82-85 | without "0.0.0.0" the URL is built from the address; with it, the URL exists exactly when the address has a second ':' field |
| ApiServer.HealthUrlProbesBindPort | websocket/internal/apiserver/apiserver.go:82-85 | for a bind address without ':', the URL always exists and names the bind port |
| ApiServer.BracketedAddressSecondField | websocket/internal/apiserver/apiserver.go:84 | for a bracketed host that starts with "::", the second ':' field is empty |
| ApiServer.BracketedAddressContains | websocket/internal/apiserver/apiserver.go:83 | a bracketed address contains whatever its host contains |
| ApiServer.HealthUrlLosesPortForIpv6 | websocket/internal/apiserver/apiserver.go:82-85 | for such a host that mentions "0.0.0.0", the probed URL has no port |
| ApiServer.HealthUrlIpv6Example | websocket/internal/apiserver/apiserver.go:82-85 | "::ffff:0.0.0.0" on port 9099 is probed at "http://127.0.0.1:/healthz" |
| ApiServer.HealthUrlFromPort | websocket/internal/apiserver/apiserver.go:82-85 | the corrected URL goes to loopback at the bind port when the address mentions "0.0.0.0" |
| ApiServer.HealthUrlFromPortNamesPort | websocket/internal/apiserver/apiserver.go:82-85 | the corrected URL always names the bind port, and it agrees with the original on hosts without ':' |
| ApiServer.ProbeStep | websocket/internal/apiserver/apiserver.go:68-72 | the probe runs only with healthz set; it succeeds exactly when the probe succeeds; an address the URL cannot be derived from panics |
| KafkaProducer.ProducerStartup | kafka/producer/main.go:46-56 | empty brokers give the panic message; otherwise the broker list is the unique comma-free list that joins back to the flag |
| KafkaProducer.DefaultsStartWithThreeBrokers | kafka/producer/main.go:27-35 | the defaults start with the three default brokers |
| KafkaProducer.TlsConfiguration | kafka/producer/main.go:227-249 | a configuration exactly when all three files are given, with those files, and skip-verify copied from the "verify" flag |
| KafkaProducer.VerifyFlagDisablesVerification | kafka/producer/main.go:244 | with the files given, setting "verify" turns verification off |
| KafkaProducer.TlsConfigurationVerifying | kafka/producer/main.go:227-249 | the corrected guard: a configuration exactly when all three files are given |
| KafkaProducer.VerifyFlagVerifies | kafka/producer/main.go:44 | corrected: verification is skipped exactly when "verify" is unset; otherwise the result equals the original |
| KafkaProducer.CacheOf | kafka/producer/main.go:136 | the encoder's bytes with no error, or no bytes with the error |
| KafkaProducer.FilledCacheIsFinal | kafka/producer/main.go:134-138 | a filled cache has exactly one of its two fields set, so the encoder is not called again |
| KafkaProducer.AccessLogEntry.constructor | kafka/producer/main.go:123-132 | a new entry has an empty cache, and the encoder has not run |
| KafkaProducer.AccessLogEntry.EnsureEncoded | kafka/producer/main.go:134-138 | afterwards the encoder has run exactly once and its result is cached; a filled cache is left as it was |
| KafkaProducer.AccessLogEntry.Length | kafka/producer/main.go:140-143 | the length of the cached bytes, 0 for nil; the encoder runs once |
| KafkaProducer.AccessLogEntry.Encode | kafka/producer/main.go:145-148 | the cached bytes and error, which are the encoder's result; the encoder runs once |
| KafkaProducer.LengthAndEncode | kafka/producer/main.go:140-148 | in either call order, the encoder runs once, the length matches the bytes, and exactly one of bytes and error is set |
| KafkaConsumer.InitCheck | kafka/consumer/main.go:47-57 | the first failing check among brokers, topics and group, in that order; none when all three are set |
| KafkaConsumer.StrategyOf | kafka/consumer/main.go:80-89 | "sticky", "roundrobin" and "range" choose their strategies; every other string is unknown |
| KafkaConsumer.Startup | kafka/consumer/main.go:47-111 | the checks, then the version, then the assignor, each in order; on success the strategy, offset, version and group follow the flags, and brokers and topics are the comma-free splits of the flags |
| KafkaConsumer.DefaultsStart | kafka/consumer/main.go:27-35 | the defaults start with version "2.8.1", the range strategy, the oldest offset, the three default brokers, group "sql" and the three default topics |

## Left out

- Concurrency is not modelled. The model leaves out goroutines, channels, `select` and the hub's mutex.
  - Each loop runs as one sequential call over a given sequence of events or frames.
  - The broadcast reads the registry without the lock; that data race is not modelled.
- A blocking channel send is not modelled as blocking. `Home.Client.ReadMessage` and `Home.Client.SendHello` require room in the outbox instead.
- `Home.Client.SendHello`: one round only; the endless loop and the two-second sleep are left out.
- A send on a closed `send` channel would panic in Go; the model never closes the outbox, so that case is not reached.
- The nil-pointer dereference at client_hub.go:63 panics inside `run`, which is started as a goroutine (client_hub.go:20) with no `recover`, so the whole program crashes, with the mutex already locked at line 62. The model does not end the program: `Home.Hub.Handle` returns `panicked` and `Home.Hub.Run` stops its loop there.
- The JSON codec, logrus's level parser and sarama's version parser are abstract function parameters. So are the HTTP server run and the probe loop.
- `Text.ToLower` lowers ASCII letters only; Unicode case mapping is not modelled.
- Validation errors keep only the offending value; the message text is not modelled.
- Logging is not modelled: logrus calls, warnings for full outboxes, and the `Verbose` sarama logger.
- gin, the router, the `http.Server`, errgroup, `PrepareRun` and `InitClientHub` are not modelled.
- `ApiServer.ProbeStep`: the probe's one-second retry loop, its 10-second timeout and the `Fatal` on timeout are inside the abstract `probe`.
- `Home.Client.WriteMessage`: write errors are given as the index of the first rejected write; the connection's error values are not modelled.
- Kafka I/O is not modelled: the producers' sarama configurations, the HTTP handlers, `ConsumeClaim` and the consume loop.
- `KafkaProducer.TlsConfiguration`: loading the key pair and the CA file, and the `log.Fatal` on failure, are not modelled.
- `KafkaProducer.AccessLogFields` omits the floating-point `ResponseTime`.
- Flag parsing is not modelled: `flag`, `pflag`, the `AddFlags` methods and `Options.String`.
- The configuration and command glue (`config.go`, `run.go`, `cmd`) is not part of this model. `App.RunApp` treats building the configuration from the options as the identity, as `CreateConfigFromOptions` wraps them.
- The consumer's `MarshalIndent` and print of its options are not modelled.
- The default broker and topic strings are written as the default lists joined with ','. Their literal text is given in the doc comments.
- Go's 64-bit `int` is modelled as an unbounded integer. The port range check and `strconv.Itoa` behave the same on every value a flag can set.

## Findings

| source | as written | input that shows it | evidently intended | confidence | as-written member | corrected member |
|---|---|---|---|---|---|---|
| websocket/internal/apiserver/controller/home/client_hub.go:59-61 | the unregister branch skips every non-nil client (`if homeClient != nil { continue }`) and dereferences a nil one | register a client at address `a`, then unregister it: `a` stays registered | skip nil clients and delete the others, as the register branch does | not executed | HubModel.UnregisterAsWrittenKeepsClient | HubModel.KeysAreAdmittedNotEvicted |
| websocket/internal/apiserver/apiserver.go:83-84 | for an address mentioning "0.0.0.0", the probe port is the second ':'-separated field of the address | bind address "::ffff:0.0.0.0" on port 9099: the address is "[::ffff:0.0.0.0]:9099" and the URL is "http://127.0.0.1:/healthz" | probe loopback at the bind port | not executed | ApiServer.HealthUrlIpv6Example | ApiServer.HealthUrlFromPortNamesPort |
| websocket/internal/apiserver/app.go:51-73 | `initLog` compares the formatter case-sensitively, but the validator accepts any case | formatter "JSON" passes validation, yet no formatter is installed | install the formatter the validated name selects, in any case | not executed | App.UppercaseJsonKeepsFormatter | App.ValidatedFormatIsInstalled |
| kafka/producer/main.go:244 | `InsecureSkipVerify` is set to the "verify" flag | all three files given and "verify" set: certificate verification is turned off | skip verification only when "verify" is not set | not executed | KafkaProducer.VerifyFlagDisablesVerification | KafkaProducer.VerifyFlagVerifies |
