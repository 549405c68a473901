# LiveKit protocol core: typed RPC facade, Redis client options, log encoder fields

This project models, in Dafny, four pieces of the LiveKit protocol library and
proves properties of them.

- **Typed RPC API** (`typed_api.dfy`, module `TypedApi`):
  - how `ClientParams.Options()` assembles the client call options (channel size, metrics, logger, retries), and how `Args()` bundles them;
  - the fixed server and client observability bundles and `WithDefaultServerOptions`;
  - the node-addressed signal constructors;
  - the participant and room topic keys and the `topicFormatter`;
  - the two-step `NewKeepalivePubSub` construction.
- **Generated Participant service** (`participant.dfy`, module `Participant`):
  - the five-method descriptor table that client and server each build;
  - the client call wrappers and the topic key each sends;
  - the per-method `Register<M>Topic` / `Deregister<M>Topic` pairs;
  - the bulk registerer list, `RegisterAllParticipantTopics` and `DeregisterAllParticipantTopics`;
  - `Shutdown` and `Kill`.
- **Redis configuration** (`redis.dfy`, module `Redis`):
  - `IsConfigured` and `GetMaxRedirects`;
  - everything `GetRedisClient` decides before it creates and pings a client: the nil and not-configured checks, the TLS choice, sentinel > cluster > simple precedence, the sentinel timeout defaults it writes back into the caller's configuration object, and the resulting `UniversalOptions`.
- **Log encoder fields** (`zaputil.dfy`, module `ZapUtil`):
  - `encoderWithValues`, which clones an encoder and adds one field per (string key, value) pair of its variadic list;
  - the two value-receiver `WithValues` methods.

The psrpc library is not part of this model. The generated code calls it for:

- service definitions;
- RPC clients and servers;
- handler registration;
- `RegistererSlice`;
- option bundling.

`psrpc.dfy` (module `Psrpc`) is an explicit stub of that library. Its members have bodies, and their contracts are the assumptions the rest of the model relies on:

- A message bus can be configured to refuse client construction, server construction, or single handler registrations. It logs every open and close.
- Option bundles are expanded in place, and a later ID option overrides an earlier one.
- A request is delivered to the handler registered under the same method name and topic key (`Routes`).
- `RegisterHandler` fails only with the refusal configured on the bus for that (method, key) pair. Registering a pair that is already registered succeeds and leaves the handler set as it was.
- `RegistererSlice.Register` stops at the first refused registration and undoes the ones before it.
- Closing a server, with or without `force`, records the flag and drops every handler registration.

`wrappers.dfy` holds `Option`, `Result` and `Error`.

Where the functions are pure in Go, they are functions here. Where Go works by mutation, the model does too:

- a `ServiceDefinition` filled by successive `RegisterMethod` calls;
- a server's handler set;
- a bus's event log;
- the `RedisConfig` fields `GetRedisClient` overwrites;
- an encoder's field list.

Those are classes with `modifies` frames. Each such method is tied in its `ensures` to a specification function whose properties are proved as lemmas:

- `Options` to `OptionsOf`;
- `GetRedisClient` to `Plan` and `Normalize`;
- `EncoderWithValues` to `KeyValueFields`.

`NewKeepalivePubSub` passes the server construction to `must.Get`, which panics when the server cannot be built; nothing closes the client opened just before. `TypedApi.NewKeepalivePubSub` reports a panic in that case, and its contract proves that the client is left open: the bus log shows one more open client.

Each generated `Register<M>Topic` passes the method value `svc.<M>` as the handler, which panics when the implementation is nil. `NewParticipantServer` accepts a nil implementation. So a nil implementation makes every registration, and with it `RegisterAllParticipantTopics`, end in a panic with nothing registered; deregistration still works. `Participant.RegisterOutcome` records that outcome.

## Model

| member | source | states |
|---|---|---|
| TypedApi.DefaultConfigOptions | rpc/typed_api.go:39-44 | DefaultPSRPCConfig (3 attempts, 3 s timeout, 2 s backoff, 1000 buffer), with no logger or observer, yields exactly a 1000-slot channel option followed by a retry option with those three values. |
| TypedApi.Options | rpc/typed_api.go:70-89 | The method that appends options one condition at a time returns exactly the list OptionsOf describes. |
| TypedApi.OptionsEmptyIffDefault | rpc/typed_api.go:70-89 | The option list is empty if and only if buffer size, attempts, timeout and backoff are all zero and neither logger nor observer is given. |
| TypedApi.OptionsOrdered | rpc/typed_api.go:71-88 | At most four options, each of a different kind, strictly in the order channel size, metrics, logger, retries. |
| TypedApi.ChannelSizeIff | rpc/typed_api.go:72-74 | A channel-size option is present if and only if BufferSize is non-zero, and it carries exactly BufferSize. |
| TypedApi.ObservabilityIff | rpc/typed_api.go:75-80 | A metrics option is present iff an observer is given, and a logger option iff a logger is; each carries the given value. |
| TypedApi.RetriesIff | rpc/typed_api.go:81-87 | A retry option is present iff at least one of MaxAttempts, Timeout, Backoff is non-zero; it carries all three verbatim, zero ones included. |
| TypedApi.OptionsFlat | rpc/typed_api.go:70-89 | The list Options() returns contains no bundle option. |
| TypedApi.Args | rpc/typed_api.go:92-94 | Returns the params' bus and a single client bundle that expands to exactly the Options() list. |
| TypedApi.WithServerObservability | rpc/typed_api.go:97-102 | A server bundle that expands to the repository's metrics observer followed by the given logger. |
| TypedApi.WithDefaultServerOptions | rpc/typed_api.go:105-110 | A server bundle that expands to a channel-size option with BufferSize, then metrics, then logger. |
| TypedApi.DefaultServerOptionsAlwaysSized | rpc/typed_api.go:105-110 | With BufferSize zero the two compositions differ: Options() carries no channel-size option at all, while the default server bundle still carries ServerChannelSize(0). |
| TypedApi.WithClientObservability | rpc/typed_api.go:112-117 | A client bundle that expands to the metrics observer followed by the given logger. |
| TypedApi.NewTypedSignalClient | rpc/typed_api.go:124-126 | The constructor receives the bus and the caller's options expanded, followed by the client ID option from nodeID. The effective client ID is nodeID whatever the caller passed. |
| TypedApi.NewTypedSignalServer | rpc/typed_api.go:128-130 | The same for the server: svc and bus passed through, server ID option last, effective server ID equal to nodeID. |
| TypedApi.FormatParticipantTopic | rpc/typed_api.go:146-148 | The key is the room name, then an underscore, then the identity; its length is the sum of their lengths plus one. |
| TypedApi.ParticipantTopicInjectiveOnRooms | rpc/typed_api.go:146-148 | When neither room name contains an underscore, equal keys imply equal rooms and equal identities. |
| TypedApi.ParticipantTopicInjectiveOnIdentities | rpc/typed_api.go:146-148 | When neither identity contains an underscore, equal keys imply equal rooms and equal identities. |
| TypedApi.ParticipantTopicCollides | rpc/typed_api.go:146-148 | In general the key is not injective: (r_x, i) and (r, x_i) give the same key, for example ("a_b", "c") and ("a", "b_c"). |
| TypedApi.FormatRoomTopic | rpc/typed_api.go:150-152 | The room key is the room name itself. |
| TypedApi.TopicFormatter.ParticipantTopic | rpc/typed_api.go:160-162 | The formatter's participant key is the room name, an underscore, then the identity; its length is their lengths plus one. |
| TypedApi.TopicFormatter.RoomTopic | rpc/typed_api.go:164-166 | The formatter's room key is the room name itself. |
| TypedApi.TopicFormatterAgrees | rpc/typed_api.go:160-166 | The formatter's two methods ignore their context and return exactly FormatParticipantTopic and the room name. |
| TypedApi.NewTypedParticipantClient | rpc/typed_api.go:189-191 | The Participant client is built from Args(). It fails iff the bus refuses a client, returning that error with the bus log unchanged. Otherwise it is a "Participant" client on the params' bus with the five-method table and the one bundle expanding to Options(), and the log records exactly that client's opening. |
| TypedApi.NewKeepalivePubSub | rpc/typed_api.go:225-232 | A client failure returns that error and builds no server. Otherwise the server is built with a nil implementation, the params' bus and no options. A server failure panics, and the client it had opened stays open (one more open client in the bus log). |
| Participant.DescriptorTableShape | rpc/participant.psrpc.go:91-100 | Service "Participant"; five distinct method names, in declaration order, each with the flags (false, false, true, true), covering every method. |
| Participant.RegisterParticipantMethods | rpc/participant.psrpc.go:96-100 | The five RegisterMethod calls append exactly that table to the shared definition. |
| Participant.NewParticipantClient | rpc/participant.psrpc.go:90-110 | No client exactly when the substrate's client construction fails, and then its error. Otherwise a new client on a fresh "Participant" definition with the given ID and the full table, on the given bus, with the given options. |
| Participant.ParticipantClient.Close | rpc/participant.psrpc.go:132-134 | Closes the underlying RPC client and logs that close on the bus. |
| Participant.CallRequest | rpc/participant.psrpc.go:112-130 | The request each of the five client wrappers sends is Request(Name(m), [p]): the method's own wire name and the one-element key of the participant, which the matching Register<m>Topic(p) subscription receives. |
| Participant.CallReachesOwnRegistration | rpc/participant.psrpc.go:112-130 | A call of method m for key p uses m's own name and the one-element key [p]. It reaches the subscription Register<m>Topic(p) makes, and none for another method or key. Its method name is in the table. |
| Participant.ParticipantServer.RegisterTopic | rpc/participant.psrpc.go:166-200 | A nil implementation panics before the substrate is reached, with the handler set unchanged. Otherwise it registers m's name under [participant] and returns exactly the substrate's error; on error the handler set is unchanged. |
| Participant.ParticipantServer.DeregisterTopic | rpc/participant.psrpc.go:170-204 | Removes exactly the subscription of m under [participant] and reports nothing. |
| Participant.ParticipantServer.RegisterThenDeregister | rpc/participant.psrpc.go:166-204 | With an implementation, registering then deregistering m for a key removes that one subscription; with a nil one the registration panics and nothing changes. Either way every other (method, key) pair stays as it was. |
| Participant.AllRegisterers | rpc/participant.psrpc.go:206-214 | The registerer list holds the five methods in declaration order, each entry pairing Register<X>Topic with Deregister<X>Topic of the same X. |
| Participant.AllRegisterersShape | rpc/participant.psrpc.go:206-214 | The registerer list has five self-paired entries in declaration order; they name five distinct methods, the i-th being the i-th method of the descriptor table. |
| Participant.PairedSets | rpc/participant.psrpc.go:206-222 | A registerer list that pairs each method with itself subscribes, and unsubscribes, exactly that list's keys for the participant. |
| Participant.ParticipantServer.RegisterAllTopics | rpc/participant.psrpc.go:206-218 | A nil implementation panics at the first registerer with nothing registered. Otherwise, if no registration is refused, all five subscriptions are added; if one is, the first refusal's error is returned and the subscriptions of the earlier methods are undone. |
| Participant.ParticipantServer.DeregisterAllTopics | rpc/participant.psrpc.go:220-222 | Removes exactly the five subscriptions of the key, using the same list and key as RegisterAll. |
| Participant.ParticipantServer.Shutdown | rpc/participant.psrpc.go:224-226 | Closes the RPC server with force = false. |
| Participant.ParticipantServer.Kill | rpc/participant.psrpc.go:228-230 | Closes the RPC server with force = true. |
| Participant.NewParticipantServer | rpc/participant.psrpc.go:147-164 | The error is always nil. The server is built on a fresh definition and ends with the full table, no handlers, and the given implementation, bus and options. |
| Redis.RedisSettings.IsConfigured | redis/redis.go:57-68 | True iff Address is non-empty, or SentinelAddresses is non-empty, or ClusterAddresses is non-empty. |
| Redis.RedisSettings.GetMaxRedirects | redis/redis.go:71-76 | The configured MaxRedirects when set, otherwise 2. |
| Redis.GetRedisClient | redis/redis.go:79-158 | A nil configuration yields no client and no error. Otherwise the decision equals Plan of the configuration on entry, and the configuration afterwards equals Normalize of it. |
| Redis.NotConfiguredIff | redis/redis.go:80-86 | ErrNotConfigured exactly when no address of any mode is given; the configuration is then left untouched. |
| Redis.TlsChoice | redis/redis.go:92-102 | An enabled TLS block decides; its construction error aborts with that error, before any default is written. Otherwise UseTLS gives a TLS 1.2 minimum version; otherwise there is no TLS configuration. |
| Redis.ModePrecedence | redis/redis.go:104-158 | Sentinel mode iff sentinel addresses are given; cluster mode iff not and cluster addresses are given; else simple mode. Each mode connects to its own address list; simple mode to [Address], which is then non-empty. |
| Redis.SentinelDefaults | redis/redis.go:104-134 | In sentinel mode, zero dial, read and write timeouts become 2000, 200 and 200 in the configuration itself. Non-zero ones and every other field are kept. The options carry the resulting values as milliseconds. |
| Redis.OtherModesLeaveConfig | redis/redis.go:135-158 | Outside sentinel mode the configuration is unchanged and no timeout or master name is set. Cluster mode uses GetMaxRedirects(); simple mode sets no redirect limit. |
| Redis.SecondCallAgrees | redis/redis.go:104-118 | Writing the defaults is idempotent, and a configuration already updated by GetRedisClient leads to the same decision. |
| Redis.Millis | redis/redis.go:129-131 | Duration(ms) times Millisecond is exactly ms times 10^6 nanoseconds for every ms magnitude that does not overflow int64. |
| ZapUtil.Encoder.Clone | logger/zaputil/zaputil.go:27 | A fresh encoder with the same fields; the original is untouched. |
| ZapUtil.Encoder.AddField | logger/zaputil/zaputil.go:30 | Appends exactly one field. |
| ZapUtil.KeyValueFields | logger/zaputil/zaputil.go:28-32 | At most one field per complete pair, so empty or single-element argument lists add nothing. |
| ZapUtil.EncoderWithValues | logger/zaputil/zaputil.go:26-34 | Returns a fresh clone whose fields are the input encoder's fields followed by KeyValueFields(kvs); the input encoder is not modified. |
| ZapUtil.KeyValueFieldsAppend | logger/zaputil/zaputil.go:28-32 | After an even-length prefix the pairing restarts, so fields of a + b are those of a followed by those of b (argument order is kept). |
| ZapUtil.KeyValueFieldsSnoc | logger/zaputil/zaputil.go:28-31 | One loop step: the next complete pair after an even-length prefix contributes its own field when its key is a string, and nothing otherwise. |
| ZapUtil.KeyValueFieldsAtExit | logger/zaputil/zaputil.go:28 | Where the loop stops (the first odd i with i >= len(kvs)), every complete pair has been seen. |
| ZapUtil.KeyValueFieldsTrailing | logger/zaputil/zaputil.go:28 | A trailing unpaired element is ignored. |
| ZapUtil.NonStringKeySkipped | logger/zaputil/zaputil.go:29-31 | A pair whose key is not a string is skipped, key and value alike, and pairing continues after it. |
| ZapUtil.KeyValueFieldsMembers | logger/zaputil/zaputil.go:28-31 | A field is added if and only if it is Field(k, v) for some pair at an even position whose key is the string k. |
| ZapUtil.AllStringKeys | logger/zaputil/zaputil.go:28-31 | With only string keys, exactly one field per complete pair is added, the j-th from the pair at positions 2j and 2j+1. |
| ZapUtil.DevelopmentEncoder.WithValues | logger/zaputil/zaputil.go:69-73 | Both console and JSON encoders are replaced by fresh clones with the same pairs added; the receiver's encoders keep their fields. |
| ZapUtil.ProductionEncoder.WithValues | logger/zaputil/zaputil.go:95-98 | Only the JSON encoder is replaced, by a fresh clone with the pairs added; the receiver's encoder keeps its fields. |

## Left out

- The psrpc substrate is not part of this model: `client.NewRPCClient`, `RequestSingle`, `server.NewRPCServer`, `RegisterHandler`, `DeregisterHandler`, `Close`, `RegistererSlice` and psrpc's option constructors. Its behaviour is the list of assumptions above, each the contract of a stub in `psrpc.dfy`.
- `WithClientLogger`, `WithServerLogger` and `PSRPCMetricsObserver` are this repository's own `rpc`-package helpers, whose files are not part of this model. The model treats each as one leaf option, named by the logger or observer it is given. `TypedApi.OptionsFlat` ("no bundle option") and the exact expansions of the bundles hold under that choice.
- Message transport, request and response payloads, request options, handler dispatch to the implementation's methods, and the `context.Context` arguments are not modelled. A call is reduced to its method name and topic key, and the context is an opaque value the formatter ignores.
- The retry, backoff and per-attempt timeout loop lives in psrpc middleware. The model only decides whether the retry option is passed and with which values.
- `Shutdown` and `Kill` close the substrate server: the model records the `force` flag and, by the stub's assumption, empties the handler set. Draining pending RPCs versus dropping them is concurrency inside psrpc and is not modelled.
- `rand.NewClientID` and `rand.NewServerID` are random and are taken as inputs (`clientID`, `serverID`).
- The gzipped file-descriptor byte blob at the end of the generated file is left out.
- The generated Signal, RoomManager, Room, AgentDispatch and Keepalive services are not part of this model. `NewKeepaliveClient` and `NewKeepaliveServer` are stubs that succeed or fail as the bus dictates.
- `NewTypedRoomClient` and `NewTypedAgentDispatchInternalClient` build their clients from `params.Args()`, as `NewTypedParticipantClient` does. They are left out because the generated Room and AgentDispatchInternal services are not part of this model. The bus and options they pass are the ones `TypedApi.Args` states.
- The server constructors `NewTypedRoomManagerServer`, `NewTypedRoomServer`, `NewTypedParticipantServer` and `NewTypedAgentDispatchInternalServer`, and the client constructor `NewTypedRoomManagerClient`, forward their arguments unchanged to generated constructors. Of those, only `NewParticipantServer` is part of this model.
- `NewClientParams` is the `ClientParams` datatype constructor, which keeps its four arguments as they are.
- In Redis, the following are outside the model:
  - `redis.NewUniversalClient`, how go-redis picks a client kind from the options, `Ping`, and the `errors.Wrap` of the connection error;
  - the logging calls;
  - the internals of `xtls.Config.ClientTLSConfig`, which is an abstract success or failure.
- Redis `int` is taken to be 64 bits wide. `PoolTimeout` and `PoolSize` are passed through unchanged.
- Redis.Millis: the exact value is proved only when no int64 overflow occurs. Beyond that the result is Go's two's-complement wrap-around, stated by its definition and not by a lemma.
- Go strings are byte sequences and `len` counts bytes; the model's strings are sequences of characters. The length, injectivity and collision lemmas about the topic keys still hold for bytes: `'_'` is a single byte, and that byte never occurs inside a multi-byte UTF-8 sequence.
- zap internals are outside the model: field serialisation, the value encoding of `zap.Any`, time and level encoders, `NewDevelopmentEncoder` and `NewProductionEncoder`, `Core` and `NewTee`. An encoder is the sequence of fields added to it, and a Go `any` value is either a string or something else.
