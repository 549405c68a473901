/**
 * The typed API over the psrpc bus: the call-option composition a client is
 * built with, the fixed server and client option bundles, the node-addressed
 * signal constructors, the topic-key formatters, and the two-step keepalive
 * publisher/subscriber construction.
 *
 * Durations are nanoseconds, as Go's time.Duration counts them.
 */
module TypedApi {
  import opened Wrappers
  import opened Psrpc
  import Participant

  /** time.Second, in nanoseconds. */
  const Second: int := 1_000_000_000

  /** The psrpc part of the server configuration; every field's zero value means "substrate default". */
  datatype PSRPCConfig = PSRPCConfig(maxAttempts: int, timeout: int, backoff: int, bufferSize: int)

  /** DefaultPSRPCConfig. */
  const DefaultPSRPCConfig: PSRPCConfig := PSRPCConfig(3, 3 * Second, 2 * Second, 1000)

  /** ClientParams; NewClientParams is this constructor, which keeps its four inputs as they are. */
  datatype ClientParams = ClientParams(config: PSRPCConfig, bus: MessageBus, logger: Option<Logger>, observer: Option<Observer>)

  /** Whether any of the three retry settings differs from zero. */
  predicate RetriesConfigured(c: PSRPCConfig) {
    c.maxAttempts != 0 || c.timeout != 0 || c.backoff != 0
  }

  // ------------------------------------------------------ option composition

  /** The options Options() produces, written as the concatenation of its four optional parts. */
  function OptionsOf(p: ClientParams): seq<CallOption> {
    (if p.config.bufferSize != 0 then [ClientChannelSize(p.config.bufferSize)] else [])
    + (if p.observer.Some? then [ClientMetrics(p.observer.value)] else [])
    + (if p.logger.Some? then [ClientLogger(p.logger)] else [])
    + (if RetriesConfigured(p.config)
       then [RPCRetries(p.config.maxAttempts, p.config.timeout, p.config.backoff)]
       else [])
  }

  /** ClientParams.Options: grows the list by conditional appends. */
  method Options(p: ClientParams) returns (opts: seq<CallOption>)
    ensures opts == OptionsOf(p)
  {
    opts := [];
    if p.config.bufferSize != 0 {
      opts := opts + [ClientChannelSize(p.config.bufferSize)];
    }
    if p.observer.Some? {
      opts := opts + [ClientMetrics(p.observer.value)];
    }
    if p.logger.Some? {
      opts := opts + [ClientLogger(p.logger)];
    }
    if p.config.maxAttempts != 0 || p.config.timeout != 0 || p.config.backoff != 0 {
      opts := opts + [RPCRetries(p.config.maxAttempts, p.config.timeout, p.config.backoff)];
    }
  }

  /** The position of an option kind in the order Options() appends them; 4 for every other kind. */
  function Slot(o: CallOption): nat {
    match o
    case ClientChannelSize(_) => 0
    case ClientMetrics(_) => 1
    case ClientLogger(_) => 2
    case RPCRetries(_, _, _) => 3
    case _ => 4
  }

  /** All-default parameters, and only they, give the empty list. */
  lemma OptionsEmptyIffDefault(p: ClientParams)
    ensures OptionsOf(p) == [] <==>
      && p.config.bufferSize == 0 && p.config.maxAttempts == 0 && p.config.timeout == 0 && p.config.backoff == 0
      && p.logger.None? && p.observer.None?
  {
    if OptionsOf(p) == [] {
      assert |OptionsOf(p)| == 0;
    }
  }

  /** At most four options, each of a different kind, always in the order channel size, metrics, logger, retries. */
  lemma OptionsOrdered(p: ClientParams)
    ensures |OptionsOf(p)| <= 4
    ensures forall i :: 0 <= i < |OptionsOf(p)| ==> Slot(OptionsOf(p)[i]) < 4
    ensures forall i, j :: 0 <= i < j < |OptionsOf(p)| ==> Slot(OptionsOf(p)[i]) < Slot(OptionsOf(p)[j])
  {
  }

  /** A channel-size option is present iff BufferSize is not zero, and it carries exactly BufferSize. */
  lemma ChannelSizeIff(p: ClientParams)
    ensures (exists i :: 0 <= i < |OptionsOf(p)| && OptionsOf(p)[i].ClientChannelSize?) <==> p.config.bufferSize != 0
    ensures forall i :: 0 <= i < |OptionsOf(p)| && OptionsOf(p)[i].ClientChannelSize? ==>
      OptionsOf(p)[i] == ClientChannelSize(p.config.bufferSize)
  {
    if p.config.bufferSize != 0 {
      assert OptionsOf(p)[0].ClientChannelSize?;
    }
  }

  /** A metrics option is present iff an observer is given; a logger option iff a logger is; each carries what was given. */
  lemma ObservabilityIff(p: ClientParams)
    ensures (exists i :: 0 <= i < |OptionsOf(p)| && OptionsOf(p)[i].ClientMetrics?) <==> p.observer.Some?
    ensures (exists i :: 0 <= i < |OptionsOf(p)| && OptionsOf(p)[i].ClientLogger?) <==> p.logger.Some?
    ensures forall i :: 0 <= i < |OptionsOf(p)| && OptionsOf(p)[i].ClientMetrics? ==>
      p.observer.Some? && OptionsOf(p)[i].observer == p.observer.value
    ensures forall i :: 0 <= i < |OptionsOf(p)| && OptionsOf(p)[i].ClientLogger? ==>
      OptionsOf(p)[i].logger == p.logger
  {
    var a := if p.config.bufferSize != 0 then 1 else 0;
    if p.observer.Some? {
      assert OptionsOf(p)[a].ClientMetrics?;
    }
    if p.logger.Some? {
      assert OptionsOf(p)[a + if p.observer.Some? then 1 else 0].ClientLogger?;
    }
  }

  /**
   * A retry option is present iff at least one of MaxAttempts, Timeout and
   * Backoff is not zero; it carries all three verbatim, zero ones included.
   */
  lemma RetriesIff(p: ClientParams)
    ensures (exists i :: 0 <= i < |OptionsOf(p)| && OptionsOf(p)[i].RPCRetries?) <==> RetriesConfigured(p.config)
    ensures forall i :: 0 <= i < |OptionsOf(p)| && OptionsOf(p)[i].RPCRetries? ==>
      OptionsOf(p)[i] == RPCRetries(p.config.maxAttempts, p.config.timeout, p.config.backoff)
  {
    if RetriesConfigured(p.config) {
      assert OptionsOf(p)[|OptionsOf(p)| - 1].RPCRetries?;
    }
  }

  /** The default configuration without logger or observer asks for a 1000-slot channel and three attempts, 3s each, 2s apart. */
  lemma DefaultConfigOptions(bus: MessageBus)
    ensures OptionsOf(ClientParams(DefaultPSRPCConfig, bus, None, None)) ==
      [ClientChannelSize(1000), RPCRetries(3, 3_000_000_000, 2_000_000_000)]
  {
  }

  /** The options Options() returns contain no bundle. */
  lemma OptionsFlat(p: ClientParams)
    ensures forall o :: o in OptionsOf(p) ==> !IsGroup(o)
  {
  }

  /** ClientParams.Args: the bus, and Options() bundled into one option that stands for exactly that list. */
  function Args(p: ClientParams): (r: (MessageBus, CallOption))
    ensures r.0 == p.bus && r.1.ClientOptions?
    ensures Flatten([r.1]) == OptionsOf(p)
  {
    OptionsFlat(p);
    FlattenOfFlat(OptionsOf(p));
    (p.bus, ClientOptions(OptionsOf(p)))
  }

  /** WithServerObservability: the repository's metrics observer, then the given logger (nil included). */
  function WithServerObservability(logger: Option<Logger>): (o: CallOption)
    ensures o.ServerOptions?
    ensures Flatten([o]) == [ServerMetrics(PSRPCMetricsObserver), ServerLogger(logger)]
  {
    var o := ServerOptions([ServerMetrics(PSRPCMetricsObserver), ServerLogger(logger)]);
    FlattenBundle(o);
    FlattenOfFlat(o.group);
    o
  }

  /**
   * WithDefaultServerOptions: a channel-size option with BufferSize, present
   * even when BufferSize is zero, then metrics, then the logger.
   */
  function WithDefaultServerOptions(config: PSRPCConfig, logger: Option<Logger>): (o: CallOption)
    ensures o.ServerOptions?
    ensures Flatten([o]) == [ServerChannelSize(config.bufferSize), ServerMetrics(PSRPCMetricsObserver), ServerLogger(logger)]
  {
    ServerOptions([ServerChannelSize(config.bufferSize), WithServerObservability(logger)])
  }

  /** WithClientObservability: the repository's metrics observer, then the given logger. */
  function WithClientObservability(logger: Option<Logger>): (o: CallOption)
    ensures o.ClientOptions?
    ensures Flatten([o]) == [ClientMetrics(PSRPCMetricsObserver), ClientLogger(logger)]
  {
    var o := ClientOptions([ClientMetrics(PSRPCMetricsObserver), ClientLogger(logger)]);
    FlattenBundle(o);
    FlattenOfFlat(o.group);
    o
  }

  /**
   * With a zero BufferSize the two compositions part ways: Options() leaves
   * the channel size out, the default server bundle still sets it, to zero.
   */
  lemma DefaultServerOptionsAlwaysSized(p: ClientParams, logger: Option<Logger>)
    requires p.config.bufferSize == 0
    ensures forall o :: o in OptionsOf(p) ==> !o.ClientChannelSize?
    ensures ServerChannelSize(0) in Flatten([WithDefaultServerOptions(p.config, logger)])
  {
    assert Flatten([WithDefaultServerOptions(p.config, logger)])[0] == ServerChannelSize(0);
  }

  // ----------------------------------------------------- typed constructors

  /** What a generated client constructor receives. */
  datatype ClientConstruction = ClientConstruction(bus: MessageBus, options: seq<CallOption>)

  /** What a generated server constructor receives. */
  datatype ServerConstruction = ServerConstruction(svc: Option<Impl>, bus: MessageBus, options: seq<CallOption>)

  lemma {:induction false} LastIdOfSnoc(flat: seq<CallOption>, o: CallOption, server: bool)
    requires IsIdOption(o, server)
    ensures LastId(flat + [o], server) == Some(o.id)
  {
    assert (flat + [o])[|flat + [o]| - 1] == o;
  }

  /**
   * NewTypedSignalClient: the caller's options bundled, then the ID option
   * set from nodeID; under psrpc's later-wins rule the node ID is the
   * client's identity whatever the caller passed.
   */
  function NewTypedSignalClient(nodeID: string, bus: MessageBus, opts: seq<CallOption>): (r: ClientConstruction)
    ensures r.bus == bus
    ensures Flatten(r.options) == Flatten(opts) + [ClientID(nodeID)]
    ensures EffectiveId(r.options, false) == Some(nodeID)
  {
    var options := [ClientOptions(opts), ClientID(nodeID)];
    FlattenAppend([ClientOptions(opts)], [ClientID(nodeID)]);
    assert [ClientOptions(opts)] + [ClientID(nodeID)] == options;
    assert Flatten([ClientOptions(opts)]) == Flatten(opts) + Flatten([]);
    LastIdOfSnoc(Flatten(opts), ClientID(nodeID), false);
    ClientConstruction(bus, options)
  }

  /** NewTypedSignalServer: the same for a server, with the ID option last. */
  function NewTypedSignalServer(nodeID: string, svc: Option<Impl>, bus: MessageBus, opts: seq<CallOption>): (r: ServerConstruction)
    ensures r.svc == svc && r.bus == bus
    ensures Flatten(r.options) == Flatten(opts) + [ServerID(nodeID)]
    ensures EffectiveId(r.options, true) == Some(nodeID)
  {
    var options := [ServerOptions(opts), ServerID(nodeID)];
    FlattenAppend([ServerOptions(opts)], [ServerID(nodeID)]);
    assert [ServerOptions(opts)] + [ServerID(nodeID)] == options;
    assert Flatten([ServerOptions(opts)]) == Flatten(opts) + Flatten([]);
    LastIdOfSnoc(Flatten(opts), ServerID(nodeID), true);
    ServerConstruction(svc, bus, options)
  }

  /** NewTypedParticipantClient: the Participant client built from Args(). */
  method NewTypedParticipantClient(params: ClientParams, clientID: string)
    returns (r: Result<Participant.ParticipantClient, Error>)
    modifies params.bus`log
    ensures r.Failure? <==> params.bus.clientFailure.Some?
    ensures r.Failure? ==> r.error == params.bus.clientFailure.value && params.bus.log == old(params.bus.log)
    ensures r.Success? ==>
      && params.bus.log == old(params.bus.log) + [ClientOpened(Participant.ServiceName, [Args(params).1])]
      && r.value.client.sd.name == Participant.ServiceName
      && fresh(r.value) && r.value.client.bus == params.bus
      && r.value.client.options == [Args(params).1]
      && Flatten(r.value.client.options) == OptionsOf(params)
      && r.value.client.sd.methods == Participant.DescriptorTable()
  {
    var (bus, opt) := Args(params);
    r := Participant.NewParticipantClient(bus, clientID, [opt]);
  }

  // ------------------------------------------------------------ topic keys

  /** FormatParticipantTopic: room name, an underscore, the identity. */
  function FormatParticipantTopic(roomName: string, identity: string): (t: string)
    ensures |t| == |roomName| + |identity| + 1
    ensures t[..|roomName|] == roomName && t[|roomName|] == '_' && t[|roomName| + 1..] == identity
  {
    roomName + "_" + identity
  }

  /** FormatRoomTopic: the room name itself. */
  function FormatRoomTopic(roomName: string): (t: string)
    ensures t == roomName
  {
    roomName
  }

  /** With underscore-free room names, distinct (room, identity) pairs give distinct participant keys. */
  lemma ParticipantTopicInjectiveOnRooms(r1: string, i1: string, r2: string, i2: string)
    requires '_' !in r1 && '_' !in r2
    requires FormatParticipantTopic(r1, i1) == FormatParticipantTopic(r2, i2)
    ensures r1 == r2 && i1 == i2
  {
    var t := FormatParticipantTopic(r1, i1);
    // the key's first underscore sits right after the room name
    assert forall k :: 0 <= k < |r1| ==> t[k] == r1[k] != '_';
    assert forall k :: 0 <= k < |r2| ==> t[k] == r2[k] != '_';
    assert t[|r1|] == '_' && t[|r2|] == '_';
    assert |r1| == |r2|;
  }

  /** With underscore-free identities, distinct pairs give distinct participant keys too. */
  lemma ParticipantTopicInjectiveOnIdentities(r1: string, i1: string, r2: string, i2: string)
    requires '_' !in i1 && '_' !in i2
    requires FormatParticipantTopic(r1, i1) == FormatParticipantTopic(r2, i2)
    ensures r1 == r2 && i1 == i2
  {
    var t := FormatParticipantTopic(r1, i1);
    // the key's last underscore sits right before the identity
    assert forall k :: |r1| < k < |t| ==> t[k] == i1[k - |r1| - 1] != '_';
    assert forall k :: |r2| < k < |t| ==> t[k] == i2[k - |r2| - 1] != '_';
    assert t[|r1|] == '_' && t[|r2|] == '_';
    assert |r1| == |r2|;
  }

  /** In general the key is not injective: moving an underscore across the separator gives the same key. */
  lemma ParticipantTopicCollides(r: string, x: string, i: string)
    ensures FormatParticipantTopic(r + "_" + x, i) == FormatParticipantTopic(r, x + "_" + i)
    ensures FormatParticipantTopic("a_b", "c") == FormatParticipantTopic("a", "b_c")
  {
    assert (r + "_" + x) + "_" + i == r + "_" + (x + "_" + i);
    assert "a_b" == "a" + "_" + "b";
  }

  /** A context.Context, opaque here. */
  datatype Context = Context(contextId: nat)

  /** topicFormatter; NewTopicFormatter is this constructor. */
  datatype TopicFormatter = TopicFormatter {
    /** The participant key: room name, an underscore, the identity, whatever the context. */
    function ParticipantTopic(ctx: Context, roomName: string, identity: string): (t: string)
      ensures |t| == |roomName| + |identity| + 1
      ensures t[..|roomName|] == roomName && t[|roomName|] == '_' && t[|roomName| + 1..] == identity
    {
      FormatParticipantTopic(roomName, identity)
    }

    /** The room key: the room name, whatever the context. */
    function RoomTopic(ctx: Context, roomName: string): (t: string)
      ensures t == roomName
    {
      FormatRoomTopic(roomName)
    }
  }

  /** The formatter's methods ignore the context and return exactly the free functions' results. */
  lemma TopicFormatterAgrees(f: TopicFormatter, c1: Context, c2: Context, roomName: string, identity: string)
    ensures f.ParticipantTopic(c1, roomName, identity) == f.ParticipantTopic(c2, roomName, identity)
    ensures f.ParticipantTopic(c1, roomName, identity) == FormatParticipantTopic(roomName, identity)
    ensures f.RoomTopic(c1, roomName) == f.RoomTopic(c2, roomName) == roomName
  {
  }

  // ------------------------------------------------------------- keepalive

  const KeepaliveService: string := "Keepalive"

  /** The generated keepalive client: its substrate client. */
  class KeepaliveClient {
    const client: RPCClient

    constructor (client: RPCClient)
      ensures this.client == client
    {
      this.client := client;
    }
  }

  /** The generated keepalive server: its implementation and substrate server. */
  class KeepaliveServer {
    const svc: Option<Impl>
    const rpc: RPCServer

    constructor (svc: Option<Impl>, rpc: RPCServer)
      ensures this.svc == svc && this.rpc == rpc
    {
      this.svc := svc;
      this.rpc := rpc;
    }
  }

  /**
   * The generated NewKeepaliveClient, which is not part of this model, as a
   * stub: it builds a substrate client for the Keepalive service and fails
   * exactly when that does.
   */
  method NewKeepaliveClient(bus: MessageBus, clientID: string, opts: seq<CallOption>) returns (r: Result<KeepaliveClient, Error>)
    modifies bus`log
    ensures bus.clientFailure.Some? ==> r == Failure(bus.clientFailure.value) && bus.log == old(bus.log)
    ensures bus.clientFailure.None? ==>
      && r.Success? && fresh(r.value) && fresh(r.value.client)
      && r.value.client.bus == bus && r.value.client.options == opts
      && bus.log == old(bus.log) + [ClientOpened(KeepaliveService, opts)]
  {
    var sd := new ServiceDefinition(KeepaliveService, clientID);
    var c := NewRPCClient(sd, bus, opts);
    if c.Failure? {
      return Failure(c.error);
    }
    var k := new KeepaliveClient(c.value);
    return Success(k);
  }

  /**
   * The generated NewKeepaliveServer, which is not part of this model, as a
   * stub: it reports the bus's server failure, if any, and opens nothing
   * then; otherwise it builds a substrate server.
   */
  method NewKeepaliveServer(svc: Option<Impl>, bus: MessageBus, serverID: string, opts: seq<CallOption>)
    returns (r: Result<KeepaliveServer, Error>)
    modifies bus`log
    ensures bus.serverFailure.Some? ==> r == Failure(bus.serverFailure.value) && bus.log == old(bus.log)
    ensures bus.serverFailure.None? ==>
      && r.Success? && fresh(r.value) && fresh(r.value.rpc)
      && r.value.svc == svc && r.value.rpc.bus == bus && r.value.rpc.options == opts
      && bus.log == old(bus.log) + [ServerOpened(KeepaliveService, opts)]
  {
    if bus.serverFailure.Some? {
      return Failure(bus.serverFailure.value);
    }
    var sd := new ServiceDefinition(KeepaliveService, serverID);
    var s := NewRPCServer(sd, bus, opts);
    var k := new KeepaliveServer(svc, s);
    return Success(k);
  }

  /** The keepalive publisher/subscriber: one client and one server on the same bus. */
  datatype KeepalivePubSub = KeepalivePubSub(client: KeepaliveClient, server: KeepaliveServer)

  /** How NewKeepalivePubSub ends: a handle, a returned error, or a panic raised by must.Get. */
  datatype KeepaliveOutcome = Built(pubsub: KeepalivePubSub) | Failed(err: Error) | Panicked(reason: Error)

  /** How one logged event changes the number of open substrate clients. */
  function ClientDelta(e: Event): int {
    match e
    case ClientOpened(_, _) => 1
    case ClientClosed(_) => -1
    case _ => 0
  }

  /** The number of substrate clients opened and not yet closed according to a bus log. */
  function OpenClients(log: seq<Event>): int {
    if log == [] then 0 else OpenClients(log[..|log| - 1]) + ClientDelta(log[|log| - 1])
  }

  /**
   * NewKeepalivePubSub: the client from Args() first; if that fails its error
   * is returned and no server is built. Otherwise the server is built with a
   * nil implementation, on the bus alone, without options; if that fails,
   * must.Get panics and the client already opened stays open.
   */
  method NewKeepalivePubSub(params: ClientParams, clientID: string, serverID: string) returns (r: KeepaliveOutcome)
    modifies params.bus`log
    ensures params.bus.clientFailure.Some? ==>
      r == Failed(params.bus.clientFailure.value) && params.bus.log == old(params.bus.log)
    ensures params.bus.clientFailure.None? && params.bus.serverFailure.Some? ==>
      && r == Panicked(params.bus.serverFailure.value)
      && params.bus.log == old(params.bus.log) + [ClientOpened(KeepaliveService, [Args(params).1])]
      && OpenClients(params.bus.log) == OpenClients(old(params.bus.log)) + 1
    ensures params.bus.clientFailure.None? && params.bus.serverFailure.None? ==>
      && r.Built? && fresh(r.pubsub.client) && fresh(r.pubsub.server)
      && r.pubsub.client.client.bus == params.bus && r.pubsub.client.client.options == [Args(params).1]
      && r.pubsub.server.svc == None && r.pubsub.server.rpc.bus == params.bus && r.pubsub.server.rpc.options == []
      && params.bus.log == old(params.bus.log)
        + [ClientOpened(KeepaliveService, [Args(params).1]), ServerOpened(KeepaliveService, [])]
  {
    var (bus, opt) := Args(params);
    var client := NewKeepaliveClient(bus, clientID, [opt]);
    if client.Failure? {
      return Failed(client.error);
    }
    var server := NewKeepaliveServer(None, params.bus, serverID, []);
    if server.Failure? {
      return Panicked(server.error);
    }
    return Built(KeepalivePubSub(client.value, server.value));
  }
}
