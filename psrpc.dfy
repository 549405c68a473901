/**
 * The psrpc bus substrate, as far as this repository relies on it.
 *
 * psrpc's own code is not part of this model. Everything in this module is a
 * stub: its contract is a stated ASSUMPTION about psrpc (how options are
 * applied, what a client or server construction records, how the handler
 * table of a server changes), not a fact derived from the modelled sources.
 * The bus carries the failures it is configured to report (for client
 * construction, server construction and single registrations) and a log of
 * the clients and servers opened and closed on it.
 */
module Psrpc {
  import opened Wrappers

  /** A routing key: the ordered list of strings a request is addressed to. */
  type Topic = seq<string>

  /** A metrics observer: the repository's own PSRPCMetricsObserver or one supplied by a caller. */
  datatype Observer = PSRPCMetricsObserver | CustomObserver(observerId: nat)

  /** A non-nil structured logger, known only by its identity. */
  datatype Logger = Logger(loggerId: nat)

  /** A non-nil service implementation object, known only by its identity. */
  datatype Impl = Impl(implId: nat)

  /**
   * The option constructors this repository calls. The client and server
   * flavours of one psrpc constructor are distinct constructors here, exactly
   * as WithClientChannelSize and WithServerChannelSize are distinct in psrpc.
   * ClientOptions/ServerOptions stand for WithClientOptions/WithServerOptions,
   * which bundle a list of options into one.
   */
  datatype CallOption =
    | ClientChannelSize(size: int)
    | ServerChannelSize(size: int)
    | ClientMetrics(observer: Observer)
    | ServerMetrics(observer: Observer)
    | ClientLogger(logger: Option<Logger>)
    | ServerLogger(logger: Option<Logger>)
    | RPCRetries(maxAttempts: int, timeout: int, backoff: int)
    | ClientID(id: string)
    | ServerID(id: string)
    | ClientOptions(group: seq<CallOption>)
    | ServerOptions(group: seq<CallOption>)

  predicate IsGroup(o: CallOption) {
    o.ClientOptions? || o.ServerOptions?
  }

  /**
   * The options a list stands for once every bundle is expanded in place.
   * Assumption: psrpc applies a bundle by applying its members, in order,
   * at the bundle's position, and later options override earlier ones.
   */
  function Flatten(opts: seq<CallOption>): (r: seq<CallOption>)
    ensures forall o :: o in r ==> !IsGroup(o)
  {
    if opts == [] then []
    else (if IsGroup(opts[0]) then Flatten(opts[0].group) else [opts[0]]) + Flatten(opts[1..])
  }

  /** Expanding the bundles of a concatenation expands each part on its own. */
  lemma {:induction false} FlattenAppend(a: seq<CallOption>, b: seq<CallOption>)
    ensures Flatten(a + b) == Flatten(a) + Flatten(b)
  {
    if a == [] {
      assert a + b == b;
    } else {
      assert (a + b)[0] == a[0];
      assert (a + b)[1..] == a[1..] + b;
      FlattenAppend(a[1..], b);
    }
  }

  /** A list without bundles is its own expansion. */
  lemma {:induction false} FlattenOfFlat(opts: seq<CallOption>)
    requires forall o :: o in opts ==> !IsGroup(o)
    ensures Flatten(opts) == opts
  {
    if opts != [] {
      assert opts[0] in opts;
      FlattenOfFlat(opts[1..]);
      assert [opts[0]] + opts[1..] == opts;
    }
  }

  /** A single bundle stands for its members. */
  lemma FlattenBundle(o: CallOption)
    requires IsGroup(o)
    ensures Flatten([o]) == Flatten(o.group)
  {
    assert [o][1..] == [];
  }

  /** The identity option of one side: ClientID for a client, ServerID for a server. */
  predicate IsIdOption(o: CallOption, server: bool) {
    if server then o.ServerID? else o.ClientID?
  }

  /** The identity that the last identity option of an expanded list sets, if any. */
  function LastId(flat: seq<CallOption>, server: bool): (r: Option<string>)
    ensures r.Some? ==> exists o :: o in flat && IsIdOption(o, server) && o.id == r.value
    ensures r.None? ==> forall o :: o in flat ==> !IsIdOption(o, server)
  {
    if flat == [] then None
    else if IsIdOption(flat[|flat| - 1], server) then Some(flat[|flat| - 1].id)
    else
      assert forall o :: o in flat[..|flat| - 1] ==> o in flat;
      assert flat == flat[..|flat| - 1] + [flat[|flat| - 1]];
      LastId(flat[..|flat| - 1], server)
  }

  /** The identity a handle built with these options ends up with (under the override assumption). */
  function EffectiveId(opts: seq<CallOption>, server: bool): Option<string> {
    LastId(Flatten(opts), server)
  }

  /** One entry of a service's method table, with the four flags psrpc's RegisterMethod takes. */
  datatype MethodInfo = MethodInfo(name: string, affinityEnabled: bool, multi: bool, requireClaim: bool, queue: bool)

  /** psrpc's info.ServiceDefinition: a name, an instance id and a method table that grows by RegisterMethod. */
  class ServiceDefinition {
    const name: string
    const id: string
    var methods: seq<MethodInfo>

    constructor (name: string, id: string)
      ensures this.name == name && this.id == id && methods == []
    {
      this.name := name;
      this.id := id;
      methods := [];
    }

    method RegisterMethod(name: string, affinityEnabled: bool, multi: bool, requireClaim: bool, queue: bool)
      modifies this`methods
      ensures methods == old(methods) + [MethodInfo(name, affinityEnabled, multi, requireClaim, queue)]
    {
      methods := methods + [MethodInfo(name, affinityEnabled, multi, requireClaim, queue)];
    }
  }

  /** A subscription: a handler for one method under one topic key. */
  datatype Registration = Registration(rpc: string, topic: Topic)

  /** A request as a client sends it: the method name and the topic key. */
  datatype Request = Request(rpc: string, topic: Topic)

  /** Assumption: the substrate delivers a request to the handler subscribed under the same method and key. */
  predicate Routes(req: Request, handlers: set<Registration>) {
    Registration(req.rpc, req.topic) in handlers
  }

  /** The events the bus log records: each client or server opened or closed on it. */
  datatype Event =
    | ClientOpened(service: string, options: seq<CallOption>)
    | ClientClosed(service: string)
    | ServerOpened(service: string, options: seq<CallOption>)
    | ServerClosed(service: string, force: bool)

  /**
   * A message bus together with the outcomes it will produce: the error (if
   * any) a client construction on it reports, the error (if any) a generated
   * constructor that can fail reports for a server, and the registrations it
   * refuses with the error it returns for each.
   */
  class MessageBus {
    const clientFailure: Option<Error>
    const serverFailure: Option<Error>
    const refused: map<Registration, Error>
    var log: seq<Event>

    constructor (clientFailure: Option<Error>, serverFailure: Option<Error>, refused: map<Registration, Error>)
      ensures this.clientFailure == clientFailure && this.serverFailure == serverFailure
      ensures this.refused == refused && log == []
    {
      this.clientFailure := clientFailure;
      this.serverFailure := serverFailure;
      this.refused := refused;
      log := [];
    }
  }

  /** psrpc's client.RPCClient. */
  class RPCClient {
    const sd: ServiceDefinition
    const bus: MessageBus
    const options: seq<CallOption>
    var closed: bool

    constructor (sd: ServiceDefinition, bus: MessageBus, options: seq<CallOption>)
      ensures this.sd == sd && this.bus == bus && this.options == options && !closed
    {
      this.sd := sd;
      this.bus := bus;
      this.options := options;
      closed := false;
    }

    /** Closes immediately, without waiting for pending calls. */
    method Close()
      modifies this`closed, bus`log
      ensures closed
      ensures bus.log == old(bus.log) + [ClientClosed(sd.name)]
    {
      closed := true;
      bus.log := bus.log + [ClientClosed(sd.name)];
    }
  }

  /** psrpc's client.NewRPCClient: fails exactly when the bus reports a client failure. */
  method NewRPCClient(sd: ServiceDefinition, bus: MessageBus, opts: seq<CallOption>) returns (r: Result<RPCClient, Error>)
    modifies bus`log
    ensures bus.clientFailure.Some? ==> r == Failure(bus.clientFailure.value) && bus.log == old(bus.log)
    ensures bus.clientFailure.None? ==>
      && r.Success? && fresh(r.value)
      && r.value.sd == sd && r.value.bus == bus && r.value.options == opts && !r.value.closed
      && bus.log == old(bus.log) + [ClientOpened(sd.name, opts)]
  {
    if bus.clientFailure.Some? {
      return Failure(bus.clientFailure.value);
    }
    var c := new RPCClient(sd, bus, opts);
    bus.log := bus.log + [ClientOpened(sd.name, opts)];
    return Success(c);
  }

  /**
   * A (register, deregister) pair of a bulk registerer, given by the method
   * name each of its two functions subscribes or unsubscribes.
   */
  datatype Registerer = Registerer(register: string, deregister: string)

  /** The subscriptions the register functions of a list make for one key. */
  function RegisterSet(regs: seq<Registerer>, topic: Topic): set<Registration> {
    set r | r in regs :: Registration(r.register, topic)
  }

  /** The subscriptions the deregister functions of a list remove for one key. */
  function DeregisterSet(regs: seq<Registerer>, topic: Topic): set<Registration> {
    set r | r in regs :: Registration(r.deregister, topic)
  }

  lemma RegisterSetSnoc(regs: seq<Registerer>, i: nat, topic: Topic)
    requires i < |regs|
    ensures RegisterSet(regs[..i + 1], topic) == RegisterSet(regs[..i], topic) + {Registration(regs[i].register, topic)}
  {
    assert regs[..i + 1] == regs[..i] + [regs[i]];
  }

  lemma DeregisterSetCons(regs: seq<Registerer>, j: nat, i: nat, topic: Topic)
    requires 0 < j <= i <= |regs|
    ensures DeregisterSet(regs[j - 1..i], topic) == DeregisterSet(regs[j..i], topic) + {Registration(regs[j - 1].deregister, topic)}
  {
    assert regs[j - 1..i] == [regs[j - 1]] + regs[j..i];
  }

  /** The position of the first registerer whose subscription the bus refuses, or |regs| if none is. */
  function FirstRefused(regs: seq<Registerer>, topic: Topic, refused: map<Registration, Error>): (k: nat)
    ensures k <= |regs|
    ensures forall j :: 0 <= j < k ==> Registration(regs[j].register, topic) !in refused
    ensures k < |regs| ==> Registration(regs[k].register, topic) in refused
  {
    if regs == [] then 0
    else if Registration(regs[0].register, topic) in refused then 0
    else 1 + FirstRefused(regs[1..], topic, refused)
  }

  /** psrpc's server.RPCServer: its handler table and whether (and how) it was closed. */
  class RPCServer {
    const sd: ServiceDefinition
    const bus: MessageBus
    const options: seq<CallOption>
    var handlers: set<Registration>
    var closedWith: Option<bool>

    constructor (sd: ServiceDefinition, bus: MessageBus, options: seq<CallOption>)
      ensures this.sd == sd && this.bus == bus && this.options == options
      ensures handlers == {} && closedWith == None
    {
      this.sd := sd;
      this.bus := bus;
      this.options := options;
      handlers := {};
      closedWith := None;
    }

    /** server.RegisterHandler: subscribes, or returns the bus's error and changes nothing. */
    method RegisterHandler(rpc: string, topic: Topic) returns (err: Option<Error>)
      modifies this`handlers
      ensures Registration(rpc, topic) in bus.refused ==>
        err == Some(bus.refused[Registration(rpc, topic)]) && handlers == old(handlers)
      ensures Registration(rpc, topic) !in bus.refused ==>
        err == None && handlers == old(handlers) + {Registration(rpc, topic)}
    {
      var reg := Registration(rpc, topic);
      if reg in bus.refused {
        return Some(bus.refused[reg]);
      }
      handlers := handlers + {reg};
      return None;
    }

    /** DeregisterHandler: unsubscribes; it reports nothing. */
    method DeregisterHandler(rpc: string, topic: Topic)
      modifies this`handlers
      ensures handlers == old(handlers) - {Registration(rpc, topic)}
    {
      handlers := handlers - {Registration(rpc, topic)};
    }

    /**
     * Close(force): force = false waits for pending calls, force = true does
     * not (the waiting itself is not modelled). Assumption: closing drops
     * every subscription.
     */
    method Close(force: bool)
      modifies this`handlers, this`closedWith, bus`log
      ensures closedWith == Some(force) && handlers == {}
      ensures bus.log == old(bus.log) + [ServerClosed(sd.name, force)]
    {
      handlers := {};
      closedWith := Some(force);
      bus.log := bus.log + [ServerClosed(sd.name, force)];
    }
  }

  /** psrpc's server.NewRPCServer: it cannot fail. */
  method NewRPCServer(sd: ServiceDefinition, bus: MessageBus, opts: seq<CallOption>) returns (s: RPCServer)
    modifies bus`log
    ensures fresh(s) && s.sd == sd && s.bus == bus && s.options == opts
    ensures s.handlers == {} && s.closedWith == None
    ensures bus.log == old(bus.log) + [ServerOpened(sd.name, opts)]
  {
    s := new RPCServer(sd, bus, opts);
    bus.log := bus.log + [ServerOpened(sd.name, opts)];
  }

  /**
   * RegistererSlice.Register, ASSUMED behaviour: the register functions run
   * in list order; at the first failure the deregister functions of the
   * entries already registered run in reverse order, and the original error
   * is returned.
   */
  method RegisterSlice(s: RPCServer, regs: seq<Registerer>, topic: Topic) returns (err: Option<Error>)
    modifies s`handlers
    ensures var k := FirstRefused(regs, topic, s.bus.refused);
      if k == |regs| then
        err == None && s.handlers == old(s.handlers) + RegisterSet(regs, topic)
      else
        && err == Some(s.bus.refused[Registration(regs[k].register, topic)])
        && s.handlers == (old(s.handlers) + RegisterSet(regs[..k], topic)) - DeregisterSet(regs[..k], topic)
  {
    var i := 0;
    while i < |regs|
      invariant 0 <= i <= |regs|
      invariant forall j :: 0 <= j < i ==> Registration(regs[j].register, topic) !in s.bus.refused
      invariant s.handlers == old(s.handlers) + RegisterSet(regs[..i], topic)
    {
      RegisterSetSnoc(regs, i, topic);
      var e := s.RegisterHandler(regs[i].register, topic);
      if e.Some? {
        ghost var registered := s.handlers;
        var j := i;
        while j > 0
          invariant 0 <= j <= i
          invariant s.handlers == registered - DeregisterSet(regs[j..i], topic)
        {
          DeregisterSetCons(regs, j, i, topic);
          j := j - 1;
          s.DeregisterHandler(regs[j].deregister, topic);
        }
        assert regs[0..i] == regs[..i];
        FirstRefusedAt(regs, topic, s.bus.refused, i);
        return e;
      }
      i := i + 1;
    }
    assert regs[..i] == regs;
    FirstRefusedAt(regs, topic, s.bus.refused, i);
    return None;
  }

  /** FirstRefused is pinned down by its characterisation. */
  lemma {:induction false} FirstRefusedAt(regs: seq<Registerer>, topic: Topic, refused: map<Registration, Error>, i: nat)
    requires i <= |regs|
    requires forall j :: 0 <= j < i ==> Registration(regs[j].register, topic) !in refused
    requires i < |regs| ==> Registration(regs[i].register, topic) in refused
    ensures FirstRefused(regs, topic, refused) == i
  {
    if i > 0 {
      assert Registration(regs[0].register, topic) !in refused;
      assert forall j :: 0 <= j < i - 1 ==> regs[1..][j] == regs[j + 1];
      FirstRefusedAt(regs[1..], topic, refused, i - 1);
    }
  }

  /** RegistererSlice.Deregister: every deregister function runs, whatever the others did. */
  method DeregisterSlice(s: RPCServer, regs: seq<Registerer>, topic: Topic)
    modifies s`handlers
    ensures s.handlers == old(s.handlers) - DeregisterSet(regs, topic)
  {
    var i := 0;
    while i < |regs|
      invariant 0 <= i <= |regs|
      invariant s.handlers == old(s.handlers) - DeregisterSet(regs[..i], topic)
    {
      assert regs[..i + 1] == regs[..i] + [regs[i]];
      s.DeregisterHandler(regs[i].deregister, topic);
      i := i + 1;
    }
    assert regs[..i] == regs;
  }
}
