/**
 * The generated Participant service: one five-method table that the client
 * and the server each build, the client call wrappers, the per-method
 * register/deregister pairs, the bulk registerer list built from them, and
 * the two ways of closing a server.
 *
 * The five generated Register<M>Topic/Deregister<M>Topic methods and the five
 * client wrappers are written once here, over a datatype naming the method.
 */
module Participant {
  import opened Wrappers
  import opened Psrpc

  const ServiceName: string := "Participant"

  /** The five methods of the Participant service. */
  datatype Method =
    | RemoveParticipant
    | MutePublishedTrack
    | UpdateParticipant
    | UpdateSubscriptions
    | ForwardParticipant

  /** The wire name of a method: its own name. */
  function Name(m: Method): string {
    match m
    case RemoveParticipant => "RemoveParticipant"
    case MutePublishedTrack => "MutePublishedTrack"
    case UpdateParticipant => "UpdateParticipant"
    case UpdateSubscriptions => "UpdateSubscriptions"
    case ForwardParticipant => "ForwardParticipant"
  }

  /** The methods in declaration order. */
  const Methods: seq<Method> :=
    [RemoveParticipant, MutePublishedTrack, UpdateParticipant, UpdateSubscriptions, ForwardParticipant]

  /** The method table, entry by entry as the generated RegisterMethod calls write it. */
  function DescriptorTable(): seq<MethodInfo> {
    [ MethodInfo("RemoveParticipant", false, false, true, true),
      MethodInfo("MutePublishedTrack", false, false, true, true),
      MethodInfo("UpdateParticipant", false, false, true, true),
      MethodInfo("UpdateSubscriptions", false, false, true, true),
      MethodInfo("ForwardParticipant", false, false, true, true) ]
  }

  /** Every method is listed once, and the table has one entry per method, in the same order, with the same flags. */
  lemma DescriptorTableShape()
    ensures |Methods| == 5 && |DescriptorTable()| == 5
    ensures forall m: Method :: m in Methods
    ensures forall i, j :: 0 <= i < j < |Methods| ==> Name(Methods[i]) != Name(Methods[j])
    ensures forall i :: 0 <= i < 5 ==>
      DescriptorTable()[i] == MethodInfo(Name(Methods[i]), false, false, true, true)
  {
    forall m: Method ensures m in Methods {
      match m
      case RemoveParticipant => assert Methods[0] == m;
      case MutePublishedTrack => assert Methods[1] == m;
      case UpdateParticipant => assert Methods[2] == m;
      case UpdateSubscriptions => assert Methods[3] == m;
      case ForwardParticipant => assert Methods[4] == m;
    }
  }

  /** The five RegisterMethod calls, in order, on a definition shared with the substrate. */
  method RegisterParticipantMethods(sd: ServiceDefinition)
    modifies sd`methods
    ensures sd.methods == old(sd.methods) + DescriptorTable()
  {
    sd.RegisterMethod("RemoveParticipant", false, false, true, true);
    sd.RegisterMethod("MutePublishedTrack", false, false, true, true);
    sd.RegisterMethod("UpdateParticipant", false, false, true, true);
    sd.RegisterMethod("UpdateSubscriptions", false, false, true, true);
    sd.RegisterMethod("ForwardParticipant", false, false, true, true);
  }

  // ---------------------------------------------------------------- client

  class ParticipantClient {
    const client: RPCClient

    constructor (client: RPCClient)
      ensures this.client == client
    {
      this.client := client;
    }

    /** Closes immediately, without waiting for pending calls. */
    method Close()
      modifies client`closed, client.bus`log
      ensures client.closed
      ensures client.bus.log == old(client.bus.log) + [ClientClosed(client.sd.name)]
    {
      client.Close();
    }
  }

  /**
   * NewParticipantClient: builds the table, then the substrate client; there
   * is no client exactly when the substrate's construction fails, and then
   * its error is returned.
   */
  method NewParticipantClient(bus: MessageBus, clientID: string, opts: seq<CallOption>)
    returns (r: Result<ParticipantClient, Error>)
    modifies bus`log
    ensures r.Failure? <==> bus.clientFailure.Some?
    ensures r.Failure? ==> r.error == bus.clientFailure.value && bus.log == old(bus.log)
    ensures r.Success? ==>
      && fresh(r.value) && fresh(r.value.client) && fresh(r.value.client.sd)
      && r.value.client.sd.name == ServiceName && r.value.client.sd.id == clientID
      && r.value.client.sd.methods == DescriptorTable()
      && r.value.client.bus == bus && r.value.client.options == opts && !r.value.client.closed
      && bus.log == old(bus.log) + [ClientOpened(ServiceName, opts)]
  {
    var sd := new ServiceDefinition(ServiceName, clientID);
    RegisterParticipantMethods(sd);
    var rpcClient := NewRPCClient(sd, bus, opts);
    if rpcClient.Failure? {
      return Failure(rpcClient.error);
    }
    var c := new ParticipantClient(rpcClient.value);
    return Success(c);
  }

  /** The request a client call of method m sends: m's wire name, addressed to the one-element key [participant]. */
  function CallRequest(m: Method, participant: string): (r: Request)
    ensures r.rpc == Name(m) && r.topic == [participant]
    ensures Routes(r, {TopicRegistration(m, participant)})
  {
    Request(Name(m), [participant])
  }

  // ---------------------------------------------------------------- server

  /** The subscription Register<m>Topic makes and Deregister<m>Topic removes. */
  function TopicRegistration(m: Method, participant: string): Registration {
    Registration(Name(m), [participant])
  }

  /** The subscriptions of a list of methods for one participant key. */
  function TopicSet(ms: seq<Method>, participant: string): set<Registration> {
    set m | m in ms :: TopicRegistration(m, participant)
  }

  /** All five subscriptions of one participant key. */
  function AllTopics(participant: string): set<Registration> {
    TopicSet(Methods, participant)
  }

  /**
   * Client and server agree: a call of m for key p reaches exactly the
   * subscription Register<m>Topic(p) makes, and no subscription of another
   * method or another key; and its method is in the table both sides build.
   */
  lemma CallReachesOwnRegistration(m: Method, p: string, m': Method, p': string)
    ensures Routes(CallRequest(m, p), {TopicRegistration(m', p')}) <==> m == m' && p == p'
    ensures exists i :: 0 <= i < |DescriptorTable()| && DescriptorTable()[i].name == CallRequest(m, p).rpc
    ensures |CallRequest(m, p).topic| == 1 && CallRequest(m, p).topic[0] == p
  {
    DescriptorTableShape();
    assert m in Methods;
    var i :| 0 <= i < 5 && Methods[i] == m;
    assert DescriptorTable()[i].name == Name(m);
  }

  /** The registerer pairing a Register<reg>Topic function with a Deregister<dereg>Topic function. */
  function TopicRegisterer(reg: Method, dereg: Method): Registerer {
    Registerer(Name(reg), Name(dereg))
  }

  /** allParticipantTopicRegisterers: the five methods in declaration order, each paired with itself. */
  function AllRegisterers(): (rs: seq<Registerer>)
    ensures |rs| == |Methods|
    ensures forall i :: 0 <= i < |rs| ==> rs[i] == TopicRegisterer(Methods[i], Methods[i])
  {
    [ TopicRegisterer(RemoveParticipant, RemoveParticipant),
      TopicRegisterer(MutePublishedTrack, MutePublishedTrack),
      TopicRegisterer(UpdateParticipant, UpdateParticipant),
      TopicRegisterer(UpdateSubscriptions, UpdateSubscriptions),
      TopicRegisterer(ForwardParticipant, ForwardParticipant) ]
  }

  /**
   * Five entries in declaration order; each pairs Register<X>Topic with
   * Deregister<X>Topic of the same X, the entries name distinct methods, and
   * the i-th names the i-th method of the table.
   */
  lemma AllRegisterersShape()
    ensures |AllRegisterers()| == |Methods| == 5
    ensures forall i :: 0 <= i < 5 ==> AllRegisterers()[i] == TopicRegisterer(Methods[i], Methods[i])
    ensures forall i :: 0 <= i < 5 ==> AllRegisterers()[i].register == AllRegisterers()[i].deregister
    ensures forall i :: 0 <= i < 5 ==> AllRegisterers()[i].register == DescriptorTable()[i].name
    ensures forall i, j :: 0 <= i < j < 5 ==> AllRegisterers()[i].register != AllRegisterers()[j].register
  {
    DescriptorTableShape();
  }

  /** A registerer list that pairs each method with itself subscribes and unsubscribes exactly that method's keys. */
  lemma {:induction false} PairedSets(regs: seq<Registerer>, ms: seq<Method>, p: string)
    requires |regs| == |ms|
    requires forall i :: 0 <= i < |ms| ==> regs[i] == TopicRegisterer(ms[i], ms[i])
    ensures RegisterSet(regs, [p]) == TopicSet(ms, p)
    ensures DeregisterSet(regs, [p]) == TopicSet(ms, p)
  {
    forall x | x in RegisterSet(regs, [p]) ensures x in TopicSet(ms, p) {
      var r :| r in regs && x == Registration(r.register, [p]);
      var i :| 0 <= i < |regs| && regs[i] == r;
      assert ms[i] in ms;
    }
    forall x | x in TopicSet(ms, p) ensures x in RegisterSet(regs, [p]) && x in DeregisterSet(regs, [p]) {
      var m :| m in ms && x == TopicRegistration(m, p);
      var i :| 0 <= i < |ms| && ms[i] == m;
      assert regs[i] in regs;
    }
    forall x | x in DeregisterSet(regs, [p]) ensures x in TopicSet(ms, p) {
      var r :| r in regs && x == Registration(r.deregister, [p]);
      var i :| 0 <= i < |regs| && regs[i] == r;
      assert ms[i] in ms;
    }
  }

  /** How a registration call ends: it returns the substrate's error (or nil), or it panics on a nil implementation. */
  datatype RegisterOutcome = Returned(err: Option<Error>) | NilImplPanic

  /** The generated participantServer: the implementation (None for a nil one) and the substrate server it registers on. */
  class ParticipantServer {
    const svc: Option<Impl>
    const rpc: RPCServer

    constructor (svc: Option<Impl>, rpc: RPCServer)
      ensures this.svc == svc && this.rpc == rpc
    {
      this.svc := svc;
      this.rpc := rpc;
    }

    /**
     * Register<m>Topic: passes the method value svc.<m> as the handler, so with
     * a nil implementation it panics before the substrate is reached;
     * otherwise it subscribes m under [participant] and returns what the
     * substrate returned.
     */
    method RegisterTopic(m: Method, participant: string) returns (r: RegisterOutcome)
      modifies rpc`handlers
      ensures svc.None? ==> r == NilImplPanic && rpc.handlers == old(rpc.handlers)
      ensures svc.Some? && TopicRegistration(m, participant) in rpc.bus.refused ==>
        r == Returned(Some(rpc.bus.refused[TopicRegistration(m, participant)])) && rpc.handlers == old(rpc.handlers)
      ensures svc.Some? && TopicRegistration(m, participant) !in rpc.bus.refused ==>
        r == Returned(None) && rpc.handlers == old(rpc.handlers) + {TopicRegistration(m, participant)}
    {
      if svc.None? {
        return NilImplPanic;
      }
      var err := rpc.RegisterHandler(Name(m), [participant]);
      r := Returned(err);
    }

    /** Deregister<m>Topic: unsubscribes m under the same key; it reports nothing and needs no implementation. */
    method DeregisterTopic(m: Method, participant: string)
      modifies rpc`handlers
      ensures rpc.handlers == old(rpc.handlers) - {TopicRegistration(m, participant)}
    {
      rpc.DeregisterHandler(Name(m), [participant]);
    }

    /**
     * Registering and then deregistering one method for one key leaves every
     * other subscription as it was; when the registration panics, the
     * deregistration is never reached and nothing changes.
     */
    method RegisterThenDeregister(m: Method, participant: string) returns (r: RegisterOutcome)
      modifies rpc`handlers
      ensures svc.None? ==> r == NilImplPanic && rpc.handlers == old(rpc.handlers)
      ensures svc.Some? ==> r.Returned? && TopicRegistration(m, participant) !in rpc.handlers
      ensures forall q :: q != TopicRegistration(m, participant) ==> (q in rpc.handlers <==> q in old(rpc.handlers))
    {
      r := RegisterTopic(m, participant);
      if r.NilImplPanic? {
        return;
      }
      DeregisterTopic(m, participant);
    }

    /**
     * RegisterAllParticipantTopics: the five registerers under [participant].
     * With a nil implementation the first one panics and nothing is
     * subscribed. Otherwise, with k the first method whose subscription the
     * bus refuses: if there is none, all five are added; otherwise the error
     * is that refusal and the subscriptions of the methods before k are gone
     * again.
     */
    method RegisterAllTopics(participant: string) returns (r: RegisterOutcome)
      modifies rpc`handlers
      ensures svc.None? ==> r == NilImplPanic && rpc.handlers == old(rpc.handlers)
      ensures svc.Some? ==> r.Returned? && var k := FirstRefused(AllRegisterers(), [participant], rpc.bus.refused);
        if k == 5 then
          r.err == None && rpc.handlers == old(rpc.handlers) + AllTopics(participant)
        else
          && r.err == Some(rpc.bus.refused[TopicRegistration(Methods[k], participant)])
          && rpc.handlers == old(rpc.handlers) - TopicSet(Methods[..k], participant)
      ensures r.Returned? && r.err.Some? && old(rpc.handlers) !! AllTopics(participant) ==> rpc.handlers == old(rpc.handlers)
    {
      if svc.None? {
        return NilImplPanic;
      }
      AllRegisterersShape();
      var err := RegisterSlice(rpc, AllRegisterers(), [participant]);
      r := Returned(err);
      var k := FirstRefused(AllRegisterers(), [participant], rpc.bus.refused);
      assert AllRegisterers()[..5] == AllRegisterers() && Methods[..5] == Methods;
      PairedSets(AllRegisterers()[..k], Methods[..k], participant);
      assert forall m :: m in Methods[..k] ==> m in Methods;
    }

    /** DeregisterAllParticipantTopics: removes all five subscriptions of the key. */
    method DeregisterAllTopics(participant: string)
      modifies rpc`handlers
      ensures rpc.handlers == old(rpc.handlers) - AllTopics(participant)
    {
      AllRegisterersShape();
      DeregisterSlice(rpc, AllRegisterers(), [participant]);
      PairedSets(AllRegisterers(), Methods, participant);
    }

    /** Shutdown: close, waiting for pending calls (force = false). */
    method Shutdown()
      modifies rpc`handlers, rpc`closedWith, rpc.bus`log
      ensures rpc.closedWith == Some(false) && rpc.handlers == {}
      ensures rpc.bus.log == old(rpc.bus.log) + [ServerClosed(rpc.sd.name, false)]
    {
      rpc.Close(false);
    }

    /** Kill: close immediately, without waiting for pending calls (force = true). */
    method Kill()
      modifies rpc`handlers, rpc`closedWith, rpc.bus`log
      ensures rpc.closedWith == Some(true) && rpc.handlers == {}
      ensures rpc.bus.log == old(rpc.bus.log) + [ServerClosed(rpc.sd.name, true)]
    {
      rpc.Close(true);
    }
  }

  /**
   * NewParticipantServer: the substrate server is built on the definition
   * first, the table is registered afterwards on the same definition, and
   * the error is always nil.
   */
  method NewParticipantServer(svc: Option<Impl>, bus: MessageBus, serverID: string, opts: seq<CallOption>)
    returns (s: ParticipantServer, err: Option<Error>)
    modifies bus`log
    ensures err == None
    ensures fresh(s) && fresh(s.rpc) && fresh(s.rpc.sd)
    ensures s.svc == svc && s.rpc.bus == bus && s.rpc.options == opts
    ensures s.rpc.sd.name == ServiceName && s.rpc.sd.id == serverID && s.rpc.sd.methods == DescriptorTable()
    ensures s.rpc.handlers == {} && s.rpc.closedWith == None
    ensures bus.log == old(bus.log) + [ServerOpened(ServiceName, opts)]
  {
    var sd := new ServiceDefinition(ServiceName, serverID);
    var rpcServer := NewRPCServer(sd, bus, opts);
    RegisterParticipantMethods(sd);
    s := new ParticipantServer(svc, rpcServer);
    err := None;
  }
}
