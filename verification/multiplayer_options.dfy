/** `MultiplayerOptions`: the ports of a multiplayer game (one shared port,
    the server's port pair and one port pair per client), its builder and
    the contiguous assignment `multiplayerSetupFor`. */
module Game {
  import opened Wrappers
  import opened Errors
  import opened Collections

  /** The range of a Java `int`. */
  const MIN_INT: int := -0x8000_0000
  const MAX_INT: int := 0x7fff_ffff

  predicate IsInt(x: int) {
    MIN_INT <= x <= MAX_INT
  }

  /** `PortSet.of(gamePort, basePort)`: a plain pair of ports, equal when
      both ports are. */
  datatype PortSet = PortSet(gamePort: int, basePort: int)

  /** The immutable options. The client ports form a set. */
  datatype MultiplayerOptions = MultiplayerOptions(
    sharedPort: int,
    serverPort: PortSet,
    clientPorts: set<PortSet>)

  /** `multiplayerSetup()` and its builder. */
  class Builder {
    var sharedPort: Option<int>
    var serverPort: Option<PortSet>
    var clientPorts: set<PortSet>

    /** `sharedPort` only ever accepts a positive port. */
    ghost predicate Valid()
      reads this
    {
      sharedPort.Some? ==> sharedPort.value >= 1
    }

    constructor ()
      ensures Valid()
      ensures sharedPort == None && serverPort == None && clientPorts == {}
    {
      sharedPort, serverPort, clientPorts := None, None, {};
    }

    /** `sharedPort(int)`: a port below 1 is rejected and leaves the builder
        as it was; any other port overwrites the earlier one. */
    method SharedPort(p: int) returns (o: Outcome<Error>)
      requires Valid() && IsInt(p)
      modifies this`sharedPort
      ensures Valid()
      ensures p < 1 ==> o == Fail(IllegalArgument("shared port must be greater than 0")) && sharedPort == old(sharedPort)
      ensures p >= 1 ==> o == Pass && sharedPort == Some(p)
    {
      if p < 1 {
        return Fail(IllegalArgument("shared port must be greater than 0"));
      }
      sharedPort := Some(p);
      o := Pass;
    }

    /** `serverPort(PortSet)`: overwrites. */
    method ServerPort(ps: PortSet)
      requires Valid()
      modifies this`serverPort
      ensures Valid()
      ensures serverPort == Some(ps)
    {
      serverPort := Some(ps);
    }

    /** `clientPorts(PortSet...)`: adds the pairs to those already given. */
    method ClientPorts(ps: seq<PortSet>)
      requires Valid()
      modifies this`clientPorts
      ensures Valid()
      ensures clientPorts == old(clientPorts) + set p | p in ps
    {
      clientPorts := clientPorts + set p | p in ps;
    }

    /** `clientPorts(Collection<PortSet>)`: adds the pairs of a collection. */
    method ClientPortsFrom(ps: set<PortSet>)
      requires Valid()
      modifies this`clientPorts
      ensures Valid()
      ensures clientPorts == old(clientPorts) + ps
    {
      clientPorts := clientPorts + ps;
    }

    /** `build()`: checks the shared port, then the server port, then that
        some client pair was given, and names the first one missing. */
    method Build() returns (r: Result<MultiplayerOptions, Error>)
      requires Valid()
      ensures sharedPort.None? ==> r == Failure(Required("shared port"))
      ensures sharedPort.Some? && serverPort.None? ==> r == Failure(Required("server port"))
      ensures sharedPort.Some? && serverPort.Some? && clientPorts == {} ==> r == Failure(Required("client port list"))
      ensures r.Success? <==> sharedPort.Some? && serverPort.Some? && clientPorts != {}
      ensures r.Success? ==> r.value == MultiplayerOptions(sharedPort.value, serverPort.value, clientPorts)
      ensures r.Success? ==> r.value.sharedPort >= 1 && r.value.clientPorts != {}
    {
      if sharedPort.None? {
        return Failure(Required("shared port"));
      }
      if serverPort.None? {
        return Failure(Required("server port"));
      }
      if clientPorts == {} {
        return Failure(Required("client port list"));
      }
      r := Success(MultiplayerOptions(sharedPort.value, serverPort.value, clientPorts));
    }
  }

  /** The client pairs `multiplayerSetupFor` hands out to `n` players after
      `portStart`: the `i`-th player (from 0) gets
      `(portStart + 4 + 2 * i, portStart + 5 + 2 * i)`. */
  function ClientPortRange(portStart: int, n: nat): (r: set<PortSet>) {
    if n == 0 then {}
    else ClientPortRange(portStart, n - 1) + {PortSet(portStart + 2 + 2 * n, portStart + 3 + 2 * n)}
  }

  /** Which pairs are in the range: those whose game port is an even offset
      in `[portStart + 4, portStart + 4 + 2 * n)` and whose base port is the
      next port. */
  lemma {:induction false} ClientPortRangeMembers(portStart: int, n: nat, p: PortSet)
    ensures p in ClientPortRange(portStart, n) <==>
      && portStart + 4 <= p.gamePort < portStart + 4 + 2 * n
      && (p.gamePort - portStart) % 2 == 0
      && p.basePort == p.gamePort + 1
  {
    if n > 0 {
      ClientPortRangeMembers(portStart, n - 1, p);
    }
  }

  /** `n` players get exactly `n` distinct pairs. */
  lemma {:induction false} ClientPortRangeSize(portStart: int, n: nat)
    ensures |ClientPortRange(portStart, n)| == n
  {
    if n > 0 {
      ClientPortRangeSize(portStart, n - 1);
      var last := PortSet(portStart + 2 + 2 * n, portStart + 3 + 2 * n);
      ClientPortRangeMembers(portStart, n - 1, last);
      assert last !in ClientPortRange(portStart, n - 1);
    }
  }

  /** No port is handed out twice: every client port lies above the shared
      port and the server pair, and two different client pairs share no
      port. */
  lemma ClientPortsDisjoint(portStart: int, n: nat, p: PortSet, q: PortSet)
    requires p in ClientPortRange(portStart, n) && q in ClientPortRange(portStart, n)
    ensures p.gamePort > portStart + 3 && p.basePort > portStart + 3
    ensures p != q ==> p.gamePort != q.gamePort && p.gamePort != q.basePort && p.basePort != q.basePort
  {
    ClientPortRangeMembers(portStart, n, p);
    ClientPortRangeMembers(portStart, n, q);
  }

  /** `multiplayerSetupFor(portStart, playerCount)`: shared port
      `portStart + 1`, server pair `(portStart + 2, portStart + 3)`, then one
      pair per player. A negative player count is rejected by
      `new HashSet<>(playerCount)` before anything else; a shared port below
      1 is rejected by the builder, and no players leave the client set
      empty. */
  method MultiplayerSetupFor(portStart: int, playerCount: int) returns (r: Result<MultiplayerOptions, Error>)
    requires IsInt(portStart) && IsInt(playerCount)
    requires portStart + 3 + 2 * (if playerCount > 0 then playerCount else 0) <= MAX_INT
    ensures playerCount < 0 ==> r == Failure(IllegalCapacity(playerCount))
    ensures playerCount >= 0 && portStart + 1 < 1 ==> r == Failure(IllegalArgument("shared port must be greater than 0"))
    ensures playerCount == 0 && portStart + 1 >= 1 ==> r == Failure(Required("client port list"))
    ensures playerCount > 0 && portStart + 1 >= 1 ==>
      r == Success(MultiplayerOptions(portStart + 1, PortSet(portStart + 2, portStart + 3), ClientPortRange(portStart, playerCount)))
  {
    var port := portStart;
    port := port + 1;
    var shared := port;
    port := port + 1;
    var serverGame := port;
    port := port + 1;
    var server := PortSet(serverGame, port);
    if playerCount < 0 {
      return Failure(IllegalCapacity(playerCount));
    }
    var clients: set<PortSet> := {};
    for i := 0 to playerCount
      invariant port == portStart + 3 + 2 * i
      invariant clients == ClientPortRange(portStart, i)
    {
      port := port + 1;
      var game := port;
      port := port + 1;
      clients := clients + {PortSet(game, port)};
    }
    var b := new Builder();
    var o := b.SharedPort(shared);
    if o.Fail? {
      return Failure(o.error);
    }
    b.ServerPort(server);
    b.ClientPortsFrom(clients);
    if playerCount > 0 {
      assert PortSet(portStart + 2 + 2 * playerCount, portStart + 3 + 2 * playerCount) in b.clientPorts;
    }
    assert b.clientPorts == ClientPortRange(portStart, playerCount);
    r := b.Build();
  }

  /** Two players from port 5000: shared 5001, server (5002, 5003), clients
      (5004, 5005) and (5006, 5007). */
  method SetupForTwoPlayersFrom5000() returns (r: Result<MultiplayerOptions, Error>)
    ensures r == Success(MultiplayerOptions(5001, PortSet(5002, 5003), {PortSet(5004, 5005), PortSet(5006, 5007)}))
  {
    r := MultiplayerSetupFor(5000, 2);
    assert ClientPortRange(5000, 1) == {} + {PortSet(5004, 5005)};
    assert ClientPortRange(5000, 2) == {PortSet(5004, 5005)} + {PortSet(5006, 5007)};
    assert {PortSet(5004, 5005)} + {PortSet(5006, 5007)} == {PortSet(5004, 5005), PortSet(5006, 5007)};
  }

  /** The client pairs are a set: giving the same pairs in another order,
      or repeated, builds equal options. */
  method ClientPortOrderIrrelevant(shared: int, server: PortSet, ps: seq<PortSet>, qs: seq<PortSet>)
    returns (a: Result<MultiplayerOptions, Error>, b: Result<MultiplayerOptions, Error>)
    requires IsInt(shared) && shared >= 1
    requires ps != [] && (set p | p in ps) == (set q | q in qs)
    ensures a.Success? && b.Success?
    ensures Equals(a.value, b.value)
  {
    var x := new Builder();
    var _ := x.SharedPort(shared);
    x.ServerPort(server);
    x.ClientPorts(ps);
    assert ps[0] in x.clientPorts;
    a := x.Build();
    var y := new Builder();
    var _ := y.SharedPort(shared);
    y.ServerPort(server);
    y.ClientPorts(qs);
    assert ps[0] in y.clientPorts;
    b := y.Build();
  }

  /** `equals`: the shared port, the server pair and the client pairs, the
      latter compared as sets. */
  function Equals(a: MultiplayerOptions, b: MultiplayerOptions): (r: bool)
    ensures r <==> a == b
  {
    && a.sharedPort == b.sharedPort
    && a.serverPort == b.serverPort
    && a.clientPorts == b.clientPorts
  }

  /** The exception texts of a builder missing each part in turn, and of a
      shared port below 1. */
  method MissingPartMessages(server: PortSet) returns (belowOne: string, noShared: string, noServer: string, noClients: string)
    ensures belowOne == "shared port must be greater than 0"
    ensures noShared == "shared port is required"
    ensures noServer == "server port is required"
    ensures noClients == "client port list is required"
  {
    var b := new Builder();
    var o := b.SharedPort(0);
    belowOne := Message(o.error);
    var r := b.Build();
    noShared := Message(r.error);
    o := b.SharedPort(1);
    r := b.Build();
    noServer := Message(r.error);
    b.ServerPort(server);
    r := b.Build();
    noClients := Message(r.error);
  }

  /** The builder as the source writes it: the client ports are a set
      object, and `build()` hands that very object to the options
      (`clientPorts = builder.clientPorts`). */
  class SharingBuilder {
    var sharedPort: Option<int>
    var serverPort: Option<PortSet>
    const clientPorts: HashSet<PortSet>

    constructor ()
      ensures sharedPort == None && serverPort == None
      ensures fresh(clientPorts) && clientPorts.elements == {}
    {
      sharedPort, serverPort := None, None;
      clientPorts := new HashSet();
    }

    method SharedPort(p: int) returns (o: Outcome<Error>)
      requires IsInt(p)
      modifies this`sharedPort
      ensures p < 1 ==> o == Fail(IllegalArgument("shared port must be greater than 0")) && sharedPort == old(sharedPort)
      ensures p >= 1 ==> o == Pass && sharedPort == Some(p)
    {
      if p < 1 {
        return Fail(IllegalArgument("shared port must be greater than 0"));
      }
      sharedPort := Some(p);
      o := Pass;
    }

    method ServerPort(ps: PortSet)
      modifies this`serverPort
      ensures serverPort == Some(ps)
    {
      serverPort := Some(ps);
    }

    method ClientPorts(ps: seq<PortSet>)
      modifies clientPorts
      ensures clientPorts.elements == old(clientPorts.elements) + set p | p in ps
    {
      clientPorts.AddAll(ps);
    }

    method Build() returns (r: Result<SharingOptions, Error>)
      ensures sharedPort.None? ==> r == Failure(Required("shared port"))
      ensures sharedPort.Some? && serverPort.None? ==> r == Failure(Required("server port"))
      ensures sharedPort.Some? && serverPort.Some? && clientPorts.elements == {} ==> r == Failure(Required("client port list"))
      ensures r.Success? <==> sharedPort.Some? && serverPort.Some? && clientPorts.elements != {}
      ensures r.Success? ==> fresh(r.value) && r.value.clientPorts == clientPorts
      ensures r.Success? ==> r.value.sharedPort == sharedPort.value && r.value.serverPort == serverPort.value
    {
      if sharedPort.None? {
        return Failure(Required("shared port"));
      }
      if serverPort.None? {
        return Failure(Required("server port"));
      }
      if clientPorts.elements == {} {
        return Failure(Required("client port list"));
      }
      var o := new SharingOptions(sharedPort.value, serverPort.value, clientPorts);
      r := Success(o);
    }
  }

  /** The options as the source writes them: they keep the builder's set. */
  class SharingOptions {
    const sharedPort: int
    const serverPort: PortSet
    const clientPorts: HashSet<PortSet>

    constructor (sharedPort: int, serverPort: PortSet, clientPorts: HashSet<PortSet>)
      ensures this.sharedPort == sharedPort && this.serverPort == serverPort && this.clientPorts == clientPorts
    {
      this.sharedPort, this.serverPort, this.clientPorts := sharedPort, serverPort, clientPorts;
    }

    /** `getClientPorts()`: a copy of the set as it is now. */
    function GetClientPorts(): (r: set<PortSet>)
      reads clientPorts
    {
      clientPorts.elements
    }
  }

  /** As written, options change after they were built: a client pair added
      through the builder afterwards also shows up in the options. */
  method SharingBuilderLeaks(server: PortSet, x: PortSet, y: PortSet) returns (atBuild: set<PortSet>, afterAdd: set<PortSet>)
    ensures atBuild == {x}
    ensures afterAdd == {x, y}
  {
    var b := new SharingBuilder();
    var _ := b.SharedPort(1);
    b.ServerPort(server);
    b.ClientPorts([x]);
    assert x in b.clientPorts.elements;
    var r := b.Build();
    var o := r.value;
    atBuild := o.GetClientPorts();
    b.ClientPorts([y]);
    afterAdd := o.GetClientPorts();
  }

  /** With the builder's set copied into the options, built options keep
      the client pairs they were built with. */
  method BuiltOptionsAreDetached(server: PortSet, x: PortSet, y: PortSet) returns (atBuild: set<PortSet>, afterAdd: set<PortSet>)
    ensures atBuild == {x}
    ensures afterAdd == {x}
  {
    var b := new Builder();
    var _ := b.SharedPort(1);
    b.ServerPort(server);
    b.ClientPorts([x]);
    assert x in b.clientPorts;
    var r := b.Build();
    atBuild := r.value.clientPorts;
    b.ClientPorts([y]);
    afterAdd := r.value.clientPorts;
  }
}
