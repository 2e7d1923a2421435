/** The reconciler for one Triton compute instance (kubicorn's `resources.ResourceGroup`):
    Actual, Expected, Apply, Delete, the render step and the master address poller.

    Everything the Go code asks of the outside world is an input here: the replies of the
    triton-go client (`Reply`, `Remote`), `compare.IsEqual` (`isEqual`) and the
    bootstrap script renderer (`build`). What the reconciler asks of the control plane is returned
    as a trace of `Call`s. */
module Resources {
  import opened Wrappers
  import opened Triton
  import opened Clusters

  const MasterIPAttempts: nat := 100
  /** The pause between two polls (resourcegroup.go:34), kept as a record of the source's
      constant; time is not modelled, so no member uses it. */
  const MasterIPSleepSecondsPerAttempt: nat := 5
  const PackageName: string := "k4-highcpu-kvm-1.75G"
  const ImageName: string := "ubuntu-certified-16.04"
  const ImageVersion: string := "20180222"
  const NetworkName: string := "Joyent-SDC-Public"
  const FabricNetwork: string := "My-Fabric-Network"

  /** The keys of `Values.ItemMap` that Apply fills in for the bootstrap templates. */
  const InjectedMaster: string := "INJECTEDMASTER"
  const InjectedPort: string := "INJECTEDPORT"

  /** A `ResourceGroup`: the embedded `Shared` fields (name, tags, identifier), its own bootstrap
      script list and the pointer to its server pool. The resources this file builds are fresh
      values and are never changed after construction. */
  datatype ResourceGroup = ResourceGroup(
    name: string,
    tags: map<string, string>,
    identifier: string,
    bootstrapScripts: seq<string>,
    serverPool: Option<ServerPool>)

  // ---------------------------------------------------------------------------------------
  // The master address poller, getMasterIP
  // ---------------------------------------------------------------------------------------

  /** What `getMasterIP` returns — the address list and the error — and how many times it
      asked the control plane. */
  datatype Poll = Poll(ips: seq<string>, err: Option<Error>, fetches: nat)

  /** The list the poller returns when it has nothing better: three empty strings. */
  const Placeholder: seq<string> := ["", "", ""]

  /** A reply the poller can read without dereferencing a nil instance. */
  predicate Answered(reply: Reply) {
    reply.err.Some? || reply.instance.Some?
  }

  /** The replies the control plane gives to successive polls: one for each possible attempt,
      each carrying an error or an instance. */
  predicate PollReady(fetches: seq<Reply>) {
    MasterIPAttempts <= |fetches| && forall i :: 0 <= i < MasterIPAttempts ==> Answered(fetches[i])
  }

  /** A reply that ends the polling: an error, or an instance with at least one address. */
  predicate Decisive(reply: Reply) {
    reply.err.Some? || (reply.instance.Some? && |reply.instance.value.ips| > 0)
  }

  /** What the poller returns when the `fetches`-th request got the decisive `reply`. */
  function Verdict(reply: Reply, fetches: nat): (verdict: Poll)
    requires Decisive(reply)
  {
    if reply.err.Some? then Poll(Placeholder, reply.err, fetches)
    else Poll(reply.instance.value.ips, None, fetches)
  }

  /** The poller's loop from attempt `i` on. */
  function MasterIPFrom(fetches: seq<Reply>, i: nat): (poll: Poll)
    requires PollReady(fetches) && i <= MasterIPAttempts
    decreases MasterIPAttempts - i
  {
    if i == MasterIPAttempts then Poll(Placeholder, None, MasterIPAttempts)
    else if fetches[i].err.Some? then Poll(Placeholder, fetches[i].err, i + 1)
    else if |fetches[i].instance.value.ips| > 0 then Poll(fetches[i].instance.value.ips, None, i + 1)
    else MasterIPFrom(fetches, i + 1)
  }

  /** What `getMasterIP` returns when the control plane answers its polls with `fetches`. */
  function MasterIP(fetches: seq<Reply>): (poll: Poll)
    requires PollReady(fetches)
  {
    MasterIPFrom(fetches, 0)
  }

  /** `getMasterIP`: poll at most `MasterIPAttempts` times, stopping at the first error or the
      first instance that reports an address. */
  method GetMasterIP(fetches: seq<Reply>) returns (ips: seq<string>, err: Option<Error>, used: nat)
    requires PollReady(fetches)
    ensures Poll(ips, err, used) == MasterIP(fetches)
  {
    var ret := Placeholder;
    var i := 0;
    while i < MasterIPAttempts
      invariant 0 <= i <= MasterIPAttempts
      invariant MasterIPFrom(fetches, i) == MasterIP(fetches)
    {
      var reply := fetches[i];
      if reply.err.Some? {
        return ret, reply.err, i + 1;
      }
      if |reply.instance.value.ips| > 0 {
        return reply.instance.value.ips, None, i + 1;
      }
      i := i + 1;
    }
    return ret, None, MasterIPAttempts;
  }

  /** From attempt `i` on, the poller makes at least one and at most the remaining requests,
      every request but the last got an instance without addresses, and the last one either
      decides the result or was the final attempt. */
  lemma {:induction false} MasterIPFromStops(fetches: seq<Reply>, i: nat)
    requires PollReady(fetches) && i < MasterIPAttempts
    ensures var p := MasterIPFrom(fetches, i);
      && i < p.fetches <= MasterIPAttempts
      && (forall j :: i <= j < p.fetches - 1 ==> !Decisive(fetches[j]))
      && (Decisive(fetches[p.fetches - 1]) ==> p == Verdict(fetches[p.fetches - 1], p.fetches))
      && (!Decisive(fetches[p.fetches - 1]) ==> p == Poll(Placeholder, None, MasterIPAttempts))
    decreases MasterIPAttempts - i
  {
    if !Decisive(fetches[i]) && i + 1 < MasterIPAttempts {
      MasterIPFromStops(fetches, i + 1);
    }
  }

  /** The whole poll: between one and `MasterIPAttempts` requests; it stops at the first error,
      returning that error, or at the first instance with addresses, returning exactly those
      addresses; otherwise every request saw no address and the placeholder comes back. */
  lemma MasterIPStops(fetches: seq<Reply>)
    requires PollReady(fetches)
    ensures var p := MasterIP(fetches);
      && 1 <= p.fetches <= MasterIPAttempts
      && (forall j :: 0 <= j < p.fetches - 1 ==> !Decisive(fetches[j]))
      && (Decisive(fetches[p.fetches - 1]) ==> p == Verdict(fetches[p.fetches - 1], p.fetches))
      && (!Decisive(fetches[p.fetches - 1]) ==> p == Poll(Placeholder, None, MasterIPAttempts))
  {
    MasterIPFromStops(fetches, 0);
  }

  /** The first decisive reply decides the poll, and no request is made after it. */
  lemma FirstDecisiveWins(fetches: seq<Reply>, k: nat)
    requires PollReady(fetches) && k < MasterIPAttempts
    requires Decisive(fetches[k]) && forall j :: 0 <= j < k ==> !Decisive(fetches[j])
    ensures MasterIP(fetches) == Verdict(fetches[k], k + 1)
  {
    MasterIPStops(fetches);
  }

  /** When every attempt finds the instance without an address, the poller gives up after
      `MasterIPAttempts` requests with the three-string placeholder and no error. */
  lemma MasterIPExhausted(fetches: seq<Reply>)
    requires PollReady(fetches)
    requires forall j :: 0 <= j < MasterIPAttempts ==> !Decisive(fetches[j])
    ensures MasterIP(fetches) == Poll(Placeholder, None, MasterIPAttempts)
  {
    MasterIPStops(fetches);
  }

  /** A poll that reports no error never returns an empty list. */
  lemma MasterIPNeverEmpty(fetches: seq<Reply>)
    requires PollReady(fetches)
    ensures MasterIP(fetches).err.None? ==> |MasterIP(fetches).ips| > 0
  {
    MasterIPStops(fetches);
  }

  /** Two polls without an address and a third that reports 10.0.0.5: the poller returns that
      address and no error after exactly three requests. */
  lemma MasterIPThirdAttempt(fetches: seq<Reply>, id: string, name: string)
    requires PollReady(fetches)
    requires fetches[0] == Reply(Some(Instance(id, name, [])), None)
    requires fetches[1] == Reply(Some(Instance(id, name, [])), None)
    requires fetches[2] == Reply(Some(Instance(id, name, ["10.0.0.5"])), None)
    ensures MasterIP(fetches) == Poll(["10.0.0.5"], None, 3)
  {
    FirstDecisiveWins(fetches, 2);
  }

  // ---------------------------------------------------------------------------------------
  // Actual and Expected
  // ---------------------------------------------------------------------------------------

  /** The tags both constructors give a resource: the pool name under "Name". */
  function PoolTags(pool: ServerPool): (tags: map<string, string>) {
    map["Name" := pool.name]
  }

  /** What `Actual` returns, and the requests it made to find it out. */
  datatype Observation = Observation(out: Result<(Cluster, ResourceGroup)>, calls: seq<Call>)

  /** `Actual`: the resource as Triton sees it. With an identifier, `lookup` is the reply of the
      one `Instances().Get` request for it; with none, no request is made and `lookup` is unused. */
  function Actual(r: ResourceGroup, c: Cluster, lookup: Reply): (obs: Observation)
    requires r.serverPool.Some?
    requires r.identifier != "" ==> lookup.instance.Some?
    ensures obs.calls == if r.identifier == "" then [] else [GetInstance(r.identifier)]
    ensures r.identifier == "" ==>
      obs.out == Ok((c, ResourceGroup(r.name, PoolTags(r.serverPool.value), "", [], None)))
    ensures r.identifier != "" ==> (obs.out.Err? <==> lookup.err.Some?)
    ensures r.identifier != "" && lookup.err.Some? ==> obs.out == Err(lookup.err.value)
    ensures r.identifier != "" && lookup.err.None? ==>
      obs.out == Ok((c, ResourceGroup(lookup.instance.value.name, PoolTags(r.serverPool.value),
                                      lookup.instance.value.id, [], None)))
  {
    var observed := ResourceGroup(r.name, PoolTags(r.serverPool.value), r.identifier, [], None);
    if observed.identifier == "" then Observation(Ok((c, observed)), [])
    else
      var calls := [GetInstance(observed.identifier)];
      var instance := lookup.instance.value;
      var observed := observed.(name := instance.name, identifier := instance.id);
      if lookup.err.Some? then Observation(Err(lookup.err.value), calls)
      else Observation(Ok((c, observed)), calls)
  }

  /** `Expected`: the resource as it should be; no request, no failure. */
  function Expected(r: ResourceGroup, c: Cluster): (res: (Cluster, ResourceGroup))
    requires r.serverPool.Some?
    ensures res.0 == c
    ensures res.1.name == r.name && res.1.identifier == r.identifier
    ensures res.1.tags == map["Name" := r.serverPool.value.name]
    ensures res.1.serverPool == r.serverPool && res.1.bootstrapScripts == []
  {
    (c, ResourceGroup(r.name, PoolTags(r.serverPool.value), r.identifier, [], r.serverPool))
  }

  /** Only `Expected` carries the server pool, so a successful `Actual` and `Expected` of the same
      resource are never the same record. */
  lemma ActualDiffersFromExpected(r: ResourceGroup, c: Cluster, lookup: Reply)
    requires r.serverPool.Some?
    requires r.identifier != "" ==> lookup.instance.Some?
    requires Actual(r, c, lookup).out.Ok?
    ensures Actual(r, c, lookup).out.value.1.serverPool.None?
    ensures Actual(r, c, lookup).out.value.1 != Expected(r, c).1
  {
  }

  // ---------------------------------------------------------------------------------------
  // Apply
  // ---------------------------------------------------------------------------------------

  /** `compare.IsEqual`: whether two resources are the same, or an error. */
  type CompareResources = (ResourceGroup, ResourceGroup) -> Result<bool>

  /** `script.BuildBootstrapScript`: the pool's script list and the cluster (its name and
      provider config) to rendered text or an error. */
  type BuildScript = (seq<string>, string, ProviderConfig) -> Result<string>

  /** What the control plane answers during one Apply: the worker's polls of its own identifier
      before creation (worker pools), the image and network listings, the creation, and the polls for
      the new instance's address (master pools). */
  datatype Remote = Remote(
    nodeFetches: seq<Reply>,
    images: seq<Image>,
    nets: seq<Network>,
    created: Result<Instance>,
    masterFetches: seq<Reply>)

  /** The network list holds a network with the given name. */
  predicate Lists(nets: seq<Network>, name: string) {
    exists i :: 0 <= i < |nets| && nets[i].name == name
  }

  /** The network the listing loop leaves behind for `name`: the last one with that name. */
  function LastNamed(nets: seq<Network>, name: string): (found: Option<Network>)
    ensures found.None? <==> !Lists(nets, name)
    ensures found.Some? ==>
      exists i :: (0 <= i < |nets| && nets[i] == found.value && found.value.name == name
                   && (forall j :: i < j < |nets| ==> nets[j].name != name))
    decreases |nets|
  {
    if nets == [] then None
    else if nets[|nets| - 1].name == name then Some(nets[|nets| - 1])
    else LastNamed(nets[..|nets| - 1], name)
  }

  /** Looking one network further: it wins if it has the name. */
  lemma LastNamedStep(nets: seq<Network>, i: nat, name: string)
    requires i < |nets|
    ensures LastNamed(nets[..i + 1], name) == if nets[i].name == name then Some(nets[i]) else LastNamed(nets[..i], name)
  {
    assert nets[..i + 1][..i] == nets[..i];
  }

  /** The loop over `Network.List`: each network with a target name replaces the one found before. */
  method SelectNetworks(nets: seq<Network>) returns (net1: Option<Network>, net2: Option<Network>)
    ensures net1 == LastNamed(nets, NetworkName)
    ensures net2 == LastNamed(nets, FabricNetwork)
  {
    net1, net2 := None, None;
    for i := 0 to |nets|
      invariant net1 == LastNamed(nets[..i], NetworkName)
      invariant net2 == LastNamed(nets[..i], FabricNetwork)
    {
      LastNamedStep(nets, i, NetworkName);
      LastNamedStep(nets, i, FabricNetwork);
      var found := nets[i];
      if found.name == NetworkName {
        net1 := Some(found);
      }
      if found.name == FabricNetwork {
        net2 := Some(found);
      }
    }
    assert nets[..|nets|] == nets;
  }

  /** The image creation uses: the first listed one, or the zero image. */
  function SelectImage(images: seq<Image>): (img: Image)
    ensures |images| > 0 ==> img == images[0]
    ensures |images| == 0 ==> img.id == ""
  {
    if |images| > 0 then images[0] else Image("", "", "")
  }

  /** The provider config after the pre-create writes (a worker pool's first address from its
      polls of its own identifier, then the port for every pool). */
  function PreCreate(poolType: PoolType, config: ProviderConfig, masterIPs: seq<string>): (written: ProviderConfig)
    requires poolType == Node ==> |masterIPs| > 0
  {
    var config := if poolType == Node then
      config.(endpoint := masterIPs[0],
              itemMap := config.itemMap[InjectedMaster := masterIPs[0] + ":" + config.port])
    else config;
    config.(itemMap := config.itemMap[InjectedPort := config.port])
  }

  /** The pre-create writes: INJECTEDPORT takes the port for every pool; for a worker pool the
      endpoint and INJECTEDMASTER take the first address from the worker's polls of its own
      identifier; nothing else changes. */
  lemma PreCreateWrites(poolType: PoolType, config: ProviderConfig, masterIPs: seq<string>)
    requires poolType == Node ==> |masterIPs| > 0
    ensures var written := PreCreate(poolType, config, masterIPs);
      && written.port == config.port && written.groupIdentifier == config.groupIdentifier
      && InjectedPort in written.itemMap && written.itemMap[InjectedPort] == config.port
      && (poolType == Node ==>
            (written.endpoint == masterIPs[0] && InjectedMaster in written.itemMap
             && written.itemMap[InjectedMaster] == masterIPs[0] + ":" + config.port))
      && (poolType != Node ==>
            (written.endpoint == config.endpoint && written.itemMap == config.itemMap[InjectedPort := config.port]))
      && written.itemMap.Keys == config.itemMap.Keys + {InjectedPort} + (if poolType == Node then {InjectedMaster} else {})
      && (forall k :: k in config.itemMap && k != InjectedPort && k != InjectedMaster ==>
            written.itemMap[k] == config.itemMap[k])
  {
  }

  /** The `compute.CreateInstanceInput` Apply sends. */
  function CreateRequest(pool: ServerPool, images: seq<Image>, nets: seq<Network>, script: string): (req: CreateInput)
    requires Lists(nets, NetworkName) && Lists(nets, FabricNetwork)
  {
    CreateInput(
      pool.name, PackageName, SelectImage(images).id,
      [LastNamed(nets, NetworkName).value.id, LastNamed(nets, FabricNetwork).value.id],
      map["user-script" := script], map["name" := pool.name], [pool.name])
  }

  /** The create request: the pool's name, the fixed package, the first image's id (or the zero
      image's ""), the ids of the last network with each target name, the rendered script as
      "user-script" metadata, the pool name as "name" tag and as CNS service. */
  lemma CreateRequestContents(pool: ServerPool, images: seq<Image>, nets: seq<Network>, script: string)
    requires Lists(nets, NetworkName) && Lists(nets, FabricNetwork)
    ensures var req := CreateRequest(pool, images, nets, script);
      && req.name == pool.name && req.package == PackageName
      && req.image == (if |images| > 0 then images[0].id else "")
      && |req.networks| == 2
      && (exists i :: (0 <= i < |nets| && nets[i].name == NetworkName && req.networks[0] == nets[i].id
                       && forall j :: i < j < |nets| ==> nets[j].name != NetworkName))
      && (exists i :: (0 <= i < |nets| && nets[i].name == FabricNetwork && req.networks[1] == nets[i].id
                       && forall j :: i < j < |nets| ==> nets[j].name != FabricNetwork))
      && req.metadata == map["user-script" := script]
      && req.tags == map["name" := pool.name] && req.services == [pool.name]
  {
  }

  /** The addresses a worker pool gets before creation, or an empty list for other pools. */
  function NodeIPs(pool: ServerPool, remote: Remote): (ips: seq<string>)
    requires PollReady(remote.nodeFetches)
    ensures pool.poolType == Node && MasterIP(remote.nodeFetches).err.None? ==> |ips| > 0
  {
    MasterIPNeverEmpty(remote.nodeFetches);
    if pool.poolType == Node then MasterIP(remote.nodeFetches).ips else []
  }

  /** Apply gets as far as the create request: the records differ, the worker's polls of its own
      identifier found an address, and the script rendered. This is where the Go code dereferences both networks. */
  predicate ReachesCreate(pool: ServerPool, name: string, config: ProviderConfig,
                          compared: Result<bool>, remote: Remote, build: BuildScript)
    requires PollReady(remote.nodeFetches)
  {
    && compared == Ok(false)
    && (pool.poolType == Node ==> MasterIP(remote.nodeFetches).err.None?)
    && build(pool.bootstrapScripts, name, PreCreate(pool.poolType, config, NodeIPs(pool, remote))).Ok?
  }

  /** What Apply demands of its inputs: enough well-formed poll replies, and both target
      networks listed whenever the create request is built. */
  predicate ApplyReady(pool: ServerPool, name: string, config: ProviderConfig,
                       compared: Result<bool>, remote: Remote, build: BuildScript)
  {
    && PollReady(remote.nodeFetches) && PollReady(remote.masterFetches)
    && (ReachesCreate(pool, name, config, compared, remote, build) ==>
          Lists(remote.nets, NetworkName) && Lists(remote.nets, FabricNetwork))
  }

  /** Everything one Apply call does: what it returns, the provider config it leaves in the
      cluster, the identifier it writes into the shared server pool (if any), and the requests
      it makes, in order. */
  datatype Effect = Effect(out: Result<ResourceGroup>, config: ProviderConfig,
                           poolIdentifier: Option<string>, calls: seq<Call>)

  /** Apply on a declared resource whose pool is `pool` and identifier `identifier`, against a
      cluster named `name` holding `config`; `compared` is the verdict of comparing the actual
      resource with `expected`. */
  function ApplyEffect(pool: ServerPool, identifier: string, expected: ResourceGroup,
                       name: string, config: ProviderConfig,
                       compared: Result<bool>, remote: Remote, build: BuildScript): (e: Effect)
    requires ApplyReady(pool, name, config, compared, remote, build)
  {
    match compared
    case Err(e) => Effect(Err(e), config, None, [])
    case Ok(equal) =>
      if equal then Effect(Ok(expected), config, None, [])
      else ConvergeEffect(pool, identifier, expected, name, config, remote, build)
  }

  /** The requests of a worker pool's polls of its own identifier; none for other pools. */
  function Polled(pool: ServerPool, identifier: string, remote: Remote): (calls: seq<Call>)
    requires PollReady(remote.nodeFetches)
  {
    if pool.poolType == Node then Gets(identifier, MasterIP(remote.nodeFetches).fetches) else []
  }

  /** Apply once the records differ: the worker's polls of its own identifier, the pre-create writes, the
      script, the image and network listings and the create request. */
  function ConvergeEffect(pool: ServerPool, identifier: string, expected: ResourceGroup,
                          name: string, config: ProviderConfig, remote: Remote, build: BuildScript): (e: Effect)
    requires ApplyReady(pool, name, config, Ok(false), remote, build)
  {
    var node := MasterIP(remote.nodeFetches);
    var polled := Polled(pool, identifier, remote);
    if pool.poolType == Node && node.err.Some? then Effect(Err(node.err.value), config, None, polled)
    else
      var configured := PreCreate(pool.poolType, config, NodeIPs(pool, remote));
      match build(pool.bootstrapScripts, name, configured)
      case Err(e) => Effect(Err(e), configured, None, polled)
      case Ok(script) =>
        var req := CreateRequest(pool, remote.images, remote.nets, script);
        CreateEffect(pool, expected, configured,
                     polled + [ListImages(ImageName, ImageVersion), ListNetworks, CreateInstance(req)], remote)
  }

  /** Apply from the answer to the create request on: a master pool waits for the new instance's
      address, then the new identifier is returned. */
  function CreateEffect(pool: ServerPool, expected: ResourceGroup, configured: ProviderConfig,
                        requested: seq<Call>, remote: Remote): (e: Effect)
    requires PollReady(remote.masterFetches)
  {
    match remote.created
    case Err(e) => Effect(Err(e), configured, None, requested)
    case Ok(created) =>
      if pool.poolType != Master then
        Effect(Ok(ResourceGroup(pool.name, map[], created.id, [], expected.serverPool)),
               configured, Some(created.id), requested)
      else
        var master := MasterIP(remote.masterFetches);
        var calls := requested + Gets(created.id, master.fetches);
        if master.err.Some? then Effect(Err(master.err.value), configured, None, calls)
        else if |master.ips| == 0 then Effect(Err(NoMasterIP), configured, None, calls)
        else Effect(Ok(ResourceGroup(pool.name, map[], created.id, [], expected.serverPool)),
                    configured.(endpoint := master.ips[0]), Some(created.id), calls)
  }

  /** Go's `(cluster, resource, err)` triple: the cluster comes back only with a resource. */
  function WithCluster(c: Cluster, res: Result<ResourceGroup>): (out: Result<(Cluster, ResourceGroup)>) {
    match res
    case Ok(g) => Ok((c, g))
    case Err(e) => Err(e)
  }

  /** The identifier the server pool holds after an effect. */
  function PoolIdentifierAfter(e: Effect, before: string): (identifier: string) {
    if e.poolIdentifier.Some? then e.poolIdentifier.value else before
  }

  /** `Apply`: converge Triton towards `expected`, writing into the cluster's provider config
      and into the server pool `expected` shares with the declared resource. */
  method Apply(r: ResourceGroup, actual: ResourceGroup, expected: ResourceGroup, c: Cluster,
               isEqual: CompareResources, remote: Remote, build: BuildScript)
    returns (out: Result<(Cluster, ResourceGroup)>, calls: seq<Call>)
    requires r.serverPool.Some? && expected.serverPool.Some?
    requires ApplyReady(r.serverPool.value, c.name, c.config, isEqual(actual, expected), remote, build)
    modifies c, expected.serverPool.value
    ensures var e := ApplyEffect(r.serverPool.value, r.identifier, expected, old(c.name), old(c.config),
                                 isEqual(actual, expected), remote, build);
      && out == WithCluster(c, e.out) && calls == e.calls
      && c.name == old(c.name) && c.config == e.config
      && expected.serverPool.value.identifier == PoolIdentifierAfter(e, old(expected.serverPool.value.identifier))
  {
    var compared := isEqual(actual, expected);
    if compared.Err? {
      return Err(compared.error), [];
    }
    if compared.value {
      return Ok((c, expected)), [];
    }
    out, calls := Converge(r.serverPool.value, r.identifier, expected, c, remote, build);
  }

  /** The steps of Apply after the records were found to differ, up to the create request. */
  method Converge(pool: ServerPool, identifier: string, expected: ResourceGroup, c: Cluster,
                  remote: Remote, build: BuildScript)
    returns (out: Result<(Cluster, ResourceGroup)>, calls: seq<Call>)
    requires expected.serverPool.Some?
    requires ApplyReady(pool, c.name, c.config, Ok(false), remote, build)
    modifies c, expected.serverPool.value
    ensures var e := ConvergeEffect(pool, identifier, expected, old(c.name), old(c.config), remote, build);
      && out == WithCluster(c, e.out) && calls == e.calls
      && c.name == old(c.name) && c.config == e.config
      && expected.serverPool.value.identifier == PoolIdentifierAfter(e, old(expected.serverPool.value.identifier))
  {
    calls := [];
    var masterIPs: seq<string> := [];
    if pool.poolType == Node {
      var err, used;
      masterIPs, err, used := GetMasterIP(remote.nodeFetches);
      calls := Gets(identifier, used);
      if err.Some? {
        return Err(err.value), calls;
      }
      MasterIPNeverEmpty(remote.nodeFetches);
    }
    WritePreCreate(pool.poolType, c, masterIPs);
    assert c.config == PreCreate(pool.poolType, old(c.config), NodeIPs(pool, remote));

    var bootstrapScript := build(pool.bootstrapScripts, c.name, c.config);
    if bootstrapScript.Err? {
      return Err(bootstrapScript.error), calls;
    }

    calls := calls + [ListImages(ImageName, ImageVersion), ListNetworks];
    var createInput := PrepareCreate(pool, remote.images, remote.nets, bootstrapScript.value);
    calls := calls + [CreateInstance(createInput)];
    assert calls == Requested(pool, identifier, old(c.name), old(c.config), remote, build);
    out, calls := FinishCreate(pool, expected, c, calls, remote);
  }

  /** The pre-create writes into the cluster's provider config: a worker pool's first address from its
      polls of its own identifier into the endpoint and INJECTEDMASTER, then the port into INJECTEDPORT. */
  method WritePreCreate(poolType: PoolType, c: Cluster, masterIPs: seq<string>)
    requires poolType == Node ==> |masterIPs| > 0
    modifies c
    ensures c.name == old(c.name) && c.config == PreCreate(poolType, old(c.config), masterIPs)
  {
    if poolType == Node {
      var providerConfig := c.config;
      providerConfig := providerConfig.(endpoint := masterIPs[0]);
      providerConfig := providerConfig.(itemMap := providerConfig.itemMap[InjectedMaster := masterIPs[0] + ":" + c.config.port]);
      c.config := providerConfig;
    }
    var providerConfig := c.config;
    providerConfig := providerConfig.(itemMap := providerConfig.itemMap[InjectedPort := c.config.port]);
    c.config := providerConfig;
  }

  /** The image choice, the network loop and the create request built from them. */
  method PrepareCreate(pool: ServerPool, images: seq<Image>, nets: seq<Network>, script: string)
    returns (createInput: CreateInput)
    requires Lists(nets, NetworkName) && Lists(nets, FabricNetwork)
    ensures createInput == CreateRequest(pool, images, nets, script)
  {
    var img := SelectImage(images);
    var net1, net2 := SelectNetworks(nets);
    createInput := CreateInput(
      pool.name, PackageName, img.id, [net1.value.id, net2.value.id],
      map["user-script" := script], map["name" := pool.name], [pool.name]);
  }

  /** The steps of Apply from the answer to the create request on. */
  method FinishCreate(pool: ServerPool, expected: ResourceGroup, c: Cluster, requested: seq<Call>, remote: Remote)
    returns (out: Result<(Cluster, ResourceGroup)>, calls: seq<Call>)
    requires expected.serverPool.Some? && PollReady(remote.masterFetches)
    modifies c, expected.serverPool.value
    ensures var e := CreateEffect(pool, expected, old(c.config), requested, remote);
      && out == WithCluster(c, e.out) && calls == e.calls
      && c.name == old(c.name) && c.config == e.config
      && expected.serverPool.value.identifier == PoolIdentifierAfter(e, old(expected.serverPool.value.identifier))
  {
    calls := requested;
    if remote.created.Err? {
      return Err(remote.created.error), calls;
    }
    var created := remote.created.value;

    if pool.poolType == Master {
      var masterIPs, err, used := GetMasterIP(remote.masterFetches);
      calls := calls + Gets(created.id, used);
      if err.Some? {
        return Err(err.value), calls;
      }
      if |masterIPs| == 0 {
        return Err(NoMasterIP), calls;
      }
      c.config := c.config.(endpoint := masterIPs[0]);
    }

    var newResource := ResourceGroup(pool.name, map[], created.id, [], expected.serverPool);
    expected.serverPool.value.identifier := created.id;
    return Ok((c, newResource)), calls;
  }

  /** With equal records Apply returns `expected`, changes nothing and asks nothing of Triton. */
  lemma ApplyShortCircuits(pool: ServerPool, identifier: string, expected: ResourceGroup, name: string,
                           config: ProviderConfig, remote: Remote, build: BuildScript)
    requires ApplyReady(pool, name, config, Ok(true), remote, build)
    ensures ApplyEffect(pool, identifier, expected, name, config, Ok(true), remote, build)
      == Effect(Ok(expected), config, None, [])
  {
  }

  /** Once past the worker's polls of its own identifier, INJECTEDPORT holds the API port for every pool type,
      whatever happens later; a worker pool also has the first address from those polls in the endpoint and
      "address:port" in INJECTEDMASTER, and its lookup polled the resource's own identifier. */
  lemma ApplyInjects(pool: ServerPool, identifier: string, expected: ResourceGroup, name: string,
                     config: ProviderConfig, remote: Remote, build: BuildScript)
    requires ApplyReady(pool, name, config, Ok(false), remote, build)
    requires pool.poolType == Node ==> MasterIP(remote.nodeFetches).err.None?
    ensures var e := ApplyEffect(pool, identifier, expected, name, config, Ok(false), remote, build);
      && e.config.port == config.port
      && InjectedPort in e.config.itemMap && e.config.itemMap[InjectedPort] == config.port
      && (pool.poolType == Node ==>
            var ip := MasterIP(remote.nodeFetches).ips[0];
            && e.config.endpoint == ip
            && InjectedMaster in e.config.itemMap && e.config.itemMap[InjectedMaster] == ip + ":" + config.port
            && e.calls[..MasterIP(remote.nodeFetches).fetches] == Gets(identifier, MasterIP(remote.nodeFetches).fetches))
  {
    MasterIPNeverEmpty(remote.nodeFetches);
    PreCreateWrites(pool.poolType, config, NodeIPs(pool, remote));
    ApplyKeepsPreCreate(pool, identifier, expected, name, config, remote, build);
  }

  /** Past the worker's polls of its own identifier, Apply leaves the pre-create config in place except that a
      master pool may set the endpoint once more, and its first requests are the lookup's. */
  lemma ApplyKeepsPreCreate(pool: ServerPool, identifier: string, expected: ResourceGroup, name: string,
                            config: ProviderConfig, remote: Remote, build: BuildScript)
    requires ApplyReady(pool, name, config, Ok(false), remote, build)
    requires pool.poolType == Node ==> MasterIP(remote.nodeFetches).err.None?
    ensures var e := ApplyEffect(pool, identifier, expected, name, config, Ok(false), remote, build);
      var configured := PreCreate(pool.poolType, config, NodeIPs(pool, remote));
      var polled := Polled(pool, identifier, remote);
      && e.config.port == configured.port && e.config.itemMap == configured.itemMap
      && e.config.groupIdentifier == configured.groupIdentifier
      && (pool.poolType != Master ==> e.config.endpoint == configured.endpoint)
      && e.config == (if pool.poolType == Master then configured.(endpoint := e.config.endpoint) else configured)
      && |polled| <= |e.calls| && e.calls[..|polled|] == polled
  {
    var configured := PreCreate(pool.poolType, config, NodeIPs(pool, remote));
    var polled := Polled(pool, identifier, remote);
    if ReachesCreate(pool, name, config, Ok(false), remote, build) {
      var requested := Requested(pool, identifier, name, config, remote, build);
      ApplyReachesCreate(pool, identifier, expected, name, config, remote, build);
      CreateEffectOnlyPolls(pool, expected, configured, requested, remote);
      assert requested[..|polled|] == polled;
    }
  }

  /** Whatever the comparison says and however Apply ends, the provider config it leaves keeps
      the port and the group identifier; of the fields, Apply writes only the endpoint. */
  lemma ApplyKeepsGroupIdentifier(pool: ServerPool, identifier: string, expected: ResourceGroup, name: string,
                                  config: ProviderConfig, compared: Result<bool>, remote: Remote, build: BuildScript)
    requires ApplyReady(pool, name, config, compared, remote, build)
    ensures var e := ApplyEffect(pool, identifier, expected, name, config, compared, remote, build);
      && e.config.groupIdentifier == config.groupIdentifier && e.config.port == config.port
  {
    if compared == Ok(false) && (pool.poolType == Node ==> MasterIP(remote.nodeFetches).err.None?) {
      PreCreateWrites(pool.poolType, config, NodeIPs(pool, remote));
      ApplyKeepsPreCreate(pool, identifier, expected, name, config, remote, build);
    }
  }

  /** A worker pool whose polls of its own identifier fail stops there, with that error and nothing written. */
  lemma ApplyStopsOnLookupError(pool: ServerPool, identifier: string, expected: ResourceGroup, name: string,
                                config: ProviderConfig, remote: Remote, build: BuildScript)
    requires ApplyReady(pool, name, config, Ok(false), remote, build)
    requires pool.poolType == Node && MasterIP(remote.nodeFetches).err.Some?
    ensures ApplyEffect(pool, identifier, expected, name, config, Ok(false), remote, build)
      == Effect(Err(MasterIP(remote.nodeFetches).err.value), config, None,
                Gets(identifier, MasterIP(remote.nodeFetches).fetches))
  {
  }

  /** After the create request, Apply only polls the new instance. */
  lemma CreateEffectOnlyPolls(pool: ServerPool, expected: ResourceGroup, configured: ProviderConfig,
                              requested: seq<Call>, remote: Remote)
    requires PollReady(remote.masterFetches)
    ensures var e := CreateEffect(pool, expected, configured, requested, remote);
      && |requested| <= |e.calls| && e.calls[..|requested|] == requested
      && (forall k :: |requested| <= k < |e.calls| ==> e.calls[k] == GetInstance(remote.created.value.id))
  {
    var e := CreateEffect(pool, expected, configured, requested, remote);
    if remote.created.Ok? && pool.poolType == Master {
      assert e.calls == requested + Gets(remote.created.value.id, MasterIP(remote.masterFetches).fetches);
    }
  }

  /** The requests Apply has made when it sends the create request. */
  function Requested(pool: ServerPool, identifier: string, name: string, config: ProviderConfig,
                     remote: Remote, build: BuildScript): (calls: seq<Call>)
    requires ApplyReady(pool, name, config, Ok(false), remote, build)
    requires ReachesCreate(pool, name, config, Ok(false), remote, build)
  {
    var script := build(pool.bootstrapScripts, name, PreCreate(pool.poolType, config, NodeIPs(pool, remote))).value;
    Polled(pool, identifier, remote)
      + [ListImages(ImageName, ImageVersion), ListNetworks,
         CreateInstance(CreateRequest(pool, remote.images, remote.nets, script))]
  }

  /** Once the create request is built, the rest of Apply is `CreateEffect`. */
  lemma ApplyReachesCreate(pool: ServerPool, identifier: string, expected: ResourceGroup, name: string,
                           config: ProviderConfig, remote: Remote, build: BuildScript)
    requires ApplyReady(pool, name, config, Ok(false), remote, build)
    requires ReachesCreate(pool, name, config, Ok(false), remote, build)
    ensures ApplyEffect(pool, identifier, expected, name, config, Ok(false), remote, build)
      == CreateEffect(pool, expected, PreCreate(pool.poolType, config, NodeIPs(pool, remote)),
                      Requested(pool, identifier, name, config, remote, build), remote)
  {
  }

  /** When the script renders, Apply first makes the worker's polls, then lists images, then
      networks, then sends the create request with the contents of `CreateRequest`; every
      request after it polls the new instance. */
  lemma ApplyCallOrder(pool: ServerPool, identifier: string, expected: ResourceGroup, name: string,
                       config: ProviderConfig, remote: Remote, build: BuildScript)
    requires ApplyReady(pool, name, config, Ok(false), remote, build)
    requires ReachesCreate(pool, name, config, Ok(false), remote, build)
    ensures var e := ApplyEffect(pool, identifier, expected, name, config, Ok(false), remote, build);
      var before := |Polled(pool, identifier, remote)|;
      var script := build(pool.bootstrapScripts, name, PreCreate(pool.poolType, config, NodeIPs(pool, remote))).value;
      && before + 3 <= |e.calls|
      && (forall k :: 0 <= k < before ==> e.calls[k] == GetInstance(identifier))
      && e.calls[before] == ListImages(ImageName, ImageVersion)
      && e.calls[before + 1] == ListNetworks
      && e.calls[before + 2] == CreateInstance(CreateRequest(pool, remote.images, remote.nets, script))
      && (forall k :: before + 2 < k < |e.calls| ==> e.calls[k] == GetInstance(remote.created.value.id))
  {
    var configured := PreCreate(pool.poolType, config, NodeIPs(pool, remote));
    var requested := Requested(pool, identifier, name, config, remote, build);
    var polled := Polled(pool, identifier, remote);
    ApplyReachesCreate(pool, identifier, expected, name, config, remote, build);
    CreateEffectOnlyPolls(pool, expected, configured, requested, remote);
    assert forall k :: 0 <= k < |polled| ==> requested[k] == polled[k];
  }

  /** Apply that gets as far as the create request sends exactly one, after the worker's polls
      and the two listings. */
  lemma ApplyCreatesOnce(pool: ServerPool, identifier: string, expected: ResourceGroup, name: string,
                         config: ProviderConfig, remote: Remote, build: BuildScript)
    requires ApplyReady(pool, name, config, Ok(false), remote, build)
    requires ReachesCreate(pool, name, config, Ok(false), remote, build)
    ensures var e := ApplyEffect(pool, identifier, expected, name, config, Ok(false), remote, build);
      var at := (if pool.poolType == Node then MasterIP(remote.nodeFetches).fetches else 0) + 2;
      && at < |e.calls| && e.calls[at].CreateInstance?
      && (forall k :: 0 <= k < |e.calls| && e.calls[k].CreateInstance? ==> k == at)
  {
    ApplyCallOrder(pool, identifier, expected, name, config, remote, build);
  }

  /** A successful Apply that had work to do returns a resource named after the pool and
      carrying the new instance's identifier, shares `expected`'s pool and writes that
      identifier into it; a master pool's endpoint is then the address of the new instance. */
  lemma ApplySucceeds(pool: ServerPool, identifier: string, expected: ResourceGroup, name: string,
                      config: ProviderConfig, remote: Remote, build: BuildScript)
    requires ApplyReady(pool, name, config, Ok(false), remote, build)
    requires ApplyEffect(pool, identifier, expected, name, config, Ok(false), remote, build).out.Ok?
    ensures var e := ApplyEffect(pool, identifier, expected, name, config, Ok(false), remote, build);
      && remote.created.Ok?
      && e.out.value == ResourceGroup(pool.name, map[], remote.created.value.id, [], expected.serverPool)
      && e.poolIdentifier == Some(remote.created.value.id)
      && (pool.poolType == Master ==> e.config.endpoint == MasterIP(remote.masterFetches).ips[0])
  {
  }

  /** A failed Apply never writes the server pool's identifier. */
  lemma ApplyFailureKeepsPool(pool: ServerPool, identifier: string, expected: ResourceGroup, name: string,
                              config: ProviderConfig, compared: Result<bool>, remote: Remote, build: BuildScript)
    requires ApplyReady(pool, name, config, compared, remote, build)
    requires ApplyEffect(pool, identifier, expected, name, config, compared, remote, build).out.Err?
    ensures ApplyEffect(pool, identifier, expected, name, config, compared, remote, build).poolIdentifier.None?
  {
  }

  /** The "Unable to find master IP addresses" branch never fires: once the new master's
      instance exists and its poll reports no error, Apply succeeds, even when every poll came
      back without an address. */
  lemma ApplyMasterNeverMissesIP(pool: ServerPool, identifier: string, expected: ResourceGroup, name: string,
                                 config: ProviderConfig, remote: Remote, build: BuildScript)
    requires ApplyReady(pool, name, config, Ok(false), remote, build)
    requires ReachesCreate(pool, name, config, Ok(false), remote, build)
    requires pool.poolType == Master && remote.created.Ok? && MasterIP(remote.masterFetches).err.None?
    ensures ApplyEffect(pool, identifier, expected, name, config, Ok(false), remote, build).out.Ok?
  {
    MasterIPNeverEmpty(remote.masterFetches);
  }

  // ---------------------------------------------------------------------------------------
  // Delete and the render step
  // ---------------------------------------------------------------------------------------

  /** `immutableRender`: the cluster takes the resource's name and a fresh provider config
      holding only the resource's identifier as group identifier. */
  method ImmutableRender(newResource: ResourceGroup, inaccurateCluster: Cluster) returns (newCluster: Cluster)
    modifies inaccurateCluster
    ensures newCluster == inaccurateCluster
    ensures newCluster.name == newResource.name
    ensures newCluster.config == NewProviderConfig(newResource.identifier)
  {
    newCluster := inaccurateCluster;
    var providerConfig := NewProviderConfig(newResource.identifier);
    newCluster.name := newResource.name;
    newCluster.config := providerConfig;
  }

  /** `Delete`: refuses a resource without identifier and leaves the cluster alone; otherwise
      returns the declared resource's name and tags without identifier and renders it into the
      cluster. No request reaches Triton. */
  method Delete(r: ResourceGroup, actual: ResourceGroup, c: Cluster)
    returns (out: Result<(Cluster, ResourceGroup)>)
    modifies c
    ensures actual.identifier == "" ==> out == Err(NoIdentifier(actual.name)) && unchanged(c)
    ensures actual.identifier != "" ==>
      && out == Ok((c, ResourceGroup(r.name, r.tags, "", [], None)))
      && c.name == r.name && c.config == NewProviderConfig("")
  {
    if actual.identifier == "" {
      return Err(NoIdentifier(actual.name));
    }
    var newResource := ResourceGroup(r.name, r.tags, "", [], None);
    var newCluster := ImmutableRender(newResource, c);
    return Ok((newCluster, newResource));
  }
}
