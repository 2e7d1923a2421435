/** The part of kubicorn's cluster API that the Triton reconciler reads and writes. */
module Clusters {

  /** `cluster.ServerPoolType`: the two pool kinds the reconciler tests for, and any other value.
      `Other` stands only for values besides "node" and "master"; those two are `Node` and `Master`. */
  datatype PoolType = Master | Node | Other(value: string)

  /** A `cluster.ServerPool`, shared by pointer between the declared resource and the resource
      `Expected` builds. The reconciler writes only its identifier. */
  class ServerPool {
    const name: string
    const poolType: PoolType
    const bootstrapScripts: seq<string>
    var identifier: string

    constructor (name: string, poolType: PoolType, bootstrapScripts: seq<string>, identifier: string)
      ensures this.name == name && this.poolType == poolType
      ensures this.bootstrapScripts == bootstrapScripts && this.identifier == identifier
    {
      this.name := name;
      this.poolType := poolType;
      this.bootstrapScripts := bootstrapScripts;
      this.identifier := identifier;
    }
  }

  /** The `cluster.ControlPlaneProviderConfig` fields in play: `KubernetesAPI.Endpoint`,
      `KubernetesAPI.Port`, `Values.ItemMap` and `GroupIdentifier`. */
  datatype ProviderConfig = ProviderConfig(
    endpoint: string,
    port: string,
    itemMap: map<string, string>,
    groupIdentifier: string)

  /** `&cluster.ControlPlaneProviderConfig{}` with only `GroupIdentifier` set. */
  function NewProviderConfig(groupIdentifier: string): (config: ProviderConfig)
    ensures config.groupIdentifier == groupIdentifier
    ensures config.endpoint == "" && config.port == "" && config.itemMap == map[]
  {
    ProviderConfig("", "", map[], groupIdentifier)
  }

  /** A `cluster.Cluster`, passed by pointer and changed in place by the reconciler. */
  class Cluster {
    var name: string
    var config: ProviderConfig

    constructor (name: string, config: ProviderConfig)
      ensures this.name == name && this.config == config
    {
      this.name := name;
      this.config := config;
    }
  }
}
