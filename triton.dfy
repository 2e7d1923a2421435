/** The values exchanged with the Triton control plane through the triton-go client. The client
    itself is not modelled: what it answers is handed to the reconciler as data, and what the
    reconciler asks of it is recorded as a trace of calls. */
module Triton {
  import opened Wrappers

  /** A compute instance as `Instances().Get` and `Instances().Create` report it. */
  datatype Instance = Instance(id: string, name: string, ips: seq<string>)

  /** The pair `(instance, err)` returned by `Instances().Get`; a nil instance is `None`. */
  datatype Reply = Reply(instance: Option<Instance>, err: Option<Error>)

  /** An image as listed by `Images().List`. */
  datatype Image = Image(id: string, name: string, version: string)

  /** A network as listed by `Network.List`. */
  datatype Network = Network(id: string, name: string)

  /** The fields of `compute.CreateInstanceInput` that the reconciler fills in. */
  datatype CreateInput = CreateInput(
    name: string,
    package: string,
    image: string,
    networks: seq<string>,
    metadata: map<string, string>,
    tags: map<string, string>,
    services: seq<string>)

  /** One request made of the control plane. */
  datatype Call =
    | GetInstance(id: string)
    | ListImages(name: string, version: string)
    | ListNetworks
    | CreateInstance(input: CreateInput)

  /** `count` consecutive `GetInstance(id)` requests, as the address poller makes them. */
  function Gets(id: string, count: nat): (calls: seq<Call>)
    ensures |calls| == count
    ensures forall k :: 0 <= k < count ==> calls[k] == GetInstance(id)
  {
    seq(count, _ => GetInstance(id))
  }
}
