# Triton resource-group reconciler, modelled in Dafny

This project models the reconciler that kubicorn uses for one Triton compute instance, its
`resources.ResourceGroup`. The reconciler has these parts:

- `Actual` reads the instance back from Triton by identifier.
- `Expected` builds the desired resource from the declared one.
- `Apply` converges Triton towards the expected resource, in this order:
  - it short-circuits when the two records are equal;
  - a worker (node) pool polls its own identifier for an address and injects the first one into the endpoint and INJECTEDMASTER;
  - every pool injects the API port;
  - it renders the bootstrap script;
  - it picks an image and two networks;
  - it creates the instance;
  - a master pool then waits for the new instance's address;
  - the new identifier is written into the shared server pool.
- `Delete` refuses a resource without identifier. Otherwise it renders a cleared resource into the cluster (`immutableRender`).
- `getMasterIP` is the bounded poller for an instance's addresses.

Files:

- `wrappers.dfy` (`Wrappers`): Go's `(value, error)` returns as `Option`, `Result` and the `Error` values the reconciler sees.
- `triton.dfy` (`Triton`): the values exchanged with the control plane. These are the instance, the `(instance, err)` reply of a get, images, networks, the create request, and the trace of requests (`Call`).
- `clusters.dfy` (`Clusters`): the server pool (a class; Apply writes its identifier), the provider config (endpoint, port, item map, group identifier) and the cluster (a class; Apply changes its provider config in place, Delete and the render step change its name and provider config).
- `resources.dfy` (`Resources`): the core.

What the reconciler gets from outside is an input:

- the replies of the triton-go client (a `seq<Reply>` per poll, the image and network listings, the result of the create request);
- `compare.IsEqual`, as a function of two resources that may fail. `Apply` applies it to the actual and the expected resource;
- `script.BuildBootstrapScript`, as a function that may fail.

What `Actual` and `Apply` ask of Triton is returned as an ordered list of `Call`s. That makes "no request", "exactly one create request" and "reads before the create, polls after it" statements about data.

`getMasterIP` and the network-listing loop are methods with loops. Each is proved equal to a recursive function (`MasterIPFrom`, through `MasterIP`, and `LastNamed`), and the properties are proved about those functions. `Apply` is a method that changes the `Cluster` object and the `ServerPool` object in place. It is proved equal to the pure function `ApplyEffect`. `ApplyEffect` gives the result, the provider config left behind, the identifier written into the pool, and the requests made. The lemmas about `ApplyEffect` prove the properties of `Apply`.

Behaviour of the code a reader may not expect:

- Exhausted poll. The code returns a list of three empty strings and no error (`resourcegroup.go:238`, `:257`), not an empty list. So the "Unable to find master IP addresses" branch (`:185`) never fires (`ApplyMasterNeverMissesIP`). As long as the provider-config getter returns the stored config (see "## Left out"), a master whose instance never reports an address gets the endpoint `""`.
- Worker poll. A worker pool polls its own `Shared.Identifier` (`:109`), not the master's. The model keeps that (`ApplyInjects` states the polled identifier).
- Actual's name. With an identifier, `Actual` takes the name and identifier from the instance Triton returns (`:68-69`). It keeps the declared name only when there is no identifier.
- On a transport error, `getMasterIP` returns the three-string placeholder together with the error (`:249`).
- Delete. `Delete` makes no request to Triton. It only renders the cleared resource into the cluster.
- Server pool. Only the result of `Expected` carries the server pool (`ActualDiffersFromExpected`). Results of `Actual` and `Expected` for the same resource are therefore never the same record.

## Model

| member | source | states |
|---|---|---|
| `Resources.GetMasterIP` | cloud/triton/public/resources/resourcegroup.go:237-258 | the polling loop returns exactly the addresses, error and request count of `MasterIP` |
| `Resources.MasterIPFromStops` | cloud/triton/public/resources/resourcegroup.go:240-256 | from any attempt on: at least one and at most the remaining requests; every request before the last saw an instance without addresses; the last either decides the result or was the final attempt |
| `Resources.MasterIPStops` | cloud/triton/public/resources/resourcegroup.go:237-258 | between 1 and 100 requests; on the first error it returns the placeholder and that error; on the first instance with addresses it returns exactly those addresses and no error; otherwise it returns the placeholder with no error after 100 requests |
| `Resources.FirstDecisiveWins` | cloud/triton/public/resources/resourcegroup.go:247-254 | if reply k is the first error or the first one with addresses, the poll returns its verdict after exactly k+1 requests |
| `Resources.MasterIPExhausted` | cloud/triton/public/resources/resourcegroup.go:238-257 | 100 replies without an address give three empty strings, no error, 100 requests |
| `Resources.MasterIPNeverEmpty` | cloud/triton/public/resources/resourcegroup.go:238-257 | a poll with no error never returns an empty list |
| `Resources.MasterIPThirdAttempt` | cloud/triton/public/resources/resourcegroup.go:240-254 | two empty replies, then one with 10.0.0.5: result ["10.0.0.5"], no error, 3 requests |
| `Resources.Actual` | cloud/triton/public/resources/resourcegroup.go:54-76 | requests nothing without an identifier and exactly `GetInstance(identifier)` with one; returns the input cluster and the tags {"Name": pool name}, with no server pool; with no identifier it keeps the declared name and an empty identifier, whatever the lookup reply; with an identifier it fails exactly when the lookup fails, with that error, and otherwise takes the instance's name and id |
| `Resources.Expected` | cloud/triton/public/resources/resourcegroup.go:79-92 | returns the input cluster and a resource with the declared name and identifier, the tags {"Name": pool name}, and the same server pool |
| `Resources.ActualDiffersFromExpected` | cloud/triton/public/resources/resourcegroup.go:54-91 | a successful Actual has no server pool, so it is never the same record as Expected |
| `Resources.LastNamed` | cloud/triton/public/resources/resourcegroup.go:149-156 | no result exactly when no listed network has the name; otherwise a listed network with that name after which no network has it |
| `Resources.SelectNetworks` | cloud/triton/public/resources/resourcegroup.go:143-156 | the loop leaves net1 on the last `Joyent-SDC-Public` network and net2 on the last `My-Fabric-Network` network |
| `Resources.SelectImage` | cloud/triton/public/resources/resourcegroup.go:136-141 | the first listed image, or an image with id "" when the list is empty |
| `Resources.PreCreateWrites` | cloud/triton/public/resources/resourcegroup.go:107-120 | every pool: INJECTEDPORT = port. Worker pool: endpoint = first address from its polls of its own identifier, INJECTEDMASTER = address ":" port. Other pools keep the endpoint. Port, group identifier and all other keys of the item map are unchanged |
| `Resources.WritePreCreate` | cloud/triton/public/resources/resourcegroup.go:107-120 | the in-place writes into the cluster's provider config leave exactly the config of `PreCreate`, and the cluster name untouched |
| `Resources.CreateRequestContents` | cloud/triton/public/resources/resourcegroup.go:158-172 | name = pool name; package k4-highcpu-kvm-1.75G; image = first image's id or ""; networks = ids of the last network with each target name; metadata {"user-script": script}; tags {"name": pool name}; the CNS service = the pool name |
| `Resources.PrepareCreate` | cloud/triton/public/resources/resourcegroup.go:136-172 | the image choice, the network loop and the request built from them give exactly `CreateRequest` |
| `Resources.Apply` | cloud/triton/public/resources/resourcegroup.go:94-207 | with `IsEqual` asked about the actual and the expected resource, the in-place writes to the cluster's provider config and to the pool identifier, the returned triple and the requests are those of `ApplyEffect`; the cluster's name is untouched |
| `Resources.Converge` | cloud/triton/public/resources/resourcegroup.go:107-176 | once the records differ, the in-place writes, the return and the requests are those of `ConvergeEffect` |
| `Resources.FinishCreate` | cloud/triton/public/resources/resourcegroup.go:173-205 | from the create answer on, the endpoint write, the pool identifier write, the return and the polls are those of `CreateEffect` |
| `Resources.ApplyShortCircuits` | cloud/triton/public/resources/resourcegroup.go:98-105 | with equal records: returns `expected`, config unchanged, pool untouched, no request |
| `Resources.ApplyInjects` | cloud/triton/public/resources/resourcegroup.go:107-120 | past the worker's polls of its own identifier, however Apply ends: INJECTEDPORT = port; a worker also has endpoint = first address from those polls and INJECTEDMASTER = address:port, and polled its own identifier |
| `Resources.ApplyKeepsPreCreate` | cloud/triton/public/resources/resourcegroup.go:118-190 | past the worker's polls of its own identifier, the config written before creation is left exactly as it is, except that a master pool sets the endpoint once more: port, item map and group identifier never change again |
| `Resources.ApplyKeepsGroupIdentifier` | cloud/triton/public/resources/resourcegroup.go:94-207 | whatever the comparison says and however Apply ends, the config it leaves has the old port and group identifier |
| `Resources.ApplyStopsOnLookupError` | cloud/triton/public/resources/resourcegroup.go:108-112 | a failed worker lookup returns its error after its polls, with nothing written |
| `Resources.ApplyCallOrder` | cloud/triton/public/resources/resourcegroup.go:109-180 | once the script renders, the requests come in this order: the worker's polls of its own identifier, the image listing, the network listing, then the create request carrying `CreateRequest`'s contents; every later request polls the new instance |
| `Resources.ApplyCreatesOnce` | cloud/triton/public/resources/resourcegroup.go:158-176 | an Apply that reaches the create request sends exactly one, right after the two listings |
| `Resources.ApplyReachesCreate` | cloud/triton/public/resources/resourcegroup.go:122-176 | once the create request is built, the rest of Apply depends only on the create answer and the master polls |
| `Resources.CreateEffectOnlyPolls` | cloud/triton/public/resources/resourcegroup.go:173-192 | after the create request, the only requests are polls of the new instance |
| `Resources.ApplySucceeds` | cloud/triton/public/resources/resourcegroup.go:173-205 | success means creation succeeded. The result has the pool's name, the new id, the expected resource's pool, and that id written into the pool. A master's endpoint is the first address polled from the new instance |
| `Resources.ApplyFailureKeepsPool` | cloud/triton/public/resources/resourcegroup.go:194-201 | a failed Apply never writes the pool identifier |
| `Resources.ApplyMasterNeverMissesIP` | cloud/triton/public/resources/resourcegroup.go:178-190 | once the master's instance is created and its poll reports no error, Apply succeeds: the empty-list check cannot fire |
| `Resources.ImmutableRender` | cloud/triton/public/resources/resourcegroup.go:226-235 | the same cluster comes back, with the resource's name and a fresh provider config whose group identifier is the resource's identifier |
| `Resources.Delete` | cloud/triton/public/resources/resourcegroup.go:208-224 | no identifier: error with the resource's name, cluster untouched. Otherwise: the declared name and tags with an empty identifier; the cluster takes that name and a fresh provider config with group identifier "" |
| `Clusters.NewProviderConfig` | cloud/triton/public/resources/resourcegroup.go:230-231 | a fresh provider config is empty except for the group identifier it is given |

## Left out

- `cloud/triton/tritonSDK/sdk.go` (credential and signer setup from environment variables and key files) is not part of this model: it is I/O with no logic the reconciler depends on.
- The triton-go client. Its answers are inputs. The errors of `Images().List` and `Network.List` are only logged by the code, so the model takes just the list each one returned.
- Logging and the debug JSON marshal, `time.Sleep` and `MasterIPSleepSecondsPerAttempt`. Time is not modelled, and the attempt bound is.
- `compare.IsEqual` is an input function (`isEqual`) of the actual and the expected resource. What it compares, for instance whether it looks at the server pool pointer, is not part of this model.
- `script.BuildBootstrapScript` is an input function of the pool's script list, the cluster name and the provider config. Since the provider config it sees is the one after the writes, the order "inject, then render" is captured.
- Go nil-pointer panics are preconditions, not behaviour:
  - the instance dereferenced before the error check in `Actual`;
  - the instance read when the poller gets no error;
  - `net1`/`net2` when no network matched, but only when Apply gets as far as the create request (`ReachesCreate`);
  - `r.ServerPool`, which Apply dereferences only after the comparison (`:108`). `Apply` requires it on every path;
  - `expected.ServerPool`, which Apply dereferences only on success. `Apply` requires it on every path. The results of `Expected` always satisfy this, because `Expected` copies the declared resource's pool, which it requires in turn.
- The failed type assertions on `cloud.Resource` are ruled out by typing.
- `cluster.ProviderConfig()` and `SetProviderConfig` belong to the cluster package, which is not part of this model. They are modelled as reading and writing the provider config stored in the cluster, so writes through the returned config persist. The code itself points the other way. At `resourcegroup.go:114-116` and `:118-120` it reads the config, changes one item and then calls `SetProviderConfig`, which is how a getter returning a copy is used. The endpoint writes at `:113` and `:189` have no `SetProviderConfig` after them. If the getter returns a copy, neither endpoint is ever stored, and the model does not show that. The endpoint clauses of the members below hold only under the stored-config reading:
- Resources.PreCreateWrites: its clause "a worker pool's endpoint = first address from its polls of its own identifier" holds only if `ProviderConfig()` returns the stored config (`:113`); with a copy the endpoint keeps its old value. The INJECTEDMASTER and INJECTEDPORT clauses go through `SetProviderConfig` and hold either way.
- Resources.WritePreCreate: its new config includes the worker's endpoint write at `:113`, which persists only if `ProviderConfig()` returns the stored config.
- Resources.ApplyInjects: its clause "a worker has endpoint = first address from its polls" holds only if `ProviderConfig()` returns the stored config (`:113`, against the Set pattern at `:114-120`).
- Resources.ApplySucceeds: its clause "a master's endpoint is the first address polled from the new instance" holds only if `ProviderConfig()` returns the stored config (`:189`, against the Set pattern at `:114-120`).
- Resources.FinishCreate: its master endpoint write (`:189`) persists only if `ProviderConfig()` returns the stored config.
- Resources.Converge: its `c.config == e.config` includes the worker's endpoint write at `:113` (through `WritePreCreate`) and the master's at `:189` (through `FinishCreate`), which persist only if `ProviderConfig()` returns the stored config.
- Resources.Apply: its `c.config == e.config` carries the same endpoint writes from `:113` and `:189`, which persist only if `ProviderConfig()` returns the stored config.
- A nil `Values` or `ItemMap` in the provider config is not modelled: the item map is always a map.
- Only the provider-config fields the reconciler touches are modelled (endpoint, port, item map, group identifier). The other fields are not.
- The poller reads one reply per attempt from a sequence of at least 100 replies. `PollReady` demands that each of the first 100 carries an error or an instance, including those after the first decisive one, which the poller never reads. Their contents have no effect on the result.
