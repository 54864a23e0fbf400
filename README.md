# Teku configuration builders, modelled in Dafny

This project models two configuration builders of the Teku beacon-chain node.

- `ProtoArrayBuilder` collects the settings that seed the fork-choice proto-array.
  These are the prune threshold, the justified and finalized checkpoints, and the initial epoch.
  Its checkpoint setters reject null, and `build()` rejects a checkpoint that was never supplied.
- `ExecutionLayerConfiguration.Builder` collects the settings of the execution layer.
  These are the spec, the engine endpoint, the engine API version, the JWT secret file and the builder endpoint.
  Its setters turn nullable strings into Optionals and drop blank JWT paths.
  `build()` refuses a mix of stubbed and real endpoints.
  The immutable configuration it returns throws when its mandatory engine endpoint is read but absent.

Files:

- `common.dfy` (module `Common`) holds what both builders share.
  This is Java's nullable references as `Option` and thrown exceptions as `Result.Err`.
  It also holds Java `int` as `Int32` and Teku's `UInt64`.
  `LastWritten` is the reference reading of "last write wins" over a chain of setter calls.
  It scans the chain from the end.
- `protoarray_builder.dfy` (module `ProtoArrayBuilding`) models `ProtoArrayBuilder.java`.
- `execution_layer_configuration.dfy` (module `ExecutionLayerConfig`) models `ExecutionLayerConfiguration.java`.

Each builder is a Dafny `class` with the source's mutable fields.
Each fluent setter is a method that assigns its field in place and returns `this`.
`State()` reads the fields as one value.
Each setter's postcondition ties the new `State()` to `Step` applied to the old one.
`Step` states, field by field, that a call writes its own field and leaves every other field alone.
`Run` replays a chain of setter calls in order.
The lemmas prove that `Run` agrees with the reference definition `LastWritten`, field by field.
From that they derive when `build()` succeeds after any chain of calls, and what it returns.
`build()` is a method that reads the fields and changes nothing.
It is specified by `BuildOf`, and the properties the source promises are proved about `BuildOf`.
The built `ProtoArray` is seen only through its four constructor arguments, and the `ExecutionLayerConfiguration` is immutable, so both are datatypes.

## Model

| member | source | states |
|---|---|---|
| `ProtoArrayBuilding.ProtoArrayBuilder.constructor` | storage/src/main/java/tech/pegasys/teku/storage/protoarray/ProtoArrayBuilder.java:24-28 | A fresh builder has the default prune threshold, no justified or finalized checkpoint, and the genesis epoch. |
| `ProtoArrayBuilding.FreshBuilderCannotBuild` | storage/src/main/java/tech/pegasys/teku/storage/protoarray/ProtoArrayBuilder.java:26-32 | Building with the values of a fresh builder throws the "justified checkpoint must be supplied" error. |
| `ProtoArrayBuilding.BuildOf` | storage/src/main/java/tech/pegasys/teku/storage/protoarray/ProtoArrayBuilder.java:30-34 | Fails with the justified error when no justified checkpoint is stored. Otherwise fails with the finalized error when no finalized checkpoint is stored. Succeeds exactly when both are stored. On success it carries exactly the current threshold, both checkpoints and the initial epoch. |
| `ProtoArrayBuilding.ProtoArrayBuilder.Build` | storage/src/main/java/tech/pegasys/teku/storage/protoarray/ProtoArrayBuilder.java:30-34 | Returns `BuildOf` of the current fields and changes nothing. |
| `ProtoArrayBuilding.BuildIgnoresPruneThreshold` | storage/src/main/java/tech/pegasys/teku/storage/protoarray/ProtoArrayBuilder.java:30-39 | The prune threshold is never validated: whether `build` succeeds does not depend on it. |
| `ProtoArrayBuilding.InitialEpochOf` | storage/src/main/java/tech/pegasys/teku/storage/protoarray/ProtoArrayBuilder.java:58-63 | `initialCheckpoint` picks the checkpoint's epoch when one is present, and GENESIS_EPOCH when the Optional is empty. |
| `ProtoArrayBuilding.Step` | storage/src/main/java/tech/pegasys/teku/storage/protoarray/ProtoArrayBuilder.java:36-63 | A setter call throws exactly when it passes a null checkpoint, with that checkpoint's error. Otherwise it writes its own field and leaves every other field as it was. |
| `ProtoArrayBuilding.Run` | storage/src/main/java/tech/pegasys/teku/storage/protoarray/ProtoArrayBuilder.java:46-56 | A chain of setter calls throws exactly when one of its calls passes a null checkpoint. |
| `ProtoArrayBuilding.ProtoArrayBuilder.PruneThreshold` | storage/src/main/java/tech/pegasys/teku/storage/protoarray/ProtoArrayBuilder.java:36-39 | Stores any `int` without validation, leaves the other fields alone and returns the same builder. |
| `ProtoArrayBuilding.ProtoArrayBuilder.InitialEpoch` | storage/src/main/java/tech/pegasys/teku/storage/protoarray/ProtoArrayBuilder.java:41-44 | Stores the epoch, leaves the other fields alone and returns the same builder. |
| `ProtoArrayBuilding.ProtoArrayBuilder.JustifiedCheckpoint` | storage/src/main/java/tech/pegasys/teku/storage/protoarray/ProtoArrayBuilder.java:46-50 | Null is rejected with the justified error, and the builder is left exactly as it was. Otherwise it stores the checkpoint, changes nothing else and returns the same builder. |
| `ProtoArrayBuilding.ProtoArrayBuilder.FinalizedCheckpoint` | storage/src/main/java/tech/pegasys/teku/storage/protoarray/ProtoArrayBuilder.java:52-56 | Null is rejected with the finalized error, and the builder is left exactly as it was. Otherwise it stores the checkpoint, changes nothing else and returns the same builder. |
| `ProtoArrayBuilding.ProtoArrayBuilder.InitialCheckpoint` | storage/src/main/java/tech/pegasys/teku/storage/protoarray/ProtoArrayBuilder.java:58-63 | Goes through `InitialEpoch` with the checkpoint's epoch, or with GENESIS_EPOCH for an empty Optional, and returns the same builder. |
| `ProtoArrayBuilding.IndependentCallsCommute` | storage/src/main/java/tech/pegasys/teku/storage/protoarray/ProtoArrayBuilder.java:36-63 | Two calls that do not throw and assign different fields give the same builder in either order. |
| `ProtoArrayBuilding.LaterCallWins` | storage/src/main/java/tech/pegasys/teku/storage/protoarray/ProtoArrayBuilder.java:36-63 | Of two calls to the same field that do not throw, the first has no effect. `initialEpoch` and `initialCheckpoint` count as the same field. |
| `ProtoArrayBuilding.InitialCheckpointOverridesInitialEpoch` | storage/src/main/java/tech/pegasys/teku/storage/protoarray/ProtoArrayBuilder.java:41-63 | `initialCheckpoint` after `initialEpoch` decides the epoch in both branches. An empty Optional resets the epoch to genesis. |
| `ProtoArrayBuilding.RunIsLastWrite` | storage/src/main/java/tech/pegasys/teku/storage/protoarray/ProtoArrayBuilder.java:36-63 | After a chain that does not throw, each field holds the value of the last call that wrote it, or its earlier value if no call did. |
| `ProtoArrayBuilding.BuildAfterCalls` | storage/src/main/java/tech/pegasys/teku/storage/protoarray/ProtoArrayBuilder.java:24-63 | After a fresh builder and a chain that does not throw, `build` succeeds exactly when the chain called both `justifiedCheckpoint` and `finalizedCheckpoint`. The ProtoArray then carries the last value written to each field, or the default where no call wrote it. |
| `ExecutionLayerConfig.ExecutionLayerConfiguration.IsEnabled` | services/executionlayer/src/main/java/tech/pegasys/teku/services/executionlayer/ExecutionLayerConfiguration.java:51-53 | Asks the spec whether Bellatrix is supported. With no spec set it throws the null-spec error. |
| `ExecutionLayerConfig.ExecutionLayerConfiguration.GetEngineEndpoint` | services/executionlayer/src/main/java/tech/pegasys/teku/services/executionlayer/ExecutionLayerConfiguration.java:59-64 | Returns the stored endpoint when there is one. Throws the invalid-configuration error exactly when there is none. |
| `ExecutionLayerConfig.Builder.constructor` | services/executionlayer/src/main/java/tech/pegasys/teku/services/executionlayer/ExecutionLayerConfiguration.java:78-85 | A fresh builder has no spec, no engine endpoint, no JWT secret file, no builder endpoint and DEFAULT_VERSION. It satisfies the builder invariant that a stored JWT path is never blank. |
| `ExecutionLayerConfig.FreshBuilderBuilds` | services/executionlayer/src/main/java/tech/pegasys/teku/services/executionlayer/ExecutionLayerConfiguration.java:79-91 | A fresh builder builds with DEFAULT_VERSION. Reading the engine endpoint of the result throws. |
| `ExecutionLayerConfig.NonBlank` | services/executionlayer/src/main/java/tech/pegasys/teku/services/executionlayer/ExecutionLayerConfiguration.java:108-111 | A null or blank JWT path becomes empty. Any other path is kept unchanged. |
| `ExecutionLayerConfig.BlankJwtPathsDropped` | services/executionlayer/src/main/java/tech/pegasys/teku/services/executionlayer/ExecutionLayerConfiguration.java:108-111 | The empty path and an all-whitespace path are dropped. For every path: it is kept verbatim exactly when it has a non-whitespace character, and dropped exactly when every character is whitespace. |
| `ExecutionLayerConfig.Step` | services/executionlayer/src/main/java/tech/pegasys/teku/services/executionlayer/ExecutionLayerConfiguration.java:93-116 | A setter call writes its own field and leaves every other field as it was. Nullable endpoints are stored as given, and a JWT path is stored after the blank filter. The call keeps the invariant that a stored JWT path is not blank. |
| `ExecutionLayerConfig.Run` | services/executionlayer/src/main/java/tech/pegasys/teku/services/executionlayer/ExecutionLayerConfiguration.java:93-116 | Any chain of setter calls keeps the invariant that a stored JWT path is not blank. |
| `ExecutionLayerConfig.Builder.EngineEndpoint` | services/executionlayer/src/main/java/tech/pegasys/teku/services/executionlayer/ExecutionLayerConfiguration.java:93-96 | Stores the endpoint, empty for null. Leaves the other fields alone and returns the same builder. |
| `ExecutionLayerConfig.Builder.EngineVersion` | services/executionlayer/src/main/java/tech/pegasys/teku/services/executionlayer/ExecutionLayerConfiguration.java:98-101 | Stores the version, leaves the other fields alone and returns the same builder. |
| `ExecutionLayerConfig.Builder.SpecProvider` | services/executionlayer/src/main/java/tech/pegasys/teku/services/executionlayer/ExecutionLayerConfiguration.java:103-106 | Stores the spec, possibly null. Leaves the other fields alone and returns the same builder. |
| `ExecutionLayerConfig.Builder.EngineJwtSecretFile` | services/executionlayer/src/main/java/tech/pegasys/teku/services/executionlayer/ExecutionLayerConfiguration.java:108-111 | Stores the path after dropping a null or blank one. Leaves the other fields alone and returns the same builder. |
| `ExecutionLayerConfig.Builder.BuilderEndpoint` | services/executionlayer/src/main/java/tech/pegasys/teku/services/executionlayer/ExecutionLayerConfiguration.java:113-116 | Stores the endpoint, empty for null. Leaves the other fields alone and returns the same builder. |
| `ExecutionLayerConfig.BuildOf` | services/executionlayer/src/main/java/tech/pegasys/teku/services/executionlayer/ExecutionLayerConfiguration.java:87-127 | Succeeds exactly when the builder endpoint is empty, or the engine and builder endpoints are both the stub or both not the stub. Otherwise it throws the mixed-configuration error. On success the configuration's spec, engine endpoint, version, JWT file and builder endpoint are exactly the builder's. |
| `ExecutionLayerConfig.Builder.Build` | services/executionlayer/src/main/java/tech/pegasys/teku/services/executionlayer/ExecutionLayerConfiguration.java:87-91 | Returns `BuildOf` of the current fields and changes nothing. A configuration it returns never holds a blank JWT path. |
| `ExecutionLayerConfig.IsStub` | services/executionlayer/src/main/java/tech/pegasys/teku/services/executionlayer/ExecutionLayerConfiguration.java:119-122 | An endpoint is the stub only when it is present and equals `STUB_ENDPOINT_IDENTIFIER`. An absent endpoint is never the stub. |
| `ExecutionLayerConfig.StubEndpointsConsistent` | services/executionlayer/src/main/java/tech/pegasys/teku/services/executionlayer/ExecutionLayerConfiguration.java:118-127 | The stub rule `engineIsStub == builderIsStub || builderEndpoint.isEmpty()`. It holds when there is no builder endpoint. With a stub builder endpoint it holds exactly when the engine endpoint is the stub. With a real builder endpoint it holds exactly when the engine endpoint is not the stub. |
| `ExecutionLayerConfig.StubRuleCases` | services/executionlayer/src/main/java/tech/pegasys/teku/services/executionlayer/ExecutionLayerConfiguration.java:118-127 | The stub rule case by case. It holds when there is no builder endpoint. It holds when both endpoints are the stub. It holds when the builder is real and the engine is absent or real. It holds in no other case. |
| `ExecutionLayerConfig.MixedStubEndpointsRejected` | services/executionlayer/src/main/java/tech/pegasys/teku/services/executionlayer/ExecutionLayerConfiguration.java:118-127 | A stub builder with an absent or real engine is rejected. A real builder with a stub engine is rejected. An absent builder endpoint always passes. |
| `ExecutionLayerConfig.RunIsLastWrite` | services/executionlayer/src/main/java/tech/pegasys/teku/services/executionlayer/ExecutionLayerConfiguration.java:93-116 | After any chain of calls, each field holds what the last call that wrote it stored, or its earlier value if no call did. |
| `ExecutionLayerConfig.BuildAfterCalls` | services/executionlayer/src/main/java/tech/pegasys/teku/services/executionlayer/ExecutionLayerConfiguration.java:59-127 | After a fresh builder and any chain of calls, `build` succeeds exactly when the endpoints the chain left satisfy the stub rule. Reading the engine endpoint of the result then throws exactly when no call set it or the last call passed null. A built configuration never holds a blank JWT path. |

## Left out

- The `ProtoArray` constructor and the fork-choice algorithm are not part of this model. The built array is a record of the four constructor arguments.
- `PROTOARRAY_FORKCHOICE_PRUNE_THRESHOLD` (256) and `GENESIS_EPOCH` (0) are defined in `Constants` and `SpecConfig`. Those files are not part of this model, so the values are Teku's and the consensus specification's. No lemma depends on them.
- `STUB_ENDPOINT_IDENTIFIER` and `Version.DEFAULT_VERSION` are defined outside the model. Both constants are declared without a value, so every property holds whatever their values are.
- `Spec` is modelled only by its identity. `Spec.isMilestoneSupported` belongs to the spec, so `IsEnabled` takes it as a parameter.
- ExecutionLayerConfig.ExecutionLayerConfiguration.IsEnabled: models only the Bellatrix question and the null-spec failure, because the milestone schedule lives in the spec.
- Exceptions are modelled by their kind (`BuilderError`, `ConfigError`). Their message texts are not modelled.
- ProtoArrayBuilding.ProtoArrayBuilder.InitialEpoch: a null `UInt64` argument is not modelled. Java would store it and pass it on to the ProtoArray unchecked.
- ProtoArrayBuilding.ProtoArrayBuilder.InitialCheckpoint: a null `Optional` argument is not modelled, because `Option` stands for the `Optional` itself. Java throws a NullPointerException on it before touching any field.
- ProtoArrayBuilding.Run: when a call in the chain throws, the result is only the error. The fields that earlier calls in the chain already wrote are not returned, although the Java builder keeps them after the exception. The class methods do capture this: a rejected checkpoint setter leaves the builder exactly as it was.
- ExecutionLayerConfig.Builder.EngineVersion: a null `Version` argument is not modelled. Java would store it unchecked.
- The getters `getSpec`, `getEngineVersion`, `getEngineJwtSecretFile` and `getBuilderEndpoint` only return fields. They are the fields of the `ExecutionLayerConfiguration` datatype.
- The configuration's constructor is private in Java. A Dafny datatype constructor cannot be hidden, so nothing stops other code from building one directly.
- Java strings are UTF-16, while Dafny strings are Unicode scalar values. `IsWhitespace` follows `Character.isWhitespace` on the characters it lists. No surrogate and no supplementary character is whitespace, so the two readings of "blank" agree.
- Aliasing between builders is not modelled. Each setter's frame is its own builder (`modifies this`), and it returns that same builder.
