/** The execution-layer configuration: an immutable record of the spec, the
    engine endpoint, the engine API version, the JWT secret file and the
    builder endpoint, made by a fluent `Builder` class. Setters normalise
    nullable strings to Optionals and drop blank JWT paths; `build()` refuses
    a mix of stubbed and real endpoints; the finished configuration throws
    when its mandatory engine endpoint is read but absent. */
module ExecutionLayerConfig {
  import opened Common

  /** The endpoint value that selects the stubbed execution layer
      (`ExecutionLayerChannel.STUB_ENDPOINT_IDENTIFIER`). Its text is defined
      outside this model, so the constant is left without a value: every
      property holds whatever the text is. */
  const STUB_ENDPOINT_IDENTIFIER: string

  /** An engine API version, seen only through its identity. */
  datatype Version = Version(id: nat)

  /** The version a builder starts with (`Version.DEFAULT_VERSION`), defined
      outside this model and left without a value. */
  const DEFAULT_VERSION: Version

  /** The chain specification, seen only through its identity. */
  datatype Spec = Spec(id: nat)

  /** The fork milestones up to the one that introduces the execution layer. */
  datatype SpecMilestone = Phase0 | Altair | Bellatrix

  /** The exceptions the configuration throws. */
  datatype ConfigError =
    | EngineEndpointMandatory   // InvalidConfigurationException from getEngineEndpoint
    | MixedStubEndpoints        // IllegalStateException from checkState in build
    | SpecNotProvided           // NullPointerException: isEnabled on a null spec

  /** Java's `Character.isWhitespace`: the Unicode space, line and paragraph
      separators other than the non-breaking ones, and the ASCII controls
      U+0009 to U+000D and U+001C to U+001F. */
  predicate IsWhitespace(c: char) {
    || c == ' '
    || ('\t' <= c <= '\r')
    || ('\U{1C}' <= c <= '\U{1F}')
    || c == '\U{1680}'
    || ('\U{2000}' <= c <= '\U{2006}')
    || ('\U{2008}' <= c <= '\U{200A}')
    || c == '\U{2028}' || c == '\U{2029}'
    || c == '\U{205F}' || c == '\U{3000}'
  }

  /** `StringUtils.isBlank` on a non-null string; the empty string is blank. */
  predicate IsBlank(s: string) {
    forall i :: 0 <= i < |s| ==> IsWhitespace(s[i])
  }

  /** `Optional.ofNullable(path).filter(StringUtils::isNotBlank)`. */
  function NonBlank(path: Option<string>): (r: Option<string>)
    ensures r.None? <==> path.None? || IsBlank(path.value)
    ensures r.Some? ==> r == path
  {
    match path
    case Some(p) => if IsBlank(p) then None else Some(p)
    case None => None
  }

  /** Whether an endpoint selects the stub: an absent endpoint is not the
      stub, a present one is exactly when it equals the identifier. */
  function IsStub(endpoint: Option<string>): (stub: bool)
    ensures endpoint.None? ==> !stub
    ensures endpoint.Some? ==> (stub <==> endpoint.value == STUB_ENDPOINT_IDENTIFIER)
  {
    endpoint.Some? && endpoint.value == STUB_ENDPOINT_IDENTIFIER
  }

  /** `validateStubEndpoints`: the engine and the builder are both stubbed or
      both real, unless no builder endpoint is configured at all. */
  function StubEndpointsConsistent(engineEndpoint: Option<string>, builderEndpoint: Option<string>): (ok: bool)
    ensures builderEndpoint.None? ==> ok
    ensures builderEndpoint == Some(STUB_ENDPOINT_IDENTIFIER) ==> (ok <==> engineEndpoint == Some(STUB_ENDPOINT_IDENTIFIER))
    ensures builderEndpoint.Some? && builderEndpoint.value != STUB_ENDPOINT_IDENTIFIER
            ==> (ok <==> engineEndpoint != Some(STUB_ENDPOINT_IDENTIFIER))
  {
    IsStub(engineEndpoint) == IsStub(builderEndpoint) || builderEndpoint.None?
  }

  /** The immutable configuration `build()` returns. */
  datatype ExecutionLayerConfiguration = ExecutionLayerConfiguration(
    spec: Option<Spec>,
    engineEndpoint: Option<string>,
    engineVersion: Version,
    engineJwtSecretFile: Option<string>,
    builderEndpoint: Option<string>)
  {
    /** The engine endpoint is mandatory once it is asked for. */
    function GetEngineEndpoint(): (r: Result<string, ConfigError>)
      ensures r.Ok? <==> engineEndpoint.Some?
      ensures r.Ok? ==> Some(r.value) == engineEndpoint
      ensures r.Err? ==> r.error == EngineEndpointMandatory
    {
      match engineEndpoint
      case Some(e) => Ok(e)
      case None => Err(EngineEndpointMandatory)
    }

    /** Whether the spec schedules the Bellatrix milestone; the milestone
        query belongs to the spec and is a parameter here. */
    function IsEnabled(isMilestoneSupported: (Spec, SpecMilestone) -> bool): (r: Result<bool, ConfigError>)
      ensures r.Err? <==> spec.None?
      ensures r.Err? ==> r.error == SpecNotProvided
      ensures r.Ok? ==> r.value == isMilestoneSupported(spec.value, Bellatrix)
    {
      match spec
      case Some(s) => Ok(isMilestoneSupported(s, Bellatrix))
      case None => Err(SpecNotProvided)
    }
  }

  /** The builder's five fields; a null spec is `None`. */
  datatype Settings = Settings(
    spec: Option<Spec>,
    engineEndpoint: Option<string>,
    engineVersion: Version,
    engineJwtSecretFile: Option<string>,
    builderEndpoint: Option<string>)

  /** What every setter keeps: a stored JWT secret path is never blank. */
  predicate JwtPathNotBlank(s: Settings) {
    s.engineJwtSecretFile.Some? ==> !IsBlank(s.engineJwtSecretFile.value)
  }

  /** The field values of a fresh builder: no spec, no endpoints, no JWT
      secret file, the default version. */
  function Defaults(): Settings {
    Settings(None, None, DEFAULT_VERSION, None, None)
  }

  /** One fluent setter call, with its (possibly null) argument. */
  datatype Call =
    | SetSpecProvider(spec: Option<Spec>)
    | SetEngineEndpoint(engineEndpoint: Option<string>)
    | SetEngineVersion(version: Version)
    | SetEngineJwtSecretFile(jwtSecretFile: Option<string>)
    | SetBuilderEndpoint(builderEndpoint: Option<string>)

  // What a call stores in each field; None when it leaves that field alone.

  function SpecWritten(call: Call): Option<Option<Spec>> {
    if call.SetSpecProvider? then Some(call.spec) else None
  }

  function EngineEndpointWritten(call: Call): Option<Option<string>> {
    if call.SetEngineEndpoint? then Some(call.engineEndpoint) else None
  }

  function VersionWritten(call: Call): Option<Version> {
    if call.SetEngineVersion? then Some(call.version) else None
  }

  function JwtWritten(call: Call): Option<Option<string>> {
    if call.SetEngineJwtSecretFile? then Some(NonBlank(call.jwtSecretFile)) else None
  }

  function BuilderEndpointWritten(call: Call): Option<Option<string>> {
    if call.SetBuilderEndpoint? then Some(call.builderEndpoint) else None
  }

  /** The effect of one setter call: it overwrites exactly its own field, a
      JWT path after dropping a blank one. No setter throws. */
  function Step(s: Settings, call: Call): (t: Settings)
    ensures t.spec == SpecWritten(call).GetOr(s.spec)
    ensures t.engineEndpoint == EngineEndpointWritten(call).GetOr(s.engineEndpoint)
    ensures t.engineVersion == VersionWritten(call).GetOr(s.engineVersion)
    ensures t.engineJwtSecretFile == JwtWritten(call).GetOr(s.engineJwtSecretFile)
    ensures t.builderEndpoint == BuilderEndpointWritten(call).GetOr(s.builderEndpoint)
    ensures JwtPathNotBlank(s) ==> JwtPathNotBlank(t)
  {
    match call
    case SetSpecProvider(p) => s.(spec := p)
    case SetEngineEndpoint(e) => s.(engineEndpoint := e)
    case SetEngineVersion(v) => s.(engineVersion := v)
    case SetEngineJwtSecretFile(f) => s.(engineJwtSecretFile := NonBlank(f))
    case SetBuilderEndpoint(b) => s.(builderEndpoint := b)
  }

  /** A chain of setter calls, run in order. */
  function Run(s: Settings, calls: seq<Call>): (t: Settings)
    ensures JwtPathNotBlank(s) ==> JwtPathNotBlank(t)
    decreases |calls|
  {
    if calls == [] then s else Run(Step(s, calls[0]), calls[1..])
  }

  /** `build()`: refuses a mix of stubbed and real endpoints; otherwise the
      configuration holds exactly the builder's values. */
  function BuildOf(s: Settings): (r: Result<ExecutionLayerConfiguration, ConfigError>)
    ensures r.Ok? <==> s.builderEndpoint.None? || IsStub(s.engineEndpoint) == IsStub(s.builderEndpoint)
    ensures r.Err? ==> r.error == MixedStubEndpoints
    ensures r.Ok? ==> r.value.spec == s.spec
    ensures r.Ok? ==> r.value.engineEndpoint == s.engineEndpoint
    ensures r.Ok? ==> r.value.engineVersion == s.engineVersion
    ensures r.Ok? ==> r.value.engineJwtSecretFile == s.engineJwtSecretFile
    ensures r.Ok? ==> r.value.builderEndpoint == s.builderEndpoint
  {
    if StubEndpointsConsistent(s.engineEndpoint, s.builderEndpoint) then
      Ok(ExecutionLayerConfiguration(s.spec, s.engineEndpoint, s.engineVersion, s.engineJwtSecretFile, s.builderEndpoint))
    else
      Err(MixedStubEndpoints)
  }

  class Builder {
    var spec: Option<Spec>
    var engineEndpoint: Option<string>
    var engineVersion: Version
    var engineJwtSecretFile: Option<string>
    var builderEndpoint: Option<string>

    /** The five fields as one value. */
    function State(): Settings
      reads this
    {
      Settings(spec, engineEndpoint, engineVersion, engineJwtSecretFile, builderEndpoint)
    }

    predicate Valid()
      reads this
    {
      JwtPathNotBlank(State())
    }

    /** `ExecutionLayerConfiguration.builder()`. */
    constructor ()
      ensures Valid()
      ensures State() == Defaults()
    {
      spec := None;
      engineEndpoint := None;
      engineVersion := DEFAULT_VERSION;
      engineJwtSecretFile := None;
      builderEndpoint := None;
    }

    method Build() returns (r: Result<ExecutionLayerConfiguration, ConfigError>)
      requires Valid()
      ensures r == BuildOf(State())
      ensures r.Ok? && r.value.engineJwtSecretFile.Some? ==> !IsBlank(r.value.engineJwtSecretFile.value)
    {
      if !StubEndpointsConsistent(engineEndpoint, builderEndpoint) {
        return Err(MixedStubEndpoints);
      }
      r := Ok(ExecutionLayerConfiguration(spec, engineEndpoint, engineVersion, engineJwtSecretFile, builderEndpoint));
    }

    method EngineEndpoint(endpoint: Option<string>) returns (self: Builder)
      requires Valid()
      modifies this
      ensures self == this && Valid()
      ensures State() == Step(old(State()), SetEngineEndpoint(endpoint))
    {
      engineEndpoint := endpoint;
      self := this;
    }

    method EngineVersion(version: Version) returns (self: Builder)
      requires Valid()
      modifies this
      ensures self == this && Valid()
      ensures State() == Step(old(State()), SetEngineVersion(version))
    {
      engineVersion := version;
      self := this;
    }

    method SpecProvider(p: Option<Spec>) returns (self: Builder)
      requires Valid()
      modifies this
      ensures self == this && Valid()
      ensures State() == Step(old(State()), SetSpecProvider(p))
    {
      spec := p;
      self := this;
    }

    method EngineJwtSecretFile(jwtSecretFile: Option<string>) returns (self: Builder)
      requires Valid()
      modifies this
      ensures self == this && Valid()
      ensures State() == Step(old(State()), SetEngineJwtSecretFile(jwtSecretFile))
    {
      engineJwtSecretFile := NonBlank(jwtSecretFile);
      self := this;
    }

    method BuilderEndpoint(endpoint: Option<string>) returns (self: Builder)
      requires Valid()
      modifies this
      ensures self == this && Valid()
      ensures State() == Step(old(State()), SetBuilderEndpoint(endpoint))
    {
      builderEndpoint := endpoint;
      self := this;
    }
  }

  // ---------------------------------------------------------------------------
  // Properties

  /** The stub rule case by case: with a builder endpoint configured, build
      succeeds exactly when both endpoints are the stub, or the builder is
      real and the engine is not the stub (absent or real). */
  lemma StubRuleCases(engine: Option<string>, builder: Option<string>)
    ensures StubEndpointsConsistent(engine, builder) <==>
      || builder.None?
      || (builder == Some(STUB_ENDPOINT_IDENTIFIER) && engine == Some(STUB_ENDPOINT_IDENTIFIER))
      || (builder.Some? && builder.value != STUB_ENDPOINT_IDENTIFIER
          && (engine.None? || engine.value != STUB_ENDPOINT_IDENTIFIER))
  {
  }

  /** The rejected mixes: a stub builder with an absent or real engine, and a
      real builder with a stub engine. An absent builder always passes. */
  lemma MixedStubEndpointsRejected(s: Settings, endpoint: string)
    requires endpoint != STUB_ENDPOINT_IDENTIFIER
    ensures BuildOf(s.(engineEndpoint := None, builderEndpoint := Some(STUB_ENDPOINT_IDENTIFIER))) == Err(MixedStubEndpoints)
    ensures BuildOf(s.(engineEndpoint := Some(endpoint), builderEndpoint := Some(STUB_ENDPOINT_IDENTIFIER))) == Err(MixedStubEndpoints)
    ensures BuildOf(s.(engineEndpoint := Some(STUB_ENDPOINT_IDENTIFIER), builderEndpoint := Some(endpoint))) == Err(MixedStubEndpoints)
    ensures BuildOf(s.(builderEndpoint := None)).Ok?
  {
  }

  /** A fresh builder builds, and the result has no engine endpoint to give. */
  lemma FreshBuilderBuilds()
    ensures BuildOf(Defaults()).Ok?
    ensures BuildOf(Defaults()).value.GetEngineEndpoint() == Err(EngineEndpointMandatory)
    ensures BuildOf(Defaults()).value.engineVersion == DEFAULT_VERSION
  {
  }

  /** Blank paths, the empty one included, are dropped; others kept verbatim. */
  lemma BlankJwtPathsDropped(path: string)
    ensures NonBlank(Some("")) == None
    ensures NonBlank(Some(" \t\n")) == None
    ensures NonBlank(Some(path)) == Some(path) <==> exists i :: 0 <= i < |path| && !IsWhitespace(path[i])
    ensures NonBlank(Some(path)) == None <==> forall i :: 0 <= i < |path| ==> IsWhitespace(path[i])
  {
  }

  /** Running one more call is running the chain, then that call. */
  lemma {:induction false} RunSnoc(s: Settings, calls: seq<Call>, c: Call)
    ensures Run(s, calls + [c]) == Step(Run(s, calls), c)
    decreases |calls|
  {
    if calls == [] {
      assert [c][1..] == [];
    } else {
      assert (calls + [c])[1..] == calls[1..] + [c];
      RunSnoc(Step(s, calls[0]), calls[1..], c);
    }
  }

  /** Last write wins: after a chain of calls, every field holds what the
      last call that wrote it stored, or its earlier value if none did. */
  lemma {:induction false} RunIsLastWrite(s: Settings, calls: seq<Call>)
    ensures Run(s, calls) == Settings(
      LastWritten(calls, SpecWritten, s.spec),
      LastWritten(calls, EngineEndpointWritten, s.engineEndpoint),
      LastWritten(calls, VersionWritten, s.engineVersion),
      LastWritten(calls, JwtWritten, s.engineJwtSecretFile),
      LastWritten(calls, BuilderEndpointWritten, s.builderEndpoint))
    decreases |calls|
  {
    if calls != [] {
      var n := |calls| - 1;
      var prefix, c := calls[..n], calls[n];
      assert calls == prefix + [c];
      RunSnoc(s, prefix, c);
      RunIsLastWrite(s, prefix);
      LastWrittenSnoc(prefix, c, SpecWritten, s.spec);
      LastWrittenSnoc(prefix, c, EngineEndpointWritten, s.engineEndpoint);
      LastWrittenSnoc(prefix, c, VersionWritten, s.engineVersion);
      LastWrittenSnoc(prefix, c, JwtWritten, s.engineJwtSecretFile);
      LastWrittenSnoc(prefix, c, BuilderEndpointWritten, s.builderEndpoint);
    }
  }

  /** A fresh builder followed by a chain of calls: build succeeds exactly when
      the endpoints the chain left are consistent, and reading the engine
      endpoint of the result throws exactly when no call set a non-null one
      last. A stored JWT path is never blank. */
  lemma BuildAfterCalls(calls: seq<Call>)
    ensures var engine := LastWritten(calls, EngineEndpointWritten, None);
            var builder := LastWritten(calls, BuilderEndpointWritten, None);
            BuildOf(Run(Defaults(), calls)).Ok? <==> builder.None? || IsStub(engine) == IsStub(builder)
    ensures BuildOf(Run(Defaults(), calls)).Ok? ==>
      var config := BuildOf(Run(Defaults(), calls)).value;
      && (config.GetEngineEndpoint().Err? <==>
            NoWrite(calls, EngineEndpointWritten) || exists i :: IsLastWrite(calls, EngineEndpointWritten, i, None))
      && (config.engineJwtSecretFile.Some? ==> !IsBlank(config.engineJwtSecretFile.value))
  {
    RunIsLastWrite(Defaults(), calls);
    var engine := LastWritten(calls, EngineEndpointWritten, None);
    if !NoWrite(calls, EngineEndpointWritten) {
      // The last write is unique, so it is `None` exactly when the field is.
      var k :| IsLastWrite(calls, EngineEndpointWritten, k, engine);
      forall i | IsLastWrite(calls, EngineEndpointWritten, i, None)
        ensures engine == None
      {
        LastWriteUnique(calls, EngineEndpointWritten, i, None, k, engine);
      }
    }
  }
}
