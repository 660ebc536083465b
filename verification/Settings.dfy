/** Ports, system properties and the two configuration maps built from a spec. */
module Settings {
  import opened PrestoTypes
  import opened Naming
  import opened Properties
  import opened Text

  /** Code the operator calls and this model does not look into. */
  datatype Library = Library(
    parse: string -> Result<Quantity, string>,
    jvmDefaults: string,
    script: string -> string)

  const PRESTO_PORT := 8080
  const HTTPS_PATH := "/etc/httpssecret"

  const HTTP_PORT := "http-server.http.port"
  const HTTPS_PORT := "http-server.https.port"
  const DISCOVERY_URI := "discovery.uri"
  const KEYSTORE_PATH := "http-server.https.keystore.path"

  const NODE_FILE := "node.properties"
  const CONFIG_FILE := "config.properties"
  const JVM_FILE := "jvm.config"
  const SCRIPT_FILE := "presto_shutdown.sh"

  // ---------------------------------------------------------------- ports

  /** getHTTPPort: the coordinator's HTTP port, and its HTTPS port or -1. */
  function HttpPorts(spec: PrestoSpec): (int, int) {
    var port := if spec.service.port.Some? then spec.service.port.value else PRESTO_PORT;
    if spec.coordinator.httpsEnabled
    then (if port == PRESTO_PORT then PRESTO_PORT + 1 else PRESTO_PORT, port)
    else (port, -1)
  }

  function ServicePortOf(spec: PrestoSpec): ServicePort {
    var port := if spec.service.port.Some? then spec.service.port.value else PRESTO_PORT;
    var nodePort := if spec.service.serviceType != "ClusterIP" then spec.service.nodePort else None;
    ServicePort("presto-coordinator-port", port, nodePort, port)
  }

  function CoordinatorUri(u: string, spec: PrestoSpec): string
    requires Sliceable(u)
  {
    "http://" + CoordinatorInternalName(u) + ":" + Decimal(HttpPorts(spec).0)
  }

  // ---------------------------------------------------------------- system properties

  function OperatorError(msg: string): Error {
    Error(OtherReason, msg)
  }

  /** getSystemProps for a coordinator; its discovery URI ends in a newline. */
  function SystemProps(u: string, spec: PrestoSpec): Result<map<string, string>, Error>
    requires Sliceable(u)
  {
    var c := spec.coordinator;
    if !c.httpsEnabled then
      Ok(map[
        "coordinator" := "true",
        HTTP_PORT := Decimal(HttpPorts(spec).0),
        "node.internal-address" := CoordinatorInternalName(u),
        DISCOVERY_URI := CoordinatorUri(u, spec) + "\n",
        "node-scheduler.include-coordinator" := "false",
        "discovery-server.enabled" := "true",
        "http-server.https.enabled" := "false"])
    else if c.httpsPassword == "" then
      Err(OperatorError("HttpsKeyPairPassword has to be specified when HTTPS is enabled"))
    else if c.httpsSecretKey == "" then
      Err(OperatorError("HttpsKeyPairSecretKey has to be specified when HTTPS is enabled"))
    else if c.httpsSecretName == "" then
      Err(OperatorError("HttpsKeyPairSecretName has to be specified when HTTPS is enabled"))
    else
      Ok(map[
        "coordinator" := "true",
        "node.internal-address" := CoordinatorInternalName(u),
        DISCOVERY_URI := CoordinatorUri(u, spec) + "\n",
        "node-scheduler.include-coordinator" := "false",
        "discovery-server.enabled" := "true",
        "http-server.http.enabled" := "true",
        "http-server.https.enabled" := "true",
        HTTPS_PORT := Decimal(HttpPorts(spec).1),
        HTTP_PORT := Decimal(HttpPorts(spec).0),
        KEYSTORE_PATH := HTTPS_PATH + "/" + c.httpsSecretKey,
        "http-server.https.keystore.key" := c.httpsPassword])
  }

  function WorkerProps(u: string, spec: PrestoSpec): map<string, string>
    requires Sliceable(u)
  {
    map["coordinator" := "false", HTTP_PORT := Decimal(PRESTO_PORT), DISCOVERY_URI := CoordinatorUri(u, spec)]
  }

  function PropsFor(coordinator: bool, u: string, spec: PrestoSpec): Result<map<string, string>, Error>
    requires Sliceable(u)
  {
    if coordinator then SystemProps(u, spec) else Ok(WorkerProps(u, spec))
  }

  function AdditionalFor(coordinator: bool, spec: PrestoSpec): map<string, string> {
    if coordinator then spec.coordinator.additionalProps else spec.worker.additionalProps
  }

  /** The service sends to the port the coordinator listens on, and the workers call the coordinator's HTTP port. */
  lemma PortsAgree(u: string, spec: PrestoSpec)
    requires Sliceable(u) && SystemProps(u, spec).Ok?
    ensures
      var props, https := SystemProps(u, spec).value, spec.coordinator.httpsEnabled;
      && HTTP_PORT in props && DISCOVERY_URI in props
      && (HTTPS_PORT in props <==> https)
      && (https ==> Value(props[HTTPS_PORT]) == ServicePortOf(spec).targetPort)
      && (https ==> Value(props[HTTP_PORT]) != Value(props[HTTPS_PORT]))
      && (!https ==> Value(props[HTTP_PORT]) == ServicePortOf(spec).targetPort)
      && WorkerProps(u, spec)[DISCOVERY_URI] == "http://" + CoordinatorInternalName(u) + ":" + props[HTTP_PORT]
      && props[DISCOVERY_URI] == WorkerProps(u, spec)[DISCOVERY_URI] + "\n"
  {
    hide Decimal, Value, CoordinatorInternalName;
    ValueOfDecimal(HttpPorts(spec).0);
    ValueOfDecimal(HttpPorts(spec).1);
  }

  // ---------------------------------------------------------------- the properties read back

  predicate OneLine(s: string) {
    '\n' !in s
  }

  /** The strings of the spec that end up inside system values. */
  predicate PlainStrings(u: string, c: CoordinatorSpec)
    requires Sliceable(u)
  {
    OneLine(Short(u)) && OneLine(c.httpsSecretKey) && OneLine(c.httpsPassword)
  }

  predicate PlainKey(k: string) {
    '=' !in k && '\n' !in k
  }

  predicate PlainProps(props: map<string, string>) {
    && (forall k :: k in props ==> PlainKey(k))
    && (forall k :: k in props ==> OneLine(props[k]))
  }

  lemma PlainIsTame(props: map<string, string>)
    requires PlainProps(props)
    ensures Tame(props) && StripAll(props) == props
  {
    forall k | k in props
      ensures Stripped(props[k]) == props[k]
    {
    }
  }

  lemma UriIsPlain(u: string, spec: PrestoSpec)
    requires Sliceable(u) && OneLine(Short(u))
    ensures OneLine(CoordinatorInternalName(u)) && OneLine(CoordinatorUri(u, spec))
  {
  }

  lemma PortKeysPlain()
    ensures PlainKey("coordinator") && PlainKey(DISCOVERY_URI)
    ensures PlainKey(HTTP_PORT) && PlainKey(HTTPS_PORT)
  {
  }

  lemma NodeKeysPlain()
    ensures PlainKey("node.internal-address") && PlainKey("discovery-server.enabled")
  {
  }

  lemma SchedulerKeyPlain()
    ensures PlainKey("node-scheduler.include-coordinator")
  {
  }

  lemma HttpsKeysPlain()
    ensures PlainKey("http-server.https.enabled") && PlainKey("http-server.http.enabled")
    ensures PlainKey(KEYSTORE_PATH) && PlainKey("http-server.https.keystore.key")
  {
  }

  lemma SystemValuesPlain(u: string, spec: PrestoSpec)
    requires Sliceable(u) && PlainStrings(u, spec.coordinator)
    ensures OneLine("true") && OneLine("false") && OneLine(Decimal(PRESTO_PORT))
    ensures OneLine(Decimal(HttpPorts(spec).0)) && OneLine(Decimal(HttpPorts(spec).1))
    ensures OneLine(HTTPS_PATH + "/" + spec.coordinator.httpsSecretKey)
  {
    hide Digits;
  }

  lemma WorkerPropsPlain(u: string, spec: PrestoSpec)
    requires Sliceable(u) && OneLine(Short(u))
    ensures PlainProps(WorkerProps(u, spec))
  {
    hide CoordinatorUri, Decimal, PlainKey;
    UriIsPlain(u, spec);
    PortKeysPlain();
  }

  lemma SystemPropsPlain(u: string, spec: PrestoSpec)
    requires Sliceable(u) && PlainStrings(u, spec.coordinator) && SystemProps(u, spec).Ok?
    ensures DISCOVERY_URI in SystemProps(u, spec).value
    ensures SystemProps(u, spec).value[DISCOVERY_URI] == CoordinatorUri(u, spec) + "\n"
    ensures PlainProps(SystemProps(u, spec).value[DISCOVERY_URI := CoordinatorUri(u, spec)])
  {
    hide CoordinatorUri, Decimal, CoordinatorInternalName, PlainKey, OneLine, HttpPorts;
    UriIsPlain(u, spec);
    PortKeysPlain();
    NodeKeysPlain();
    SchedulerKeyPlain();
    HttpsKeysPlain();
    SystemValuesPlain(u, spec);
  }

  // ---------------------------------------------------------------- the configuration maps

  const NODE_PROPS := "node.environment=prestoproduction\nnode.data-dir=/data/presto\n"

  /** Go's integer division rounds toward zero. */
  function TruncDiv(a: int, b: int): int
    requires b > 0
  {
    if a >= 0 then a / b else -(-a / b)
  }

  function MemoryFor(coordinator: bool, spec: PrestoSpec): string {
    if coordinator then spec.coordinator.memoryLimit else spec.worker.memoryLimit
  }

  function JvmFor(coordinator: bool, spec: PrestoSpec, memory: Quantity, lib: Library): string {
    var more := if coordinator then spec.coordinator.additionalJvm else spec.worker.additionalJvm;
    lib.jvmDefaults + "-Xmx" + Decimal(TruncDiv(TruncDiv(memory.value, 1024), 1024)) + "m\n"
    + if more != "" then more + "\n" else ""
  }

  function MemoryError(coordinator: bool, spec: PrestoSpec, why: string): Error {
    OperatorError("cannot parse presto.Spec." + (if coordinator then "Coordinator" else "Worker") + ".MemoryLimit: '"
      + MemoryFor(coordinator, spec) + "': " + why)
  }

  const MOUNT_PATH := "/etc/presto"

  function PrestoPath(spec: PrestoSpec): string {
    if spec.prestoPath == "" then MOUNT_PATH else spec.prestoPath
  }

  /** The files of the map once config.properties has been rendered; the user's files go on top. */
  function Files(coordinator: bool, text: string, memory: Quantity, spec: PrestoSpec, lib: Library)
    : map<string, string>
  {
    map[NODE_FILE := NODE_PROPS,
        CONFIG_FILE := text,
        JVM_FILE := JvmFor(coordinator, spec, memory, lib),
        SCRIPT_FILE := lib.script(PrestoPath(spec))] + spec.propFiles
  }

  /** When a configuration map can be built, in terms of the spec alone. */
  predicate Buildable(coordinator: bool, u: string, spec: PrestoSpec, lib: Library)
    requires Sliceable(u)
  {
    && PropsFor(coordinator, u, spec).Ok?
    && (forall k :: k in AdditionalFor(coordinator, spec) ==> k !in PropsFor(coordinator, u, spec).value)
    && lib.parse(MemoryFor(coordinator, spec)).Ok?
  }

  /** The error of a configuration map that cannot be built. */
  function BuildError(coordinator: bool, u: string, spec: PrestoSpec, lib: Library): Error
    requires Sliceable(u) && !Buildable(coordinator, u, spec, lib)
  {
    var props := PropsFor(coordinator, u, spec);
    if props.Err? then props.error
    else if exists k :: k in AdditionalFor(coordinator, spec) && k in props.value then SYSTEM_PROPERTY
    else MemoryError(coordinator, spec, lib.parse(MemoryFor(coordinator, spec)).error)
  }

  /** The result of buildConfigMap, whatever order the maps were ranged over in. */
  ghost predicate Built(r: Result<map<string, string>, Error>, coordinator: bool, u: string, spec: PrestoSpec,
                        lib: Library)
    requires Sliceable(u)
  {
    && (r.Ok? <==> Buildable(coordinator, u, spec, lib))
    && (r.Ok? ==> exists text ::
          && RendersBoth(text, PropsFor(coordinator, u, spec).value, AdditionalFor(coordinator, spec))
          && r.value == Files(coordinator, text, lib.parse(MemoryFor(coordinator, spec)).value, spec, lib))
  }

  /** A range over one map that assigns into another. */
  method Overlay(base: map<string, string>, over: map<string, string>) returns (files: map<string, string>)
    ensures files == base + over
  {
    files := base;
    var rest := over.Keys;
    while rest != {}
      invariant rest <= over.Keys
      invariant files.Keys == base.Keys + (over.Keys - rest)
      invariant forall k :: k in files ==> files[k] == if k in over && k !in rest then over[k] else base[k]
    {
      var k :| k in rest;
      files := files[k := over[k]];
      rest := rest - {k};
    }
  }

  method BuildConfigMap(coordinator: bool, u: string, spec: PrestoSpec, lib: Library)
    returns (r: Result<map<string, string>, Error>)
    requires Sliceable(u)
    ensures Built(r, coordinator, u, spec, lib)
    ensures r.Err? ==> r.error == BuildError(coordinator, u, spec, lib)
  {
    var props := PropsFor(coordinator, u, spec);
    if props.Err? {
      return Err(props.error);
    }
    var text := WriteConfig(props.value, AdditionalFor(coordinator, spec));
    if text.Err? {
      return Err(text.error);
    }
    var memory := lib.parse(MemoryFor(coordinator, spec));
    if memory.Err? {
      return Err(MemoryError(coordinator, spec, memory.error));
    }
    var files := Overlay(
      map[NODE_FILE := NODE_PROPS,
          CONFIG_FILE := text.value,
          JVM_FILE := JvmFor(coordinator, spec, memory.value, lib),
          SCRIPT_FILE := lib.script(PrestoPath(spec))],
      spec.propFiles);
    return Ok(files);
  }

  // ---------------------------------------------------------------- round trip

  /** The system properties as a reader of the file sees them. */
  function PropsRead(coordinator: bool, u: string, spec: PrestoSpec): map<string, string>
    requires Sliceable(u) && PropsFor(coordinator, u, spec).Ok?
  {
    PropsFor(coordinator, u, spec).value[DISCOVERY_URI := CoordinatorUri(u, spec)]
  }

  lemma PropsReadIsStripped(coordinator: bool, u: string, spec: PrestoSpec)
    requires Sliceable(u) && OneLine(Short(u)) && PropsFor(coordinator, u, spec).Ok?
    requires coordinator ==> PlainStrings(u, spec.coordinator)
    ensures Tame(PropsFor(coordinator, u, spec).value)
    ensures StripAll(PropsFor(coordinator, u, spec).value) == PropsRead(coordinator, u, spec)
  {
    hide CoordinatorUri, PlainKey, OneLine, WorkerProps, SystemProps;
    var props, read := PropsFor(coordinator, u, spec).value, PropsRead(coordinator, u, spec);
    if coordinator {
      SystemPropsPlain(u, spec);
    } else {
      WorkerPropsPlain(u, spec);
      WorkerUri(u, spec);
    }
    PlainIsTame(read);
    UriStripped(CoordinatorUri(u, spec));
    forall k | k in props
      ensures k in read && Stripped(props[k]) == Stripped(read[k]) == read[k]
    {
      assert StripAll(read)[k] == Stripped(read[k]);
    }
  }

  lemma WorkerUri(u: string, spec: PrestoSpec)
    requires Sliceable(u)
    ensures DISCOVERY_URI in WorkerProps(u, spec) && WorkerProps(u, spec)[DISCOVERY_URI] == CoordinatorUri(u, spec)
  {
  }

  lemma UriStripped(uri: string)
    ensures Stripped(uri + "\n") == uri
  {
  }

  /**
   Reading config.properties back gives the system and the additional properties, disjoint, with
   nothing lost but the newline at the end of the coordinator's discovery URI.
   */
  lemma ConfigReadsBack(r: Result<map<string, string>, Error>, coordinator: bool, u: string, spec: PrestoSpec,
                        lib: Library)
    requires Sliceable(u) && OneLine(Short(u))
    requires Built(r, coordinator, u, spec, lib) && r.Ok? && CONFIG_FILE !in spec.propFiles
    requires PlainProps(AdditionalFor(coordinator, spec))
    requires coordinator ==> PlainStrings(u, spec.coordinator)
    ensures CONFIG_FILE in r.value
    ensures Parse(r.value[CONFIG_FILE]) == PropsRead(coordinator, u, spec) + AdditionalFor(coordinator, spec)
    ensures PropsRead(coordinator, u, spec).Keys !! AdditionalFor(coordinator, spec).Keys
  {
    hide PlainProps, Tame, Parse, StripAll, CoordinatorUri, SystemProps, WorkerProps, OneLine, PlainStrings;
    var props, more := PropsFor(coordinator, u, spec).value, AdditionalFor(coordinator, spec);
    var text :| RendersBoth(text, props, more)
      && r.value == Files(coordinator, text, lib.parse(MemoryFor(coordinator, spec)).value, spec, lib);
    FilesHoldText(coordinator, text, lib.parse(MemoryFor(coordinator, spec)).value, spec, lib);
    PropsReadIsStripped(coordinator, u, spec);
    PlainIsTame(more);
    RoundTrip(text, props, more);
    HasUri(coordinator, u, spec);
  }

  lemma HasUri(coordinator: bool, u: string, spec: PrestoSpec)
    requires Sliceable(u) && PropsFor(coordinator, u, spec).Ok?
    ensures DISCOVERY_URI in PropsFor(coordinator, u, spec).value
  {
  }

  lemma FilesHoldText(coordinator: bool, text: string, memory: Quantity, spec: PrestoSpec, lib: Library)
    ensures CONFIG_FILE in Files(coordinator, text, memory, spec, lib)
    ensures Files(coordinator, text, memory, spec, lib)[CONFIG_FILE]
         == if CONFIG_FILE in spec.propFiles then spec.propFiles[CONFIG_FILE] else text
  {
  }
}
