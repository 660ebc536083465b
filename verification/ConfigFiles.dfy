/** What the files of the two configuration maps say, in the words of the spec. */
module ConfigFiles {
  import opened PrestoTypes
  import opened Naming
  import opened Properties
  import opened Settings
  import opened Text

  /** The port clients use. */
  function ClientPort(spec: PrestoSpec): int {
    if spec.service.port.None? then 8080 else spec.service.port.value
  }

  /** The port workers use: the clients', unless that one speaks HTTPS. */
  function InternalPort(spec: PrestoSpec): int {
    if !spec.coordinator.httpsEnabled then ClientPort(spec) else if ClientPort(spec) == 8080 then 8081 else 8080
  }

  function HostOf(u: string): string
    requires |u| >= 8
  {
    "coordinatorcontainer-" + u[..8] + ".pod-discovery-" + u[..8]
  }

  function UriOf(u: string, spec: PrestoSpec): string
    requires |u| >= 8
  {
    "http://" + HostOf(u) + ":" + Decimal(InternalPort(spec))
  }

  const COORDINATOR_KEYS: set<string> :=
    {"coordinator", "http-server.http.port", "node.internal-address", "discovery.uri",
     "node-scheduler.include-coordinator", "discovery-server.enabled", "http-server.https.enabled"}

  const HTTPS_KEYS: set<string> :=
    {"http-server.http.enabled", "http-server.https.port", "http-server.https.keystore.path",
     "http-server.https.keystore.key"}

  const WORKER_KEYS: set<string> := {"coordinator", "http-server.http.port", "discovery.uri"}

  function SystemKeys(coordinator: bool, spec: PrestoSpec): set<string> {
    if !coordinator then WORKER_KEYS
    else if spec.coordinator.httpsEnabled then COORDINATOR_KEYS + HTTPS_KEYS else COORDINATOR_KEYS
  }

  /** A coordinator's system properties. */
  predicate SaysCoordinator(file: map<string, string>, u: string, spec: PrestoSpec)
    requires |u| >= 8
  {
    && COORDINATOR_KEYS <= file.Keys
    && file["coordinator"] == "true"
    && file["node-scheduler.include-coordinator"] == "false"
    && file["discovery-server.enabled"] == "true"
    && file["node.internal-address"] == HostOf(u)
    && file["discovery.uri"] == UriOf(u, spec)
    && file["http-server.http.port"] == Decimal(InternalPort(spec))
    && file["http-server.https.enabled"] == (if spec.coordinator.httpsEnabled then "true" else "false")
  }

  predicate SaysHttps(file: map<string, string>, spec: PrestoSpec) {
    && HTTPS_KEYS <= file.Keys
    && file["http-server.http.enabled"] == "true"
    && file["http-server.https.port"] == Decimal(ClientPort(spec))
    && file["http-server.https.keystore.path"] == "/etc/httpssecret/" + spec.coordinator.httpsSecretKey
    && file["http-server.https.keystore.key"] == spec.coordinator.httpsPassword
  }

  predicate SaysWorker(file: map<string, string>, u: string, spec: PrestoSpec)
    requires |u| >= 8
  {
    && WORKER_KEYS <= file.Keys
    && file["coordinator"] == "false"
    && file["http-server.http.port"] == "8080"
    && file["discovery.uri"] == UriOf(u, spec)
  }

  // ---------------------------------------------------------------- config.properties

  lemma UriReads(u: string, spec: PrestoSpec)
    requires Sliceable(u)
    ensures CoordinatorInternalName(u) == HostOf(u) && CoordinatorUri(u, spec) == UriOf(u, spec)
    ensures HttpPorts(spec).0 == InternalPort(spec)
    ensures spec.coordinator.httpsEnabled ==> HttpPorts(spec).1 == ClientPort(spec)
  {
    hide Decimal;
    assert CoordinatorContainerName(u) + "." + PodDiscoveryServiceName(u) == HostOf(u);
  }

  lemma WorkerPropsSay(u: string, spec: PrestoSpec)
    requires Sliceable(u)
    ensures
      var file := PropsRead(false, u, spec);
      file.Keys == WORKER_KEYS && SaysWorker(file, u, spec)
  {
    hide Decimal, CoordinatorInternalName, CoordinatorUri, HostOf, UriOf, HttpPorts;
    UriReads(u, spec);
    EightyEighty();
  }

  lemma PlainPropsSay(u: string, spec: PrestoSpec)
    requires Sliceable(u) && !spec.coordinator.httpsEnabled
    ensures
      var file := PropsRead(true, u, spec);
      file.Keys == SystemKeys(true, spec) && SaysCoordinator(file, u, spec)
  {
    hide Decimal, CoordinatorInternalName, CoordinatorUri, HostOf, UriOf, HttpPorts, InternalPort, ClientPort;
    UriReads(u, spec);
  }

  lemma SecurePropsSay(u: string, spec: PrestoSpec)
    requires Sliceable(u) && spec.coordinator.httpsEnabled && SystemProps(u, spec).Ok?
    ensures
      var file := PropsRead(true, u, spec);
      file.Keys == SystemKeys(true, spec) && SaysCoordinator(file, u, spec)
  {
    hide Decimal, CoordinatorInternalName, CoordinatorUri, HostOf, UriOf, HttpPorts, InternalPort, ClientPort;
    UriReads(u, spec);
  }

  lemma HttpsPropsSay(u: string, spec: PrestoSpec)
    requires Sliceable(u) && spec.coordinator.httpsEnabled && SystemProps(u, spec).Ok?
    ensures SaysHttps(PropsRead(true, u, spec), spec)
  {
    hide Decimal, CoordinatorInternalName, CoordinatorUri, HttpPorts, InternalPort, ClientPort;
    UriReads(u, spec);
    KeystorePath(spec.coordinator.httpsSecretKey);
  }

  lemma KeystorePath(key: string)
    ensures HTTPS_PATH + "/" + key == "/etc/httpssecret/" + key
  {
  }

  lemma PropsReadSay(coordinator: bool, u: string, spec: PrestoSpec)
    requires Sliceable(u) && PropsFor(coordinator, u, spec).Ok?
    ensures
      var file := PropsRead(coordinator, u, spec);
      && file.Keys == SystemKeys(coordinator, spec)
      && (coordinator ==> SaysCoordinator(file, u, spec) && (spec.coordinator.httpsEnabled ==> SaysHttps(file, spec)))
      && (!coordinator ==> SaysWorker(file, u, spec))
  {
    hide PropsRead, SystemProps, WorkerProps, SaysCoordinator, SaysWorker, SaysHttps;
    if coordinator && spec.coordinator.httpsEnabled {
      SecurePropsSay(u, spec);
      HttpsPropsSay(u, spec);
    } else if coordinator {
      PlainPropsSay(u, spec);
    } else {
      WorkerPropsSay(u, spec);
    }
  }

  lemma EightyEighty()
    ensures Decimal(8080) == "8080"
  {
    assert Digits(8) == "8" && Digits(80) == "80" && Digits(808) == "808";
  }

  /** Read back, the built file says what it should: every system value, and beside them only the user's own. */
  lemma ConfigSays(r: Result<map<string, string>, Error>, coordinator: bool, u: string, spec: PrestoSpec, lib: Library)
    requires Sliceable(u) && OneLine(Short(u))
    requires Built(r, coordinator, u, spec, lib) && r.Ok? && "config.properties" !in spec.propFiles
    requires PlainProps(AdditionalFor(coordinator, spec))
    requires coordinator ==> PlainStrings(u, spec.coordinator)
    ensures "config.properties" in r.value
    ensures
      var file := Parse(r.value["config.properties"]);
      var more := if coordinator then spec.coordinator.additionalProps else spec.worker.additionalProps;
      && file.Keys == SystemKeys(coordinator, spec) + more.Keys
      && (forall k :: k in more ==> k !in SystemKeys(coordinator, spec) && file[k] == more[k])
      && (coordinator ==> SaysCoordinator(file, u, spec) && (spec.coordinator.httpsEnabled ==> SaysHttps(file, spec)))
      && (!coordinator ==> SaysWorker(file, u, spec))
  {
    hide PlainProps, Parse, PropsRead, RendersBoth, Files, UriOf, HostOf, PlainStrings, OneLine, PropsFor;
    ConfigReadsBack(r, coordinator, u, spec, lib);
    PropsReadSay(coordinator, u, spec);
  }

  // ---------------------------------------------------------------- when it can be built

  /** A configuration can be built exactly if HTTPS is complete, no system key is given again and the memory parses. */
  lemma BuildableIff(coordinator: bool, u: string, spec: PrestoSpec, lib: Library)
    requires Sliceable(u)
    ensures Buildable(coordinator, u, spec, lib)
       <==> && (coordinator && spec.coordinator.httpsEnabled ==>
                  && spec.coordinator.httpsPassword != "" && spec.coordinator.httpsSecretKey != ""
                  && spec.coordinator.httpsSecretName != "")
            && (if coordinator then spec.coordinator.additionalProps else spec.worker.additionalProps).Keys
               !! SystemKeys(coordinator, spec)
            && lib.parse(if coordinator then spec.coordinator.memoryLimit else spec.worker.memoryLimit).Ok?
  {
    hide CoordinatorUri, CoordinatorInternalName, HttpPorts, PropsRead;
    if PropsFor(coordinator, u, spec).Ok? {
      PropsReadKeys(coordinator, u, spec);
    }
  }

  lemma PropsReadKeys(coordinator: bool, u: string, spec: PrestoSpec)
    requires Sliceable(u) && PropsFor(coordinator, u, spec).Ok?
    ensures PropsFor(coordinator, u, spec).value.Keys == SystemKeys(coordinator, spec)
  {
    hide PropsFor, SystemKeys;
    PropsReadSay(coordinator, u, spec);
    HasUri(coordinator, u, spec);
  }

  /** Of what HTTPS needs, the password is missed first, then the key, then the name. */
  function MissingHttps(c: CoordinatorSpec): Option<string> {
    if !c.httpsEnabled then None
    else if c.httpsPassword == "" then Some("HttpsKeyPairPassword has to be specified when HTTPS is enabled")
    else if c.httpsSecretKey == "" then Some("HttpsKeyPairSecretKey has to be specified when HTTPS is enabled")
    else if c.httpsSecretName == "" then Some("HttpsKeyPairSecretName has to be specified when HTTPS is enabled")
    else None
  }

  lemma HttpsMisses(coordinator: bool, u: string, spec: PrestoSpec)
    requires Sliceable(u)
    ensures
      var props, missing := PropsFor(coordinator, u, spec), MissingHttps(spec.coordinator);
      if coordinator && missing.Some? then props == Err(Error(OtherReason, missing.value)) else props.Ok?
  {
    hide CoordinatorUri, CoordinatorInternalName, HttpPorts, Decimal;
  }

  lemma MemorySays(coordinator: bool, spec: PrestoSpec, why: string)
    ensures MemoryError(coordinator, spec, why).msg ==
              if coordinator
              then "cannot parse presto.Spec.Coordinator.MemoryLimit: '" + spec.coordinator.memoryLimit + "': " + why
              else "cannot parse presto.Spec.Worker.MemoryLimit: '" + spec.worker.memoryLimit + "': " + why
  {
    assert "cannot parse presto.Spec." + "Coordinator" + ".MemoryLimit: '"
        == "cannot parse presto.Spec.Coordinator.MemoryLimit: '";
    assert "cannot parse presto.Spec." + "Worker" + ".MemoryLimit: '"
        == "cannot parse presto.Spec.Worker.MemoryLimit: '";
  }

  /** Building fails first for HTTPS, then for a system key given again, then for the memory, in these words. */
  lemma BuildErrorSays(coordinator: bool, u: string, spec: PrestoSpec, lib: Library)
    requires Sliceable(u) && !Buildable(coordinator, u, spec, lib)
    ensures
      var msg, missing := BuildError(coordinator, u, spec, lib).msg, MissingHttps(spec.coordinator);
      var more := if coordinator then spec.coordinator.additionalProps else spec.worker.additionalProps;
      var memory := if coordinator then spec.coordinator.memoryLimit else spec.worker.memoryLimit;
      if coordinator && missing.Some? then msg == missing.value
      else if !(more.Keys !! SystemKeys(coordinator, spec))
      then msg == "%s is a system property. Cannot be specified as additional property"
      else
        && lib.parse(memory).Err?
        && msg == if coordinator
                  then "cannot parse presto.Spec.Coordinator.MemoryLimit: '" + memory + "': " + lib.parse(memory).error
                  else "cannot parse presto.Spec.Worker.MemoryLimit: '" + memory + "': " + lib.parse(memory).error
  {
    hide PropsFor, SystemKeys, MemoryError, MissingHttps;
    HttpsMisses(coordinator, u, spec);
    if PropsFor(coordinator, u, spec).Ok? {
      PropsReadKeys(coordinator, u, spec);
      var memory := lib.parse(MemoryFor(coordinator, spec));
      if memory.Err? {
        MemorySays(coordinator, spec, memory.error);
      }
    }
  }

  // ---------------------------------------------------------------- the other files

  /** Whole mebibytes, rounded toward zero. */
  function Mebibytes(bytes: int): int {
    if bytes >= 0 then bytes / 1048576 else -(-bytes / 1048576)
  }

  lemma KibiKibi(n: nat)
    ensures n / 1024 / 1024 == n / 1048576
  {
  }

  lemma MebibytesTruncate(bytes: int)
    ensures TruncDiv(TruncDiv(bytes, 1024), 1024) == Mebibytes(bytes)
  {
    if bytes >= 0 {
      KibiKibi(bytes);
    } else {
      KibiKibi(-bytes);
    }
  }

  /** Every file of the map: the user's where they gave one, else the operator's. */
  lemma FilesSay(r: Result<map<string, string>, Error>, coordinator: bool, u: string, spec: PrestoSpec, lib: Library)
    requires Sliceable(u) && Built(r, coordinator, u, spec, lib) && r.Ok?
    ensures r.value.Keys
         == {"node.properties", "config.properties", "jvm.config", "presto_shutdown.sh"} + spec.propFiles.Keys
    ensures forall f :: f in spec.propFiles ==> r.value[f] == spec.propFiles[f]
    ensures "node.properties" !in spec.propFiles ==>
              r.value["node.properties"] == "node.environment=prestoproduction\nnode.data-dir=/data/presto\n"
    ensures
      var limit := if coordinator then spec.coordinator.memoryLimit else spec.worker.memoryLimit;
      var more := if coordinator then spec.coordinator.additionalJvm else spec.worker.additionalJvm;
      "jvm.config" !in spec.propFiles ==>
        && lib.parse(limit).Ok?
        && r.value["jvm.config"] == lib.jvmDefaults + "-Xmx" + Decimal(Mebibytes(lib.parse(limit).value.value)) + "m\n"
                                    + (if more == "" then "" else more + "\n")
    ensures "presto_shutdown.sh" !in spec.propFiles ==>
              r.value["presto_shutdown.sh"]
              == lib.script(if spec.prestoPath == "" then "/etc/presto" else spec.prestoPath)
  {
    hide PropsFor, RendersBoth, Decimal, TruncDiv, Mebibytes;
    var memory := lib.parse(MemoryFor(coordinator, spec));
    var text :| r.value == Files(coordinator, text, memory.value, spec, lib);
    MebibytesTruncate(memory.value.value);
  }
}
