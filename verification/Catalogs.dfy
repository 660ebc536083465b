/** The catalog configuration map and the directory the catalogs are mounted in. */
module Catalogs {
  import opened PrestoTypes
  import opened Naming
  import opened Properties
  import opened Settings

  const SUFFIX := ".properties"

  const DEFAULTS: map<string, string> :=
    map["jmx" := "connector.name=jmx\n", "tpch" := "connector.name=tpch\n", "tpcds" := "connector.name=tpcds\n"]

  function FileOf(name: string): string {
    name + SUFFIX
  }

  predicate Named(spec: PrestoSpec, name: string) {
    exists i :: 0 <= i < |spec.catalogs| && spec.catalogs[i].name == name
  }

  predicate Keyed(spec: PrestoSpec, key: string) {
    exists i :: 0 <= i < |spec.catalogSecrets| && spec.catalogSecrets[i].secretKey == key
  }

  /** The default catalogs nothing in the spec goes by the name of. */
  function Pruned(spec: PrestoSpec): map<string, string> {
    map k | k in DEFAULTS && !Named(spec, k) && !Keyed(spec, k) :: DEFAULTS[k]
  }

  method DefaultCatalogs(spec: PrestoSpec) returns (pruned: map<string, string>)
    ensures pruned == Pruned(spec)
  {
    pruned := map[];
    var rest := DEFAULTS.Keys;
    while rest != {}
      invariant rest <= DEFAULTS.Keys
      invariant forall k :: k in pruned <==> k in DEFAULTS && k !in rest && !Named(spec, k) && !Keyed(spec, k)
      invariant forall k :: k in pruned ==> pruned[k] == DEFAULTS[k]
    {
      var name :| name in rest;
      var present := false;
      for i := 0 to |spec.catalogs|
        invariant present <==> exists j :: 0 <= j < i && spec.catalogs[j].name == name
      {
        if spec.catalogs[i].name == name {
          present := true;
        }
      }
      assert present == Named(spec, name);
      for i := 0 to |spec.catalogSecrets|
        invariant present <==> Named(spec, name) || exists j :: 0 <= j < i && spec.catalogSecrets[j].secretKey == name
      {
        if spec.catalogSecrets[i].secretKey == name {
          present := true;
        }
      }
      if !present {
        pruned := pruned[name := DEFAULTS[name]];
      }
      rest := rest - {name};
    }
  }

  /** No later catalog has the same name. */
  predicate IsLast(catalogs: seq<CatalogSpec>, i: nat) {
    i < |catalogs| && forall j :: i < j < |catalogs| ==> catalogs[j].name != catalogs[i].name
  }

  /** The files are those of the listed catalogs, the last of each name in its rendering. */
  ghost predicate HoldsListed(data: map<string, string>, catalogs: seq<CatalogSpec>) {
    && (forall i :: 0 <= i < |catalogs| ==> FileOf(catalogs[i].name) in data)
    && (forall i :: 0 <= i < |catalogs| && IsLast(catalogs, i) ==>
          Renders(data[FileOf(catalogs[i].name)], catalogs[i].content))
  }

  ghost predicate IsListed(file: string, catalogs: seq<CatalogSpec>) {
    exists i :: 0 <= i < |catalogs| && file == FileOf(catalogs[i].name)
  }

  ghost predicate IsDefault(file: string, names: map<string, string>) {
    exists k :: k in names && file == FileOf(k)
  }

  /** The data of the catalog map: user catalogs and pruned defaults, and nothing else. */
  ghost predicate CatalogData(data: map<string, string>, spec: PrestoSpec) {
    && (forall file :: file in data <==> IsListed(file, spec.catalogs) || IsDefault(file, Pruned(spec)))
    && HoldsListed(data, spec.catalogs)
    && (forall k :: k in Pruned(spec) ==> FileOf(k) in data && data[FileOf(k)] == DEFAULTS[k])
  }

  lemma FileOfInjective(a: string, b: string)
    requires FileOf(a) == FileOf(b)
    ensures a == b
  {
    assert |a| == |b|;
    assert a == FileOf(a)[..|a|] == FileOf(b)[..|b|] == b;
  }

  lemma HoldsOneMore(data: map<string, string>, before: seq<CatalogSpec>, c: CatalogSpec, text: string)
    requires HoldsListed(data, before) && Renders(text, c.content)
    ensures HoldsListed(data[FileOf(c.name) := text], before + [c])
  {
    hide Renders, FileOf;
    var more, data' := before + [c], data[FileOf(c.name) := text];
    forall i | 0 <= i < |more| && IsLast(more, i)
      ensures FileOf(more[i].name) in data' && Renders(data'[FileOf(more[i].name)], more[i].content)
    {
      if i < |before| {
        assert more[|before|].name != more[i].name;
        if FileOf(more[i].name) == FileOf(c.name) {
          FileOfInjective(more[i].name, c.name);
        }
        assert forall j :: i < j < |before| ==> more[j] == before[j];
        assert IsLast(before, i);
      }
    }
  }

  /** The files of the listed catalogs and no others. */
  ghost predicate HoldsOnlyListed(data: map<string, string>, catalogs: seq<CatalogSpec>) {
    HoldsListed(data, catalogs) && forall file :: file in data <==> IsListed(file, catalogs)
  }

  method ListedCatalogs(catalogs: seq<CatalogSpec>) returns (data: map<string, string>)
    ensures HoldsOnlyListed(data, catalogs)
  {
    hide HoldsOnlyListed, FileOf, Renders;
    data := map[];
    NoneListed();
    assert catalogs[..0] == [];
    for i := 0 to |catalogs|
      invariant HoldsOnlyListed(data, catalogs[..i])
    {
      var c := catalogs[i];
      var text := WriteAll(c.content);
      OnlyOneMore(data, catalogs[..i], c, text);
      assert catalogs[..i + 1] == catalogs[..i] + [c];
      data := data[FileOf(c.name) := text];
    }
    assert catalogs[..|catalogs|] == catalogs;
  }

  lemma NoneListed()
    ensures HoldsOnlyListed(map[], [])
  {
  }

  lemma OnlyOneMore(data: map<string, string>, before: seq<CatalogSpec>, c: CatalogSpec, text: string)
    requires HoldsOnlyListed(data, before) && Renders(text, c.content)
    ensures HoldsOnlyListed(data[FileOf(c.name) := text], before + [c])
  {
    hide FileOf, Renders, HoldsListed, IsListed;
    HoldsOneMore(data, before, c, text);
    forall file
      ensures IsListed(file, before + [c]) <==> IsListed(file, before) || file == FileOf(c.name)
    {
      ListedOneMore(file, before, c);
    }
  }

  lemma ListedOneMore(file: string, before: seq<CatalogSpec>, c: CatalogSpec)
    ensures IsListed(file, before + [c]) <==> IsListed(file, before) || file == FileOf(c.name)
  {
    hide FileOf;
    if file == FileOf(c.name) {
      assert (before + [c])[|before|] == c;
    }
    if i :| 0 <= i < |before| && file == FileOf(before[i].name) {
      assert (before + [c])[i] == before[i];
    }
  }

  method AddDefaults(listed: map<string, string>, defaults: map<string, string>) returns (data: map<string, string>)
    requires forall k :: k in defaults ==> FileOf(k) !in listed
    ensures forall file :: file in data <==> file in listed || IsDefault(file, defaults)
    ensures forall file :: file in listed ==> data[file] == listed[file]
    ensures forall k :: k in defaults ==> FileOf(k) in data && data[FileOf(k)] == defaults[k]
  {
    hide FileOf;
    data := listed;
    var rest := defaults.Keys;
    while rest != {}
      invariant rest <= defaults.Keys
      invariant forall file :: file in listed ==> file in data && data[file] == listed[file]
      invariant forall k :: k in defaults && k !in rest ==> FileOf(k) in data && data[FileOf(k)] == defaults[k]
      invariant forall file :: file in data ==> file in listed || IsDefault(file, defaults)
    {
      var k :| k in rest;
      forall other | other in defaults && other !in rest
        ensures FileOf(other) != FileOf(k)
      {
        if FileOf(other) == FileOf(k) {
          FileOfInjective(other, k);
        }
      }
      data := data[FileOf(k) := defaults[k]];
      rest := rest - {k};
    }
  }

  method BuildCatalogs(spec: PrestoSpec) returns (data: map<string, string>)
    ensures CatalogData(data, spec)
  {
    hide Renders, IsLast, FileOf;
    var listed := ListedCatalogs(spec.catalogs);
    var defaults := DefaultCatalogs(spec);
    forall k | k in defaults
      ensures FileOf(k) !in listed
    {
      DefaultIsNew(spec, k);
    }
    data := AddDefaults(listed, defaults);
  }

  /** A default never takes the place of a user catalog, nor the path of a secret's file. */
  lemma DefaultIsNew(spec: PrestoSpec, k: string)
    requires k in Pruned(spec)
    ensures !IsListed(FileOf(k), spec.catalogs)
    ensures forall i :: 0 <= i < |spec.catalogSecrets| ==> FileOf(spec.catalogSecrets[i].secretKey) != FileOf(k)
  {
    hide FileOf;
    if i :| 0 <= i < |spec.catalogs| && FileOf(k) == FileOf(spec.catalogs[i].name) {
      FileOfInjective(k, spec.catalogs[i].name);
    }
    forall i | 0 <= i < |spec.catalogSecrets|
      ensures FileOf(spec.catalogSecrets[i].secretKey) != FileOf(k)
    {
      if FileOf(spec.catalogSecrets[i].secretKey) == FileOf(k) {
        FileOfInjective(spec.catalogSecrets[i].secretKey, k);
      }
    }
  }

  /** A user catalog's file reads back as the last content given under its name. */
  lemma CatalogReadsBack(data: map<string, string>, spec: PrestoSpec, i: nat)
    requires CatalogData(data, spec) && IsLast(spec.catalogs, i) && PlainProps(spec.catalogs[i].content)
    ensures
      var file := spec.catalogs[i].name + ".properties";
      file in data && Parse(data[file]) == spec.catalogs[i].content
  {
    hide Renders, Parse, Pruned, IsListed, IsDefault, PlainProps, Tame;
    var text, content := data[FileOf(spec.catalogs[i].name)], spec.catalogs[i].content;
    PlainIsTame(content);
    ParseRenders(text, content, "");
    ParseNothing();
    assert text + "" == text;
  }

  /** The map holds a file for each catalog of the spec and for each default that nobody names, and no other. */
  lemma CatalogFiles(data: map<string, string>, spec: PrestoSpec, file: string)
    requires CatalogData(data, spec)
    ensures file in data
       <==> || (exists i :: 0 <= i < |spec.catalogs| && file == spec.catalogs[i].name + ".properties")
            || (exists k :: k in {"jmx", "tpch", "tpcds"} && !Named(spec, k) && !Keyed(spec, k)
                            && file == k + ".properties")
  {
    hide HoldsListed, Named, Keyed;
    assert forall k :: k in Pruned(spec) <==> k in {"jmx", "tpch", "tpcds"} && !Named(spec, k) && !Keyed(spec, k);
  }

  lemma OnePairRenders(key: string, value: string)
    ensures Renders(key + "=" + value + "\n", map[key := value])
  {
    var order, props := [key], map[key := value];
    assert order[1..] == [] && Render(order, props) == Line(key, value) + Render([], props);
    assert Visits(order, props) && key + "=" + value + "\n" == Render(order, props);
  }

  lemma DefaultIsConnector(k: string)
    requires k in {"jmx", "tpch", "tpcds"}
    ensures k in DEFAULTS && DEFAULTS[k] == "connector.name" + "=" + k + "\n"
    ensures PlainKey("connector.name") && OneLine(k)
  {
    assert DEFAULTS["jmx"] == "connector.name" + "=" + "jmx" + "\n";
    assert DEFAULTS["tpch"] == "connector.name" + "=" + "tpch" + "\n";
    assert DEFAULTS["tpcds"] == "connector.name" + "=" + "tpcds" + "\n";
  }

  /** A default catalog that nobody replaces names the connector it is called after. */
  lemma DefaultReadsBack(data: map<string, string>, spec: PrestoSpec, k: string)
    requires CatalogData(data, spec) && k in {"jmx", "tpch", "tpcds"} && !Named(spec, k) && !Keyed(spec, k)
    ensures k + ".properties" in data && Parse(data[k + ".properties"]) == map["connector.name" := k]
  {
    hide Renders, Parse, Named, Keyed, HoldsListed, IsListed, IsDefault, Tame, PlainKey, OneLine;
    var content := map["connector.name" := k];
    DefaultIsConnector(k);
    assert k in Pruned(spec);
    OnePairRenders("connector.name", k);
    PlainIsTame(content);
    ParseRenders(data[FileOf(k)], content, "");
    ParseNothing();
    assert data[FileOf(k)] + "" == data[FileOf(k)];
  }

  // ---------------------------------------------------------------- the mounted directory

  function SecretFile(secret: CatalogSecret): Projection {
    SecretProjection(secret.secretName, [KeyToPath(secret.secretKey, FileOf(secret.secretKey))])
  }

  function Projections(u: string, spec: PrestoSpec): (r: seq<Projection>)
    requires Sliceable(u)
    ensures |r| == |spec.catalogSecrets| + 1
  {
    [ConfigMapProjection(CatalogConfigMapName(u))]
    + seq(|spec.catalogSecrets|, i requires 0 <= i < |spec.catalogSecrets| => SecretFile(spec.catalogSecrets[i]))
  }

  /** The projection slots, made empty and filled by index. */
  method FillProjections(u: string, spec: PrestoSpec) returns (slots: array<Projection>)
    requires Sliceable(u)
    ensures fresh(slots) && slots[..] == Projections(u, spec)
  {
    var n := |spec.catalogSecrets|;
    slots := new Projection[n + 1];
    slots[0] := ConfigMapProjection(CatalogConfigMapName(u));
    for i := 0 to n
      invariant slots[0] == ConfigMapProjection(CatalogConfigMapName(u))
      invariant forall j :: 0 <= j < i ==> slots[j + 1] == SecretFile(spec.catalogSecrets[j])
    {
      var secret := spec.catalogSecrets[i];
      slots[i + 1] := SecretProjection(secret.secretName, [KeyToPath(secret.secretKey, FileOf(secret.secretKey))]);
    }
    assert forall j :: 0 < j < n + 1 ==> slots[j] == SecretFile(spec.catalogSecrets[j - 1]);
  }

  /** The files a projection slot puts into the directory. */
  ghost predicate Provides(slot: Projection, data: map<string, string>, file: string) {
    match slot
    case ConfigMapProjection(_) => file in data
    case SecretProjection(_, items) => exists i :: 0 <= i < |items| && items[i].path == file
  }

  ghost predicate SlotsClash(u: string, spec: PrestoSpec, data: map<string, string>)
    requires Sliceable(u)
  {
    exists i, j, file :: 0 <= i < j < |Projections(u, spec)|
      && Provides(Projections(u, spec)[i], data, file) && Provides(Projections(u, spec)[j], data, file)
  }

  predicate SameKey(spec: PrestoSpec, i: nat, j: nat) {
    i < |spec.catalogSecrets| && j < |spec.catalogSecrets|
    && spec.catalogSecrets[i].secretKey == spec.catalogSecrets[j].secretKey
  }

  /** Two secrets under one key, or a secret under the name of a user catalog. */
  predicate SecretsClash(spec: PrestoSpec) {
    || (exists i, j :: 0 <= i < j < |spec.catalogSecrets| && SameKey(spec, i, j))
    || (exists i :: 0 <= i < |spec.catalogSecrets| && Named(spec, spec.catalogSecrets[i].secretKey))
  }

  lemma SecretProvides(u: string, spec: PrestoSpec, data: map<string, string>, i: nat, file: string)
    requires Sliceable(u) && i < |spec.catalogSecrets|
    ensures Provides(Projections(u, spec)[i + 1], data, file) <==> file == FileOf(spec.catalogSecrets[i].secretKey)
  {
    hide FileOf;
    var slot := SecretFile(spec.catalogSecrets[i]);
    assert Projections(u, spec)[i + 1] == slot;
    assert slot.items[0].path == FileOf(spec.catalogSecrets[i].secretKey);
  }

  /** A secret's file is in the map exactly if a user catalog goes by its key. */
  lemma SecretInMapIff(spec: PrestoSpec, data: map<string, string>, i: nat)
    requires CatalogData(data, spec) && i < |spec.catalogSecrets|
    ensures FileOf(spec.catalogSecrets[i].secretKey) in data <==> Named(spec, spec.catalogSecrets[i].secretKey)
  {
    hide FileOf, HoldsListed, Keyed;
    var key := spec.catalogSecrets[i].secretKey;
    if k :| k in Pruned(spec) && FileOf(key) == FileOf(k) {
      DefaultIsNew(spec, k);
      assert false;
    }
    if FileOf(key) in data {
      var j :| 0 <= j < |spec.catalogs| && FileOf(key) == FileOf(spec.catalogs[j].name);
      FileOfInjective(key, spec.catalogs[j].name);
    }
  }

  /** Two slots provide the same file exactly if the user's own names clash; the defaults never do. */
  lemma SlotsClashIff(u: string, spec: PrestoSpec, data: map<string, string>)
    requires Sliceable(u) && CatalogData(data, spec)
    ensures SlotsClash(u, spec, data) <==> SecretsClash(spec)
  {
    if SlotsClash(u, spec, data) {
      ClashingSlots(u, spec, data);
    }
    if SecretsClash(spec) {
      ClashingSecrets(u, spec, data);
    }
  }

  lemma ClashingSlots(u: string, spec: PrestoSpec, data: map<string, string>)
    requires Sliceable(u) && CatalogData(data, spec) && SlotsClash(u, spec, data)
    ensures SecretsClash(spec)
  {
    hide FileOf, CatalogData, Provides, Named;
    var i, j, file :| 0 <= i < j < |Projections(u, spec)|
      && Provides(Projections(u, spec)[i], data, file) && Provides(Projections(u, spec)[j], data, file);
    SecretProvides(u, spec, data, j - 1, file);
    if i == 0 {
      FirstProvides(u, spec, data, file);
      SecretInMapIff(spec, data, j - 1);
    } else {
      SecretProvides(u, spec, data, i - 1, file);
      FileOfInjective(spec.catalogSecrets[i - 1].secretKey, spec.catalogSecrets[j - 1].secretKey);
      assert SameKey(spec, i - 1, j - 1);
    }
  }

  lemma FirstProvides(u: string, spec: PrestoSpec, data: map<string, string>, file: string)
    requires Sliceable(u)
    ensures Provides(Projections(u, spec)[0], data, file) <==> file in data
  {
  }

  lemma ClashingSecrets(u: string, spec: PrestoSpec, data: map<string, string>)
    requires Sliceable(u) && CatalogData(data, spec) && SecretsClash(spec)
    ensures SlotsClash(u, spec, data)
  {
    hide FileOf, CatalogData, Provides, Named, Projections;
    if i, j :| 0 <= i < j < |spec.catalogSecrets| && SameKey(spec, i, j) {
      var file := FileOf(spec.catalogSecrets[i].secretKey);
      SecretProvides(u, spec, data, i, file);
      SecretProvides(u, spec, data, j, file);
      assert Provides(Projections(u, spec)[i + 1], data, file) && Provides(Projections(u, spec)[j + 1], data, file);
    } else {
      var i :| 0 <= i < |spec.catalogSecrets| && Named(spec, spec.catalogSecrets[i].secretKey);
      var file := FileOf(spec.catalogSecrets[i].secretKey);
      SecretInMapIff(spec, data, i);
      FirstProvides(u, spec, data, file);
      SecretProvides(u, spec, data, i, file);
      assert Provides(Projections(u, spec)[0], data, file) && Provides(Projections(u, spec)[i + 1], data, file);
    }
  }
}
