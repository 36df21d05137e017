/** What the builder uses of the ConfigMaps that a CR names, and that nothing else of them matters. */
module Uses {
  import opened Pods
  import opened Seqs
  import opened Wrappers

  /** Mounting takes a whole object, or some of its files by name; it never looks into them. */
  datatype Use = Whole | Files(names: set<string>)

  function UseOf(data: Data, key: string): Use {
    if data.None? then Whole else Files(set file | file in data.value && (key == "" || key == file))
  }

  /** Contributions that differ in data that they do not use. */
  predicate SameUse(c: Contribution, d: Contribution) {
    match c
    case AppConfigC(name, data, mountPath, key) =>
      d.AppConfigC? && d == c.(data := d.data) && UseOf(data, key) == UseOf(d.data, key)
    case FilesC(kind, name, data, mountPath, key) =>
      d.FilesC? && d == c.(data := d.data) && UseOf(data, key) == UseOf(d.data, key)
    case EnvsC(kind, name, key) => d == c
    case PluginsC(name, data) =>
      d.PluginsC? && d.name == name && UseOf(data, DYNAMIC_PLUGINS_FILE) == UseOf(d.data, DYNAMIC_PLUGINS_FILE)
  }

  lemma AllFilesUsed(d1: Data, d2: Data)
    requires UseOf(d1, "") == UseOf(d2, "")
    ensures KeysOf(d1) == KeysOf(d2)
  {
    forall file ensures file in KeysOf(d1) <==> file in KeysOf(d2) {
      assert d1.Some? ==> (file in KeysOf(d1) <==> file in UseOf(d1, "").names);
      assert d2.Some? ==> (file in KeysOf(d2) <==> file in UseOf(d2, "").names);
    }
  }

  lemma OneFileUsed(d1: Data, d2: Data, key: string)
    requires UseOf(d1, key) == UseOf(d2, key) && key != ""
    ensures key in KeysOf(d1) <==> key in KeysOf(d2)
  {
    assert d1.Some? ==> (key in KeysOf(d1) <==> key in UseOf(d1, key).names);
    assert d2.Some? ==> (key in KeysOf(d2) <==> key in UseOf(d2, key).names);
  }

  lemma SelectedAlike(d1: Data, d2: Data, key: string, o1: seq<string>, o2: seq<string>)
    requires UseOf(d1, key) == UseOf(d2, key)
    requires multiset(o1) == multiset(KeysOf(d1)) && multiset(o2) == multiset(KeysOf(d2))
    ensures multiset(Selected(o1, key)) == multiset(Selected(o2, key))
    ensures key != "" ==> Selected(o1, key) == Selected(o2, key)
  {
    if key == "" {
      AllFilesUsed(d1, d2);
      FilterPermuted(IsSelected(key), o1, o2);
    } else {
      OneFileUsed(d1, d2, key);
      OneFileSelected(o1, KeysOf(d1), key);
      OneFileSelected(o2, KeysOf(d2), key);
    }
  }

  /** Equal but for the order of the files of one ConfigMap or Secret. */
  ghost predicate Reordered(a: Delta, b: Delta) {
    && a.volumes == b.volumes && a.env == b.env && a.envFrom == b.envFrom
    && multiset(a.mounts) == multiset(b.mounts)
    && multiset(a.initMounts) == multiset(b.initMounts)
    && multiset(a.configs) == multiset(b.configs)
  }

  lemma MountsReordered(name: string, dir: string, key: string, d1: Data, d2: Data, o1: seq<string>, o2: seq<string>)
    requires UseOf(d1, key) == UseOf(d2, key)
    requires multiset(o1) == multiset(KeysOf(d1)) && multiset(o2) == multiset(KeysOf(d2))
    ensures multiset(MountsOf(name, dir, key, d1, o1)) == multiset(MountsOf(name, dir, key, d2, o2))
    ensures multiset(ConfigsOf(dir, key, o1)) == multiset(ConfigsOf(dir, key, o2))
    ensures key != "" ==> MountsOf(name, dir, key, d1, o1) == MountsOf(name, dir, key, d2, o2)
    ensures key != "" ==> ConfigsOf(dir, key, o1) == ConfigsOf(dir, key, o2)
  {
    SelectedAlike(d1, d2, key, o1, o2);
    MapPermuted(Mounted(name, dir), Selected(o1, key), Selected(o2, key));
    MapPermuted(Joined(dir), Selected(o1, key), Selected(o2, key));
  }

  /** In other orders, the same use gives the same pieces. */
  lemma DeltaReordered(c: Contribution, d: Contribution, site: Site, o1: Order, o2: Order, dir: Option<string>)
    requires SameUse(c, d) && ValidOrder(o1) && ValidOrder(o2)
    ensures Reordered(DeltaOf(c, site, o1, dir), DeltaOf(d, site, o2, dir))
  {
    match c
    case AppConfigC(name, data, mountPath, key) =>
      var keys, more := KeysOf(data), KeysOf(d.data);
      MountsReordered(name, mountPath, key, data, d.data, o1(site, MountLoop, keys), o2(site, MountLoop, more));
      MountsReordered(name, mountPath, key, data, d.data, o1(site, ConfigLoop, keys), o2(site, ConfigLoop, more));
    case FilesC(_, name, data, mountPath, key) =>
      MountsReordered(name, mountPath, key, data, d.data, o1(site, MountLoop, KeysOf(data)),
                      o2(site, MountLoop, KeysOf(d.data)));
    case PluginsC(name, data) =>
      if dir.Some? {
        MountsReordered(name, dir.value, DYNAMIC_PLUGINS_FILE, data, d.data, o1(site, MountLoop, KeysOf(data)),
                        o2(site, MountLoop, KeysOf(d.data)));
      }
    case _ =>
  }

  lemma MountsRepeated(name: string, dir: string, key: string, d1: Data, d2: Data, site: Site, loop: Loop, order: Order)
    requires UseOf(d1, key) == UseOf(d2, key) && ValidOrder(order)
    ensures MountsOf(name, dir, key, d1, order(site, loop, KeysOf(d1)))
         == MountsOf(name, dir, key, d2, order(site, loop, KeysOf(d2)))
    ensures ConfigsOf(dir, key, order(site, loop, KeysOf(d1))) == ConfigsOf(dir, key, order(site, loop, KeysOf(d2)))
  {
    if key == "" {
      AllFilesUsed(d1, d2);
    } else {
      MountsReordered(name, dir, key, d1, d2, order(site, loop, KeysOf(d1)), order(site, loop, KeysOf(d2)));
    }
  }

  /** In the same orders, the same use gives the same. */
  lemma DeltaRepeated(c: Contribution, d: Contribution, site: Site, order: Order, dir: Option<string>)
    requires SameUse(c, d) && ValidOrder(order)
    ensures DeltaOf(c, site, order, dir) == DeltaOf(d, site, order, dir)
  {
    match c
    case AppConfigC(name, data, mountPath, key) =>
      MountsRepeated(name, mountPath, key, data, d.data, site, MountLoop, order);
      MountsRepeated(name, mountPath, key, data, d.data, site, ConfigLoop, order);
    case FilesC(_, name, data, mountPath, key) =>
      MountsRepeated(name, mountPath, key, data, d.data, site, MountLoop, order);
    case PluginsC(name, data) =>
      if dir.Some? {
        MountsRepeated(name, dir.value, DYNAMIC_PLUGINS_FILE, data, d.data, site, MountLoop, order);
      }
    case _ =>
  }
}
