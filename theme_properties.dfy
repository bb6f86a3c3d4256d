/** Properties of the asset-group resolver model, stated over its specification functions. */
module ThemeProperties {
  import opened Wrappers
  import opened Php
  import opened Collect
  import opened Themes

  /** Missing `assets` and `filters` values default to an empty list and never fail. */
  lemma MissingListDefaultsToEmpty(env: Env, group: string, key: string)
    requires ConfigKey(env.current, group, key) !in env.config
    ensures GetConfig(env, group, key, List([])) == Ok(List([]))
  {
  }

  /**
   * `output` has no default: a group whose `output` is missing, or falsy and not an array,
   * never builds; once its assets and filters resolve, the failure is the AssetsException
   * naming the `output` key.
   */
  lemma MissingOutputFails(env: Env, assets: map<string, AsseticAsset>, filters: map<string, Filter>, name: string)
    requires var v := Config(env, ConfigKey(env.current, name, "output"), Null);
             !Truthy(v) && !IsArray(v)
    ensures BuildGroup(env, assets, filters, name).Err?
    ensures AssetArray(env, assets, name).Ok? && FilterArray(env, filters, name).Ok? ==>
              BuildGroup(env, assets, filters, name).error == AssetsException(ConfigKey(env.current, name, "output"))
  {
  }

  /**
   * A group's asset list succeeds exactly when its `assets` value is usable and every entry
   * resolves; it then holds one asset per entry, in declared order.
   */
  lemma {:induction false} AssetArrayInOrder(env: Env, registry: map<string, AsseticAsset>, name: string)
    ensures var v := Config(env, ConfigKey(env.current, name, "assets"), List([]));
            var refs := Items(v);
            var r := AssetArray(env, registry, name);
            && (r.Ok? <==> (Truthy(v) || IsArray(v)) &&
                           forall i :: 0 <= i < |refs| ==> AssetReference(env, registry, refs[i]).Ok?)
            && (r.Ok? ==> |r.value| == |refs| &&
                          forall i :: 0 <= i < |refs| ==> r.value[i] == AssetReference(env, registry, refs[i]).value)
  {
    var config := GetConfig(env, name, "assets", List([]));
    if config.Ok? {
      var refs := Items(config.value);
      MapAllOk(AssetReferenceFn(env, registry), refs);
    }
  }

  /**
   * An entry that is not registered and contains none of `/`, `.`, `-` aborts the group's
   * asset list with NoAssetDefined, provided every earlier entry resolved.
   */
  lemma {:induction false} UnknownAssetFails(env: Env, registry: map<string, AsseticAsset>, name: string, k: nat)
    requires var v := Config(env, ConfigKey(env.current, name, "assets"), List([]));
             var refs := Items(v);
             && (Truthy(v) || IsArray(v))
             && k < |refs| && refs[k].Str?
             && refs[k].s !in registry && '/' !in refs[k].s && '.' !in refs[k].s && '-' !in refs[k].s
             && forall j :: 0 <= j < k ==> AssetReference(env, registry, refs[j]).Ok?
    ensures AssetArray(env, registry, name) == Err(NoAssetDefined(Items(Config(env, ConfigKey(env.current, name, "assets"), List([])))[k].s))
  {
    var refs := Items(Config(env, ConfigKey(env.current, name, "assets"), List([])));
    var f := AssetReferenceFn(env, registry);
    var prefix := refs[..k];
    assert forall j :: 0 <= j < k ==> prefix[j] == refs[j];
    MapAllOk(f, prefix);
    MapAllExtend(f, refs, k, MapAll(f, prefix).value);
  }

  /**
   * A group's filter list succeeds exactly when its `filters` value is usable and every entry
   * names a registered filter; it then holds those filters, in declared order.
   */
  lemma {:induction false} FilterArrayInOrder(env: Env, registry: map<string, Filter>, name: string)
    ensures var v := Config(env, ConfigKey(env.current, name, "filters"), List([]));
            var refs := Items(v);
            var r := FilterArray(env, registry, name);
            && (r.Ok? <==> (Truthy(v) || IsArray(v)) &&
                           forall i :: 0 <= i < |refs| ==> ArrayKey(refs[i]).Some? && ArrayKey(refs[i]).value in registry)
            && (r.Ok? ==> |r.value| == |refs| &&
                          forall i :: 0 <= i < |refs| ==> r.value[i] == registry[ArrayKey(refs[i]).value])
  {
    var config := GetConfig(env, name, "filters", List([]));
    if config.Ok? {
      var refs := Items(config.value);
      MapAllOk(FilterReferenceFn(registry), refs);
    }
  }

  /**
   * The filter registry: it builds exactly when every `theme.filters` spec can be converted,
   * and then maps each name to the filter createFilter makes of its spec, and nothing else.
   */
  lemma {:induction false} FilterRegistryEntries(env: Env)
    requires DistinctKeys(Entries(Config(env, "theme.filters", List([]))))
    ensures var es := Entries(Config(env, "theme.filters", List([])));
            var r := FilterRegistry(env);
            && (r.Ok? <==> forall i :: 0 <= i < |es| ==> CreateFilter(env, es[i].1).Ok?)
            && (r.Ok? ==> forall i :: 0 <= i < |es| ==>
                            es[i].0 in r.value && r.value[es[i].0] == CreateFilter(env, es[i].1).value)
            && (r.Ok? ==> forall key :: key in r.value ==> exists i :: 0 <= i < |es| && es[i].0 == key)
  {
    var es := Entries(Config(env, "theme.filters", List([])));
    RegisterOk(FilterStepFn(env), es);
  }

  /** A failing filter registry reports the first spec that cannot be converted. */
  lemma {:induction false} FilterRegistryFirstError(env: Env)
    requires FilterRegistry(env).Err?
    ensures var es := Entries(Config(env, "theme.filters", List([])));
            exists k :: 0 <= k < |es| && CreateFilter(env, es[k].1) == Err(FilterRegistry(env).error) &&
                        forall j :: 0 <= j < k ==> CreateFilter(env, es[j].1).Ok?
  {
    var es := Entries(Config(env, "theme.filters", List([])));
    RegisterFirstErr(FilterStepFn(env), es);
  }

  /**
   * The asset registry: it builds exactly when every reference is a scalar. A name with no
   * reference is not registered, a name with one is registered as that asset, and a name
   * with several as a collection of them in order (a non-array counts as one reference).
   */
  lemma {:induction false} AssetRegistryEntries(env: Env)
    requires DistinctKeys(Entries(Config(env, "theme.assets", List([]))))
    ensures var es := Entries(Config(env, "theme.assets", List([])));
            var r := AssetRegistry(env);
            && (r.Ok? <==> forall i, j :: 0 <= i < |es| && 0 <= j < |RefList(es[i].1)| ==>
                                            ToStr(RefList(es[i].1)[j]).Some?)
            && (r.Ok? ==> forall i :: 0 <= i < |es| ==>
                  var refs := RefList(es[i].1);
                  && (|refs| == 0 ==> es[i].0 !in r.value)
                  && (|refs| == 1 ==> es[i].0 in r.value &&
                                      r.value[es[i].0] == ParseAssetDefinition(env, ToStr(refs[0]).value))
                  && (|refs| > 1 ==> es[i].0 in r.value &&
                                     var c := r.value[es[i].0];
                                     c.AssetCollection? && c.filters == [] && c.targetPath == None &&
                                     |c.parts| == |refs| &&
                                     forall j :: 0 <= j < |refs| ==> c.parts[j] == ParseAssetDefinition(env, ToStr(refs[j]).value)))
            && (r.Ok? ==> forall key :: key in r.value ==> exists i :: 0 <= i < |es| && es[i].0 == key)
  {
    var es := Entries(Config(env, "theme.assets", List([])));
    var step := AssetStepFn(env);
    RegisterOk(step, es);
    forall i | 0 <= i < |es|
      ensures step(es[i].1).Ok? <==> forall j :: 0 <= j < |RefList(es[i].1)| ==> ToStr(RefList(es[i].1)[j]).Some?
      ensures step(es[i].1).Ok? ==>
                var refs := RefList(es[i].1);
                var parsed := MapAll(ParseReferenceFn(env), refs).value;
                step(es[i].1).value == Registered(parsed) && |parsed| == |refs| &&
                forall j :: 0 <= j < |refs| ==> parsed[j] == ParseAssetDefinition(env, ToStr(refs[j]).value)
    {
      MapAllOk(ParseReferenceFn(env), RefList(es[i].1));
    }
  }

  /**
   * What createGroup builds on a cache miss: the group's assets and filters, one per entry
   * in declared order, and the target path `assetsPath(output)` for a string `output`.
   */
  lemma {:induction false} GroupContents(env: Env, assets: map<string, AsseticAsset>, filters: map<string, Filter>, name: string)
    requires BuildGroup(env, assets, filters, name).Ok?
    ensures var g := BuildGroup(env, assets, filters, name).value;
            var assetRefs := Items(Config(env, ConfigKey(env.current, name, "assets"), List([])));
            var filterRefs := Items(Config(env, ConfigKey(env.current, name, "filters"), List([])));
            var output := Config(env, ConfigKey(env.current, name, "output"), Null);
            && g.AssetCollection?
            && |g.parts| == |assetRefs|
            && (forall i :: 0 <= i < |assetRefs| ==> AssetReference(env, assets, assetRefs[i]).Ok? &&
                                                     g.parts[i] == AssetReference(env, assets, assetRefs[i]).value)
            && |g.filters| == |filterRefs|
            && (forall i :: 0 <= i < |filterRefs| ==> ArrayKey(filterRefs[i]).Some? && ArrayKey(filterRefs[i]).value in filters &&
                                                      g.filters[i] == filters[ArrayKey(filterRefs[i]).value])
            && (Truthy(output) || IsArray(output))
            && (output.Str? ==> g.targetPath == Some(env.assetsPath(output.s)))
            && (!Truthy(output) ==> g.targetPath == None)
  {
    AssetArrayInOrder(env, assets, name);
    FilterArrayInOrder(env, filters, name);
  }

  /**
   * The write decision in full: the output is written exactly when overwrite is asked for,
   * the target is missing, the last-modified time is null or zero, or the target is older
   * than that time.
   */
  lemma WriteDecision(overwrite: bool, coll: AsseticAsset, fs: Fs)
    requires coll.AssetCollection?
    ensures var path := TargetText(coll.targetPath);
            var assetMtime := fs.lastModified(coll);
            NeedsWrite(overwrite, coll, fs) <==>
              || overwrite
              || !FileExists(fs, path)
              || assetMtime.None? || assetMtime.value == 0
              || fs.mtime[path] < assetMtime.value
  {
  }

  /**
   * A `false` entry in a group's list is looked up under key 0, as `isset($registry[false])`
   * does, and only an unregistered one is tested as a path.
   */
  lemma FalseEntryIsKeyZero(env: Env, assets: map<string, AsseticAsset>, filters: map<string, Filter>)
    ensures "0" in assets ==> AssetReference(env, assets, Bool(false)) == Ok(assets["0"])
    ensures "0" !in assets ==> AssetReference(env, assets, Bool(false)) == Err(NoAssetDefined(""))
    ensures "0" in filters ==> FilterReference(filters, Bool(false)) == Ok(filters["0"])
  {
  }

  /**
   * When a url call writes the group, the cache buster is the md5 of the content it has
   * just written, not of the file it replaced.
   */
  lemma FreshWriteHashesNewContent(fs: Fs, coll: AsseticAsset)
    requires coll.AssetCollection? && TargetText(coll.targetPath) != ""
    ensures CacheBuster(true, Md5FileAfter(fs, coll, true, TargetText(coll.targetPath))) ==
            "?" + fs.md5(fs.dump(coll))
  {
  }

  /** Null url options behave like an empty options array: the md5 flag falls back to the default. */
  lemma NullOptionsAreEmpty(default: Value)
    ensures Md5Option(None, default) == Md5Option(Some(map[]), default) == default
  {
  }
}
