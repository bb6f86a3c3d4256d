/**
 * The asset-group resolver of src/Asset.php: named groups of file, glob and
 * HTTP assets plus named filters, read from the theme configuration, merged
 * into one output file when it is stale, and exposed as a public URL.
 *
 * The framework and the filesystem are inputs: `Env` holds the active theme,
 * the configuration and the theme path helpers; `Fs` is the filesystem as a
 * group is resolved. Writing a merged file appends to the `written` log.
 */
module Themes {
  import opened Wrappers
  import opened Php
  import opened Collect

  /** A filter object: one built by `new $class()`, or an existing instance. */
  datatype Filter = Instantiated(className: string) | Instance(handle: nat)

  /** The asset objects the resolver builds; a group is an AssetCollection with a target path. */
  datatype AsseticAsset =
    | HttpAsset(url: string)
    | GlobAsset(pattern: string)
    | FileAsset(path: string)
    | AssetCollection(parts: seq<AsseticAsset>, filters: seq<Filter>, targetPath: Option<string>)

  /** The exceptions the resolver lets escape. */
  datatype Error =
    | AssetsException(key: string)      // a group's config value is falsy and not an array
    | NoAssetDefined(name: string)      // not registered and not path-like
    | CannotConvert(spec: Value)        // a filter spec that is not callable, string or object
    | NoSuchFilter(alias: string)       // a group names a filter that was never registered
    | NotAString(v: Value)              // an array or object used where a string is needed

  /** The framework around the resolver. */
  datatype Env = Env(
    current: string,                    // \Theme::current()
    config: map<string, Value>,         // config(), keyed by full dotted key
    themePath: string -> string,        // \Theme::themePath
    assetsPath: string -> string,       // \Theme::assetsPath
    isCallable: Value -> bool,          // is_callable
    call: Value -> Filter,              // call_user_func on a filter factory
    publicPath: string)                 // public_path()

  /** The filesystem as a call finds it, before the call writes anything. */
  datatype Fs = Fs(
    mtime: map<string, int>,                        // file_exists / filemtime
    lastModified: AsseticAsset -> Option<int>,      // AssetCollection::getLastModified (None is null)
    md5File: string -> Option<string>,              // md5_file of an existing path (None is false)
    dump: AsseticAsset -> string,                   // the merged, filtered content the writer stores
    md5: string -> string)                          // md5 of a content

  /** One call of AssetWriter::writeAsset: the collection dumped under the public root. */
  datatype Write = Write(root: string, asset: AsseticAsset)

  /** `config($key, $default)`. */
  function Config(env: Env, key: string, default: Value): Value {
    if key in env.config then env.config[key] else default
  }

  function ConfigKey(current: string, group: string, key: string): string {
    current + "_theme." + current + ".groups." + group + "." + key
  }

  /**
   * getConfig: the group's value under `key`, failing exactly when that value (or the
   * default, if the key is absent) is falsy and not an array.
   */
  function GetConfig(env: Env, group: string, key: string, default: Value): (r: Result<Value, Error>)
    ensures var v := Config(env, ConfigKey(env.current, group, key), default);
            && (r.Ok? <==> Truthy(v) || IsArray(v))
            && (r.Ok? ==> r.value == v)
            && (r.Err? ==> r.error == AssetsException(ConfigKey(env.current, group, key)))
  {
    var k := ConfigKey(env.current, group, key);
    var value := Config(env, k, default);
    if !Truthy(value) && !IsArray(value) then Err(AssetsException(k)) else Ok(value)
  }

  /**
   * parseAssetDefinition: an `http://` URL is an HTTP asset whatever else it contains;
   * otherwise a string with `*` or `?` is a glob and anything else a file, both under
   * the active theme's directory.
   */
  function ParseAssetDefinition(env: Env, asset: string): (r: AsseticAsset)
    ensures r.HttpAsset? <==> |asset| >= 7 && asset[..7] == "http://"
    ensures r.HttpAsset? ==> r.url == asset
    ensures r.GlobAsset? <==> !r.HttpAsset? && ('*' in asset || '?' in asset)
    ensures r.FileAsset? <==> !r.HttpAsset? && '*' !in asset && '?' !in asset
    ensures r.GlobAsset? ==> r.pattern == env.themePath(env.current + "/" + asset)
    ensures r.FileAsset? ==> r.path == env.themePath(env.current + "/" + asset)
  {
    OccursChar('*', asset);
    OccursChar('?', asset);
    var wildcards := ["*", "?"];
    assert wildcards[0] == ['*'] && wildcards[1] == ['?'];
    if StartsWith(asset, "http://") then HttpAsset(asset)
    else if ContainsAny(asset, wildcards) then GlobAsset(env.themePath(env.current + "/" + asset))
    else FileAsset(env.themePath(env.current + "/" + asset))
  }

  /**
   * One entry of a group's `assets` list: a registered name (looked up as an array key)
   * yields the registered asset; otherwise a string with `/`, `.` or `-` is parsed;
   * anything else is unknown.
   */
  function AssetReference(env: Env, registry: map<string, AsseticAsset>, ref: Value): (r: Result<AsseticAsset, Error>)
    ensures ArrayKey(ref).None? ==> r == Err(NotAString(ref))
    ensures ArrayKey(ref).Some? && ArrayKey(ref).value in registry ==> r == Ok(registry[ArrayKey(ref).value])
    ensures ArrayKey(ref).Some? && ArrayKey(ref).value !in registry ==>
              var s := ToStr(ref).value;
              && (('/' in s || '.' in s || '-' in s) ==> r == Ok(ParseAssetDefinition(env, s)))
              && (('/' !in s && '.' !in s && '-' !in s) ==> r == Err(NoAssetDefined(s)))
  {
    match ArrayKey(ref)
    case None => Err(NotAString(ref))
    case Some(key) =>
      if key in registry then Ok(registry[key])
      else
        var s := ToStr(ref).value;
        OccursChar('/', s);
        OccursChar('.', s);
        OccursChar('-', s);
        var pathChars := ["/", ".", "-"];
        assert pathChars[0] == ['/'] && pathChars[1] == ['.'] && pathChars[2] == ['-'];
        if ContainsAny(s, pathChars) then Ok(ParseAssetDefinition(env, s))
        else Err(NoAssetDefined(s))
  }

  function AssetReferenceFn(env: Env, registry: map<string, AsseticAsset>): Value -> Result<AsseticAsset, Error> {
    ref => AssetReference(env, registry, ref)
  }

  /** The asset list of a group (createAssetArray), as a specification. */
  function AssetArray(env: Env, registry: map<string, AsseticAsset>, name: string): Result<seq<AsseticAsset>, Error> {
    var config :- GetConfig(env, name, "assets", List([]));
    MapAll(AssetReferenceFn(env, registry), Items(config))
  }

  /** One entry of a group's `filters` list: FilterManager::get on a registered alias, looked up as an array key. */
  function FilterReference(registry: map<string, Filter>, ref: Value): (r: Result<Filter, Error>)
    ensures r.Ok? <==> ArrayKey(ref).Some? && ArrayKey(ref).value in registry
    ensures r.Ok? ==> r.value == registry[ArrayKey(ref).value]
    ensures ArrayKey(ref).Some? && ArrayKey(ref).value !in registry ==> r == Err(NoSuchFilter(ToStr(ref).value))
  {
    match ArrayKey(ref)
    case None => Err(NotAString(ref))
    case Some(key) => if key in registry then Ok(registry[key]) else Err(NoSuchFilter(ToStr(ref).value))
  }

  function FilterReferenceFn(registry: map<string, Filter>): Value -> Result<Filter, Error> {
    ref => FilterReference(registry, ref)
  }

  /** The filter list of a group (createFilterArray), as a specification. */
  function FilterArray(env: Env, registry: map<string, Filter>, name: string): Result<seq<Filter>, Error> {
    var config :- GetConfig(env, name, "filters", List([]));
    MapAll(FilterReferenceFn(registry), Items(config))
  }

  /**
   * createFilter: a callable spec is invoked, else a string names a class to instantiate,
   * else an object is used as it is; any other value cannot be converted.
   */
  function CreateFilter(env: Env, spec: Value): (r: Result<Filter, Error>)
    ensures r.Err? <==> !IsCallable(env, spec) && !spec.Str? && !spec.Object?
    ensures r.Err? ==> r.error == CannotConvert(spec)
    ensures IsCallable(env, spec) ==> r == Ok(env.call(spec))
    ensures !IsCallable(env, spec) && spec.Str? ==> r == Ok(Instantiated(spec.s))
    ensures !IsCallable(env, spec) && spec.Object? ==> r == Ok(Instance(spec.handle))
  {
    if IsCallable(env, spec) then Ok(env.call(spec))
    else if spec.Str? then Ok(Instantiated(spec.s))
    else if spec.Object? then Ok(Instance(spec.handle))
    else Err(CannotConvert(spec))
  }

  /** is_callable: only strings, arrays and objects can name something callable. */
  predicate IsCallable(env: Env, v: Value) {
    (v.Str? || v.List? || v.Object?) && env.isCallable(v)
  }

  function FilterStep(env: Env, spec: Value): Result<Option<Filter>, Error> {
    var filter :- CreateFilter(env, spec);
    Ok(Some(filter))
  }

  function FilterStepFn(env: Env): Value -> Result<Option<Filter>, Error> {
    spec => FilterStep(env, spec)
  }

  /** The filter registry built from `theme.filters` (createFilterManager), as a specification. */
  function FilterRegistry(env: Env): Result<map<string, Filter>, Error> {
    Register(FilterStepFn(env), Entries(Config(env, "theme.filters", List([]))))
  }

  /** The references of one `theme.assets` entry: a non-array is wrapped into a one-element list. */
  function RefList(refs: Value): (r: seq<Value>)
    ensures !IsArray(refs) ==> r == [refs]
    ensures IsArray(refs) ==> r == Items(refs)
  {
    if IsArray(refs) then Items(refs) else [refs]
  }

  function ParseReference(env: Env, ref: Value): Result<AsseticAsset, Error> {
    match ToStr(ref)
    case None => Err(NotAString(ref))
    case Some(s) => Ok(ParseAssetDefinition(env, s))
  }

  function ParseReferenceFn(env: Env): Value -> Result<AsseticAsset, Error> {
    ref => ParseReference(env, ref)
  }

  /** What a `theme.assets` entry registers: nothing, its single asset, or a collection of them. */
  function Registered(parsed: seq<AsseticAsset>): Option<AsseticAsset> {
    if |parsed| == 0 then None
    else if |parsed| > 1 then Some(AssetCollection(parsed, [], None))
    else Some(parsed[0])
  }

  function AssetStep(env: Env, refs: Value): Result<Option<AsseticAsset>, Error> {
    var parsed :- MapAll(ParseReferenceFn(env), RefList(refs));
    Ok(Registered(parsed))
  }

  function AssetStepFn(env: Env): Value -> Result<Option<AsseticAsset>, Error> {
    refs => AssetStep(env, refs)
  }

  /** The asset registry built from `theme.assets` (createAssetManager), as a specification. */
  function AssetRegistry(env: Env): Result<map<string, AsseticAsset>, Error> {
    Register(AssetStepFn(env), Entries(Config(env, "theme.assets", List([]))))
  }

  /** The target path set on a group from its `output` value: only a truthy value sets one. */
  function TargetPath(env: Env, output: Value): Result<Option<string>, Error> {
    if !Truthy(output) then Ok(None)
    else match ToStr(output)
      case None => Err(NotAString(output))
      case Some(s) => Ok(Some(env.assetsPath(s)))
  }

  /** The group collection createGroup builds for `name` on a cache miss, as a specification. */
  function BuildGroup(env: Env, assets: map<string, AsseticAsset>, filters: map<string, Filter>, name: string)
    : Result<AsseticAsset, Error>
  {
    var parts :- AssetArray(env, assets, name);
    var fs :- FilterArray(env, filters, name);
    var output :- GetConfig(env, name, "output", Null);
    var target :- TargetPath(env, output);
    Ok(AssetCollection(parts, fs, target))
  }

  /** A null target path reads as the empty string. */
  function TargetText(target: Option<string>): string {
    target.GetOr("")
  }

  /** `file_exists`: the empty path never exists. */
  predicate FileExists(fs: Fs, path: string) {
    path != "" && path in fs.mtime
  }

  /**
   * The output is written unless all of these hold: no overwrite was asked for, the
   * target file exists, the collection's last-modified time is non-null and non-zero,
   * and the target is at least that recent.
   */
  predicate NeedsWrite(overwrite: bool, coll: AsseticAsset, fs: Fs)
    requires coll.AssetCollection?
  {
    var path := TargetText(coll.targetPath);
    var assetMtime := fs.lastModified(coll);
    !(!overwrite && FileExists(fs, path) && assetMtime.Some? && assetMtime.value != 0 &&
      fs.mtime[path] >= assetMtime.value)
  }

  function WritesFor(root: string, overwrite: bool, coll: AsseticAsset, fs: Fs): seq<Write>
    requires coll.AssetCollection?
  {
    if NeedsWrite(overwrite, coll, fs) then [Write(root, coll)] else []
  }

  /** `Arr::get($options, 'md5', $this->md5)`, where null options act as an empty array. */
  function Md5Option(options: Option<map<string, Value>>, default: Value): Value {
    match options
    case None => default
    case Some(o) => if "md5" in o then o["md5"] else default
  }

  /**
   * `md5_file($path)` once the group `coll` has been resolved: the empty path has no hash,
   * the target the resolution has just written hashes to the written content, and any other
   * path is as the call found it.
   */
  function Md5FileAfter(fs: Fs, coll: AsseticAsset, wrote: bool, path: string): Option<string>
    requires coll.AssetCollection?
  {
    if path == "" then None
    else if wrote && path == TargetText(coll.targetPath) then Some(fs.md5(fs.dump(coll)))
    else fs.md5File(path)
  }

  /** The `?<hash>` suffix when the md5 option is on; a missing hash (false) adds nothing after `?`. */
  function CacheBuster(on: bool, hash: Option<string>): string {
    if on then "?" + hash.GetOr("") else ""
  }

  class Asset {
    const env: Env
    var groups: map<string, AsseticAsset>
    var filters: map<string, Filter>
    var assets: map<string, AsseticAsset>
    var md5: Value
    /** Every writeAsset call, in order. */
    var written: seq<Write>

    /** The registries come from the configuration, and every cached group is what a fresh build gives. */
    ghost predicate Valid()
      reads this
    {
      && FilterRegistry(env) == Ok(filters)
      && AssetRegistry(env) == Ok(assets)
      && md5 == Config(env, "theme.md5", Bool(false))
      && forall n :: n in groups ==> BuildGroup(env, assets, filters, n) == Ok(groups[n]) && groups[n].AssetCollection?
    }

    constructor (env: Env, filters: map<string, Filter>, assets: map<string, AsseticAsset>)
      requires FilterRegistry(env) == Ok(filters) && AssetRegistry(env) == Ok(assets)
      ensures Valid() && this.env == env && groups == map[] && written == []
    {
      this.env := env;
      this.filters := filters;
      this.assets := assets;
      md5 := Config(env, "theme.md5", Bool(false));
      groups := map[];
      written := [];
    }

    /** The PHP constructor: build the filter manager, then the asset manager, then read `theme.md5`. */
    static method Construct(env: Env) returns (r: Result<Asset, Error>)
      ensures r.Ok? <==> FilterRegistry(env).Ok? && AssetRegistry(env).Ok?
      ensures r.Err? ==> r.error == if FilterRegistry(env).Err? then FilterRegistry(env).error
                                    else AssetRegistry(env).error
      ensures r.Ok? ==> fresh(r.value) && r.value.Valid() && r.value.env == env &&
                        r.value.groups == map[] && r.value.written == []
    {
      var filters :- CreateFilterManager(env);
      var assets :- CreateAssetManager(env);
      var a := new Asset(env, filters, assets);
      r := Ok(a);
    }

    /** createFilterManager: register every `theme.filters` entry through createFilter. */
    static method CreateFilterManager(env: Env) returns (r: Result<map<string, Filter>, Error>)
      ensures r == FilterRegistry(env)
    {
      var config := Entries(Config(env, "theme.filters", List([])));
      var manager: map<string, Filter> := map[];
      for i := 0 to |config|
        invariant Register(FilterStepFn(env), config[..i]) == Ok(manager)
      {
        RegisterExtend(FilterStepFn(env), config, i, manager);
        var filter := CreateFilter(env, config[i].1);
        if filter.Err? {
          return Err(filter.error);
        }
        manager := manager[config[i].0 := filter.value];
      }
      assert config[..|config|] == config;
      r := Ok(manager);
    }

    /** createAssetManager: register every `theme.assets` entry that has at least one reference. */
    static method CreateAssetManager(env: Env) returns (r: Result<map<string, AsseticAsset>, Error>)
      ensures r == AssetRegistry(env)
    {
      var config := Entries(Config(env, "theme.assets", List([])));
      var manager: map<string, AsseticAsset> := map[];
      for i := 0 to |config|
        invariant Register(AssetStepFn(env), config[..i]) == Ok(manager)
      {
        var key := config[i].0;
        var refs := RefList(config[i].1);
        var asset: seq<AsseticAsset> := [];
        for j := 0 to |refs|
          invariant MapAll(ParseReferenceFn(env), refs[..j]) == Ok(asset)
        {
          MapAllExtend(ParseReferenceFn(env), refs, j, asset);
          var ref := ToStr(refs[j]);
          if ref.None? {
            RegisterExtend(AssetStepFn(env), config, i, manager);
            return Err(NotAString(refs[j]));
          }
          asset := asset + [ParseAssetDefinition(env, ref.value)];
        }
        assert refs[..|refs|] == refs;
        RegisterExtend(AssetStepFn(env), config, i, manager);
        if |asset| > 0 {
          manager := manager[key := if |asset| > 1 then AssetCollection(asset, [], None) else asset[0]];
        }
      }
      assert config[..|config|] == config;
      r := Ok(manager);
    }

    /** createAssetArray: one asset per entry of the group's `assets` list, in order. */
    method CreateAssetArray(name: string) returns (r: Result<seq<AsseticAsset>, Error>)
      ensures r == AssetArray(env, assets, name)
    {
      var config :- GetConfig(env, name, "assets", List([]));
      var refs := Items(config);
      var result: seq<AsseticAsset> := [];
      for i := 0 to |refs|
        invariant MapAll(AssetReferenceFn(env, assets), refs[..i]) == Ok(result)
      {
        MapAllExtend(AssetReferenceFn(env, assets), refs, i, result);
        var asset := AssetReference(env, assets, refs[i]);
        if asset.Err? {
          return Err(asset.error);
        }
        result := result + [asset.value];
      }
      assert refs[..|refs|] == refs;
      r := Ok(result);
    }

    /** createFilterArray: one filter per entry of the group's `filters` list, in order. */
    method CreateFilterArray(name: string) returns (r: Result<seq<Filter>, Error>)
      ensures r == FilterArray(env, filters, name)
    {
      var config :- GetConfig(env, name, "filters", List([]));
      var refs := Items(config);
      var result: seq<Filter> := [];
      for i := 0 to |refs|
        invariant MapAll(FilterReferenceFn(filters), refs[..i]) == Ok(result)
      {
        MapAllExtend(FilterReferenceFn(filters), refs, i, result);
        var filter := FilterReference(filters, refs[i]);
        if filter.Err? {
          return Err(filter.error);
        }
        result := result + [filter.value];
      }
      assert refs[..|refs|] == refs;
      r := Ok(result);
    }

    /**
     * createGroup: a cached group is returned as it is; otherwise the group is built,
     * written when NeedsWrite says so, and cached under its name.
     */
    method CreateGroup(name: string, overwrite: bool, fs: Fs) returns (r: Result<AsseticAsset, Error>)
      requires Valid()
      modifies this`groups, this`written
      ensures Valid()
      ensures name in old(groups) ==>
                r == Ok(old(groups)[name]) && groups == old(groups) && written == old(written)
      ensures name !in old(groups) ==> r == BuildGroup(env, assets, filters, name)
      ensures name !in old(groups) && r.Ok? ==>
                && r.value.AssetCollection?
                && groups == old(groups)[name := r.value]
                && written == old(written) + WritesFor(env.publicPath, overwrite, r.value, fs)
      ensures name !in old(groups) && r.Err? ==> groups == old(groups) && written == old(written)
    {
      if name in groups {
        return Ok(groups[name]);
      }
      var parts :- CreateAssetArray(name);
      var filterList :- CreateFilterArray(name);
      var output :- GetConfig(env, name, "output", Null);
      var target :- TargetPath(env, output);
      var coll := AssetCollection(parts, filterList, target);

      // decide whether the stored output is stale
      var writeOutput := true;
      if !overwrite {
        var path := TargetText(coll.targetPath);
        if FileExists(fs, path) {
          var outputMtime := fs.mtime[path];
          var assetMtime := fs.lastModified(coll);
          if assetMtime.Some? && assetMtime.value != 0 && outputMtime >= assetMtime.value {
            writeOutput := false;
          }
        }
      }

      // write the merged output once when it is stale or overwrite was asked for
      if overwrite || writeOutput {
        written := written + [Write(env.publicPath, coll)];
      }
      groups := groups[name := coll];
      r := Ok(coll);
    }

    /** file: the target path of the group, resolving it first. */
    method File(name: string, fs: Fs) returns (r: Result<Option<string>, Error>)
      requires Valid()
      modifies this`groups, this`written
      ensures Valid()
      ensures r.Ok? <==> name in old(groups) || BuildGroup(env, assets, filters, name).Ok?
      ensures r.Ok? ==> name in groups && groups[name].AssetCollection? && r.value == groups[name].targetPath
      ensures name in old(groups) ==> groups == old(groups) && written == old(written)
      ensures name !in old(groups) && r.Ok? ==>
                && groups == old(groups)[name := BuildGroup(env, assets, filters, name).value]
                && written == old(written) + WritesFor(env.publicPath, false, groups[name], fs)
      ensures r.Err? ==> groups == old(groups) && written == old(written)
    {
      var group :- CreateGroup(name, false, fs);
      r := Ok(group.targetPath);
    }

    /**
     * url: "/" and the group's target path, followed by "?" and the md5 of that target
     * file, read after this call's write, when the `md5` option (default `theme.md5`) is
     * truthy. The group is written at most once, on its first resolution.
     */
    method Url(name: string, options: Option<map<string, Value>>, fs: Fs) returns (r: Result<string, Error>)
      requires Valid()
      modifies this`groups, this`written
      ensures Valid()
      ensures r.Ok? <==> name in old(groups) || BuildGroup(env, assets, filters, name).Ok?
      ensures r.Ok? ==> name in groups && groups[name].AssetCollection?
      ensures r.Ok? ==>
                var g := groups[name];
                var wrote := name !in old(groups) && NeedsWrite(false, g, fs);
                r.value == "/" + TargetText(g.targetPath) +
                              CacheBuster(Truthy(Md5Option(options, md5)),
                                          Md5FileAfter(fs, g, wrote, TargetText(g.targetPath)))
      ensures name in old(groups) ==> groups == old(groups) && written == old(written)
      ensures name !in old(groups) && r.Ok? ==>
                && groups == old(groups)[name := BuildGroup(env, assets, filters, name).value]
                && written == old(written) + WritesFor(env.publicPath, false, groups[name], fs)
      ensures r.Err? ==> groups == old(groups) && written == old(written)
    {
      var before := |written|;
      var group :- CreateGroup(name, false, fs);
      var wrote := |written| > before;
      var cacheBuster := "";
      if Truthy(Md5Option(options, md5)) {
        var file := File(name, fs);
        cacheBuster := "?" + Md5FileAfter(fs, group, wrote, TargetText(file.value)).GetOr("");
      }
      r := Ok("/" + TargetText(group.targetPath) + cacheBuster);
    }

    /** getAsset: "/" and the theme's public asset path of `<type>/<file>`. */
    function GetAsset(file: string, kind: string): (r: string)
      ensures |r| >= 1 && r[0] == '/' && r[1..] == env.assetsPath(kind + "/" + file)
    {
      "/" + env.assetsPath(kind + "/" + file)
    }

    /** img: the public URL of an image of the theme. */
    function Img(file: string): (r: string)
      ensures |r| >= 1 && r[0] == '/' && r[1..] == env.assetsPath("img/" + file)
    {
      assert "img" + "/" + file == "img/" + file;
      GetAsset(file, "img")
    }

    /** pdf: the public URL of a PDF document of the theme. */
    function Pdf(file: string): (r: string)
      ensures |r| >= 1 && r[0] == '/' && r[1..] == env.assetsPath("pdf/" + file)
    {
      assert "pdf" + "/" + file == "pdf/" + file;
      GetAsset(file, "pdf")
    }
  }
}
