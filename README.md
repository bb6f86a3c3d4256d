# Theme asset groups, modelled in Dafny

This project models the asset-group resolver `Asset` of the laravel-themes package
(`src/Asset.php`). A theme's configuration names asset groups. Each group lists
assets (registered names, file paths, glob patterns or `http://` URLs), filters
(registered names) and an output file. The resolver builds each group on first use
into one asset collection, writes the merged output file when it is stale, caches
the collection per name, and returns the group's public URL, optionally with an md5
cache buster. It also builds the two registries the groups refer to (named filters
from `theme.filters`, named assets from `theme.assets`) when it is constructed.

Files:

- `wrappers.dfy` (module `Wrappers`): `Option` and `Result`; an `Err` is an exception the PHP code throws.
- `php.dfy` (module `Php`): configuration values, PHP truthiness and string conversion, the
  `foreach` view of an array, and the framework helpers `Str::startsWith` and `Str::contains`.
- `collect.dfy` (module `Collect`): the two loop shapes of the resolver as functions. `MapAll`
  appends one result per element and stops at the first exception. `Register` sets entries in a
  name-to-object manager. Both come with lemmas on order, length and first error.
- `themes.dfy` (module `Themes`): the resolver. It holds the datatypes, the pure operations as
  functions, and the class `Asset`. The class has the `groups` cache, the two registries, the
  `md5` default and a log of the files written.
- `theme_properties.dfy` (module `ThemeProperties`): lemmas about the model.

The environment is an input. `Env` holds the active theme name, the configuration and the theme
path helpers. The path helpers `themePath` and `assetsPath`, `is_callable` and filter factories
are uninterpreted functions. `Fs` is the filesystem as a call finds it: modification times, the
collection's last-modified time, `md5_file` of existing files, and the merged content the writer
stores. A call to `AssetWriter::writeAsset` is an entry appended to `Asset.written`. A `url` call
that writes the group hashes the content it has just written.

Three behaviours of the code are worth knowing:

- A group without `output` raises an AssetsException, because `getConfig` rejects a null value
  (`ThemeProperties.MissingOutputFails`).
- The cache buster is the md5 of the group's own target file, read after that call's write. It is
  not the md5 of any input asset (`Themes.Asset.Url`).
- The collection receives one asset per listed entry, repeats included.

## Model

| member | source | states |
|---|---|---|
| `Themes.GetConfig` | src/Asset.php:257-264 | reads `<theme>_theme.<theme>.groups.<group>.<key>`; fails with an AssetsException naming that key exactly when the value (or the default) is falsy and not an array, else returns it |
| `Themes.ParseAssetDefinition` | src/Asset.php:246-255 | a string starting with `http://` is an HTTP asset, even if it holds `*` or `?`; otherwise `*` or `?` makes a glob, anything else a file; both resolve `themePath(current + "/" + asset)` |
| `Themes.AssetReference` | src/Asset.php:128-140 | a registered name, looked up as a PHP array key (so `false` selects key 0), yields the registered asset before any path test; else a reference whose string contains `/`, `.` or `-` is parsed; else "No asset defined" is raised |
| `Themes.FilterReference` | src/Asset.php:156-158 | a group's filter entry succeeds exactly when, looked up as a PHP array key, it names a registered filter, and yields that filter; otherwise it raises "no such filter" |
| `Themes.CreateFilter` | src/Asset.php:186-197 | dispatch in priority order: a callable is invoked, a string is instantiated, an object is used as is; anything else raises "Cannot convert" |
| `Themes.RefList` | src/Asset.php:205-207 | a non-array `theme.assets` value is wrapped into a one-element list |
| `Themes.Asset.constructor` | src/Asset.php:32-39 | the new resolver has the given registries, `md5` from `theme.md5` (default false), an empty group cache and nothing written |
| `Themes.Asset.Construct` | src/Asset.php:32-39 | construction fails exactly when the filter or the asset registry fails, with the filter registry's error first; otherwise it gives a valid resolver with an empty cache |
| `Themes.Asset.CreateFilterManager` | src/Asset.php:168-177 | the loop registers each `theme.filters` entry through createFilter, as `FilterRegistry` specifies |
| `Themes.Asset.CreateAssetManager` | src/Asset.php:199-224 | the nested loops parse each `theme.assets` entry's references and register nothing, the single asset or a collection, as `AssetRegistry` specifies |
| `Themes.Asset.CreateAssetArray` | src/Asset.php:124-144 | the loop builds the group's asset list, or stops at the first bad entry, as `AssetArray` specifies |
| `Themes.Asset.CreateFilterArray` | src/Asset.php:152-161 | the loop builds the group's filter list, or stops at the first unknown filter, as `FilterArray` specifies |
| `Themes.Asset.CreateGroup` | src/Asset.php:48-81 | a cached name returns the cached collection with no write and no state change, even with overwrite; otherwise the result is a fresh build; on success it is cached under its name only, and it is written once exactly when `NeedsWrite` holds (skipped only if not overwrite, target exists, last-modified is non-null and non-zero, and target mtime is at least that); on failure nothing changes |
| `Themes.Asset.File` | src/Asset.php:110-115 | the group's target path, after resolving the group as createGroup without overwrite does |
| `Themes.Asset.Url` | src/Asset.php:90-102 | `"/" + targetPath`, then `"?"` and `md5_file(targetPath)` exactly when the md5 option (default `theme.md5`) is truthy; the hash is read after this call's write, so a group written now hashes to its new content; the empty path has no hash; the group is resolved and written at most once |
| `Themes.Asset.GetAsset` | src/Asset.php:235-237 | the URL is `/` followed by `assetsPath(type + "/" + file)` |
| `Themes.Asset.Img` | src/Asset.php:227-229 | the URL is `/` followed by `assetsPath("img/" + file)` |
| `Themes.Asset.Pdf` | src/Asset.php:231-233 | the URL is `/` followed by `assetsPath("pdf/" + file)` |
| `Php.ArrayKey` | src/Asset.php:130-131 | the key an `isset($registry[$v])` lookup uses: defined exactly for scalars, equal to the string conversion except that `false` selects key "0" |
| `Php.ContainsAny` | src/Asset.php:134 | `Str::contains` with a needle list holds exactly when some non-empty needle occurs in the string |
| `Php.OccursChar` | src/Asset.php:250 | a one-character needle occurs exactly when that character is in the string |
| `ThemeProperties.MissingListDefaultsToEmpty` | src/Asset.php:126 | a missing `assets` or `filters` value defaults to an empty list and does not raise |
| `ThemeProperties.MissingOutputFails` | src/Asset.php:57 | a missing or falsy non-array `output` makes the group fail; after assets and filters resolve, the error is the AssetsException for `output` |
| `ThemeProperties.AssetArrayInOrder` | src/Asset.php:124-144 | the asset list succeeds exactly when the `assets` value is usable and every entry resolves; then it has one asset per entry, in declared order |
| `ThemeProperties.UnknownAssetFails` | src/Asset.php:137-140 | an unregistered entry without `/`, `.` or `-`, after entries that resolved, makes the list fail with NoAssetDefined for it |
| `ThemeProperties.FilterArrayInOrder` | src/Asset.php:152-161 | the filter list succeeds exactly when every entry names a registered filter; then it has those filters in declared order |
| `ThemeProperties.FilterRegistryEntries` | src/Asset.php:168-177 | the filter registry builds exactly when every spec converts, and then maps each configured name to its filter and nothing else |
| `ThemeProperties.FilterRegistryFirstError` | src/Asset.php:172-173 | a failing filter registry reports the first spec that cannot be converted |
| `ThemeProperties.AssetRegistryEntries` | src/Asset.php:204-220 | a name with zero references is not registered, with one is registered as that asset, with several as a collection of them in order; the build fails only on a non-scalar reference |
| `ThemeProperties.GroupContents` | src/Asset.php:54-59 | a built group holds the assets and filters one per entry in declared order, and targets `assetsPath(output)` for a string `output` |
| `ThemeProperties.WriteDecision` | src/Asset.php:61-78 | the output is written exactly when overwrite is asked for, the target is missing, the last-modified time is null or zero, or the target is older than that time |
| `ThemeProperties.FalseEntryIsKeyZero` | src/Asset.php:130-131 | a `false` entry yields the asset or filter registered under key 0, and only an unregistered one fails as "No asset defined" for the empty name |
| `ThemeProperties.FreshWriteHashesNewContent` | src/Asset.php:93-97 | when the url call writes the group, the cache buster is `"?"` and the md5 of the content just written |
| `ThemeProperties.NullOptionsAreEmpty` | src/Asset.php:92-96 | null url options behave like an empty array: the md5 flag falls back to the default |

## Left out

- Assetic internals: how a collection merges content, runs filters and computes its last-modified time. The time is the input `Fs.lastModified`, and the write is a log entry.
- Assetic's name check in `AssetManager::set` and `FilterManager::set`: the model's registries accept every configured name.
- Failures inside a filter spec: `new $class()` on an unknown class, or a factory that throws. The model's instantiation and factories always succeed.
- The types `FilterManager::set` and `AssetManager::set` declare: an object spec that is not a filter, or a factory that returns something other than a filter, raises a TypeError in PHP. The model registers it as a filter.
- Assetic's de-duplication: when a collection is dumped, Assetic skips repeated leaf assets, and it keeps each filter only once. The model's collection keeps every entry, and the content written is the input `Fs.dump`.
- The filesystem: existence, modification times and `md5_file` are inputs. A write changes only what `url` hashes in the same call. A later call is given a new `Fs`, and that `Fs` reflects earlier writes only if the caller builds it so. The existence check and the hash read the target path as given, while the writer stores under `public_path()`. The model treats both as the same file.
- `md5_file` on the empty path (a group whose `output` is an empty array has no target): the model gives false, as PHP 7 does, so the cache buster is `"?"`. PHP 8 raises a ValueError there.
- Configuration lookup is a flat map from full dotted keys; nested arrays are not walked by dots.
- An array or object used where the code needs a string (an asset reference, a filter name, `output`) is the error NotAString in the model. PHP would warn and use "Array", or raise an Error for an object. Floats are not modelled.
- The `secure` flag: it is read but never used, so it has no behaviour to model.
- src/Facades/Theme.php: a facade accessor returning a constant name, with no logic.
- Concurrency and atomic writes: the code is single-threaded and does nothing of the kind.
- Themes.Asset.CreateGroup: the contract does not state that a cache hit reads no configuration, because the model has no log of configuration reads. The cache-hit branch returns before any read.
