# Upload storage core, modelled in Dafny

This project models the storage core of the FoF Upload extension for Flarum:

- how the service provider turns the MIME-type configuration into one lazily
  built adapter factory per adapter key;
- which backend each factory builds (S3, Imgur, Qiniu, Upyun or the local disk),
  and when it throws "Unknown adapter … or missing dependency" instead;
- how the S3 and Upyun adapters derive a file's public URL.

Files and modules:

- `wrappers.dfy` (`Wrappers`): `Option` for PHP's `null`; `Result` and `Outcome` for
  a value or an outcome that may instead be a thrown exception.
- `php.dfy` (`Php`): PHP truthiness (`null`, `""` and `"0"` are false), `?:`, string
  conversion of `null`, and `sprintf` for formats whose only conversion is `%s`.
  It also holds the lemmas that say what such a format prints.
- `config.dfy` (`Config`): the settings as a `map<string, string>`. A missing key
  reads as `null`.
- `file.dfy` (`Files`): the `File` record, a class with the `path` and `url` fields.
- `storage_service_provider.dfy` (`StorageServiceProvider`):
  - the adapter key of a MIME-type entry;
  - the container's binding table (a `map<string, Binding>` in a `Container` class);
  - the registration loop, as a method proved against the function `RegisterAll`;
  - the factory's `switch` (`Resolve`), checked against an independent table of cases;
  - the client configuration the factory builds.
- `aws_s3.dfy` (`AwsS3Adapter`): `S3Url` and the `AwsS3` class whose `GenerateUrl`
  assigns `file.url` and nothing else.
- `upyun.dfy` (`UpyunAdapter`): `UpyunUrl` and the `Upyun` class whose `GenerateUrl`
  either assigns `file.url` or fails with a validation error and leaves the file as
  it was.

Inputs from outside the core are parameters:

- the settings are a map;
- `class_exists` for the three optional client libraries is the `Dependencies`
  record of flags;
- the bucket and region an S3 client reports are fields of the `AwsS3` object;
- the metadata a write reported back (`$this->meta`) is a map field of each adapter.

In three places the code does not do what a reader might expect of such a design. The model follows the code:

- A key the `switch` does not name falls to `default` and builds the local adapter.
  This includes misspelt keys. Only `ovh-svfs` and the gated keys whose library is
  missing throw (src/Providers/StorageServiceProvider.php:61-87).
- Factories are registered with `bind`, not `singleton`. Nothing is cached: each
  resolution runs the closure again, and a failure is thrown again by re-running
  it, not remembered. In the model a factory is the value `AdapterFactory(key)`,
  and running it is `Resolve(key, settings, deps)`.
- A MIME-type entry whose value is a record without an `adapter` field has the
  record itself as its key. PHP interpolates an array as the text `Array`, so that
  entry binds `fof.upload-adapter.Array`. The `switch` sends it to `default`, as it
  does with the key `Array` (`AdapterKey`). PHP also raises its "Array to string
  conversion" notice or warning there; the model treats the conversion as silent.

## Model

| member | source | states |
|---|---|---|
| StorageServiceProvider.AdapterKey | src/Providers/StorageServiceProvider.php:53 | an entry's key is its `adapter` field when present, else the entry itself: the bare name, or `Array` for a record |
| StorageServiceProvider.BindingName | src/Providers/StorageServiceProvider.php:56-60 | the container name is `fof.upload-adapter.` followed by the key, and the key can be read back from it |
| StorageServiceProvider.BindingNameInjective | src/Providers/StorageServiceProvider.php:56-60 | two keys share a container name exactly when they are equal |
| StorageServiceProvider.RegisterEntry | src/Providers/StorageServiceProvider.php:53-60 | one run of the callback adds the entry's name to the bound names, keeps every existing binding, and binds the factory for the entry's key when the name was unbound |
| StorageServiceProvider.RegisterAll | src/Providers/StorageServiceProvider.php:51-60 | the in-order walk over the entries never overwrites or drops a binding; every binding it adds is an adapter factory bound under the name of the key it captures |
| StorageServiceProvider.RegisterAllKeys | src/Providers/StorageServiceProvider.php:51-60 | after registration the bound names are exactly those bound before plus the name of every entry's key; no other name gains a binding |
| StorageServiceProvider.RegisterAllBindsFactory | src/Providers/StorageServiceProvider.php:53-60 | every newly bound name holds the factory for the key it was derived from |
| StorageServiceProvider.RegisterAllAppend | src/Providers/StorageServiceProvider.php:51-52 | registering one more entry is one more run of the callback over the table built so far |
| StorageServiceProvider.LaterEntryLeavesTable | src/Providers/StorageServiceProvider.php:55-58 | first wins: an entry whose name is already bound when its turn comes changes no binding at all |
| StorageServiceProvider.EarlierEntryBinds | src/Providers/StorageServiceProvider.php:53-58 | a later entry with the same key as an earlier one finds its name already bound |
| StorageServiceProvider.Container.Bound | src/Providers/StorageServiceProvider.php:56 | `bound` answers true exactly when the name is in the binding table |
| StorageServiceProvider.Container.Bind | src/Providers/StorageServiceProvider.php:60 | `bind` sets that one name's binding and leaves every other binding as it was |
| StorageServiceProvider.InstantiateUploadAdapters | src/Providers/StorageServiceProvider.php:46-90 | the loop leaves the table equal to `RegisterAll` of the old table and the entries, adds exactly the entries' names and overwrites nothing |
| StorageServiceProvider.MakeAwsS3 | src/Providers/StorageServiceProvider.php:97-113 | the S3 region is absent when the `awsS3Region` setting is null, `""` or `"0"`, and is that setting otherwise; key, secret, endpoint and bucket come from their settings; API version `latest` |
| StorageServiceProvider.MakeImgur | src/Providers/StorageServiceProvider.php:120-130 | the base URI is `https://api.imgur.com/3/` and the Authorization header is `Client-ID ` followed by the `imgurClientId` setting (empty when unset) |
| StorageServiceProvider.MakeQiniu | src/Providers/StorageServiceProvider.php:136-146 | the Qiniu adapter gets `qiniuKey`, `qiniuSecret`, `qiniuBucket` and `qiniuCdn` as access key, secret key, bucket and domain, in that order |
| StorageServiceProvider.MakeUpyun | src/Providers/StorageServiceProvider.php:152-162 | the Upyun adapter gets `upyunBucket`, `upyunOperator`, `upyunPassword` and `upyunCdn` as bucket, operator, password and domain, in that order |
| StorageServiceProvider.Construct | src/Providers/StorageServiceProvider.php:64-84 | the builder for a backend kind yields an adapter of that kind; the local one is rooted at `assets/files` |
| StorageServiceProvider.Selected | src/Providers/StorageServiceProvider.php:61-85 | a key selects no backend exactly when it is `ovh-svfs`, and selects the local backend exactly when the `switch` does not name it |
| StorageServiceProvider.Installed | src/Providers/StorageServiceProvider.php:63-79 | only the S3, Qiniu and Upyun backends can be missing their library; with all three libraries present every backend is available |
| StorageServiceProvider.AdapterError.Message | src/Providers/StorageServiceProvider.php:87 | the thrown text is `Unknown adapter `, the key, then ` or missing dependency` |
| StorageServiceProvider.Resolve | src/Providers/StorageServiceProvider.php:60-88 | the factory succeeds exactly when the key selects a backend whose client library is installed; it then builds that backend from the settings, and otherwise throws the unknown-adapter error naming the key |
| StorageServiceProvider.GatedBackends | src/Providers/StorageServiceProvider.php:61-87 | `aws-s3`, `qiniu` and `upyun` build their adapter exactly when their client library is installed, and throw the unknown-adapter error otherwise |
| StorageServiceProvider.RemovedBackendThrows | src/Providers/StorageServiceProvider.php:67-70 | `ovh-svfs` always throws, whatever is installed |
| StorageServiceProvider.ImgurUngated | src/Providers/StorageServiceProvider.php:71-72 | `imgur` always builds the Imgur adapter, with no dependency check |
| StorageServiceProvider.OtherKeysAreLocal | src/Providers/StorageServiceProvider.php:83-84 | any key other than the five named ones builds the local adapter and never throws |
| StorageServiceProvider.OnlyNamedKeysThrow | src/Providers/StorageServiceProvider.php:61-87 | only `ovh-svfs`, `aws-s3`, `qiniu` and `upyun` can throw |
| StorageServiceProvider.RegisteredFactoryResolves | src/Providers/StorageServiceProvider.php:53-88 | after registration, the factory under a newly bound entry's name builds what that entry's key resolves to |
| Php.Truthy | src/Adapters/AwsS3.php:17 | a truthy value is a non-empty string, and every string of two or more characters is truthy (`null`, `""` and `"0"` are not); also the `empty()` test at src/Providers/StorageServiceProvider.php:106 and the test at src/Adapters/Upyun.php:17 |
| Php.ToString | src/Providers/StorageServiceProvider.php:126 | concatenating a setting prints its value, or nothing when it is `null` |
| Php.Elvis | src/Adapters/AwsS3.php:23 | `v ?: d` is `v` when `v` is truthy and otherwise `d`, so it is truthy whenever `d` is: the region in a canonical URL is never empty |
| Php.Sprintf | src/Adapters/AwsS3.php:25-28 | a `%s`-only format with no conversion prints itself; also the `sprintf` calls at src/Adapters/AwsS3.php:18, 23 and src/Adapters/Upyun.php:18 |
| Config.Get | src/Adapters/AwsS3.php:17 | a setting reads as its stored value when the key is present and as `null` otherwise |
| Php.LiteralPrefix | src/Adapters/AwsS3.php:25-28 | text without `%` at the front of a format is printed verbatim and consumes no argument |
| Php.ConversionPrefix | src/Adapters/AwsS3.php:26-27 | a leading `%s` prints the first argument and leaves the rest to the remaining format |
| Php.JoinWithSlash | src/Adapters/AwsS3.php:18 | `sprintf('%s/%s', a, b)` is `a`, a slash, then `b` |
| Php.TwoConversions | src/Adapters/AwsS3.php:23 | a format of literal texts around two `%s` prints the texts with the two arguments in place |
| Php.TrailingConversion | src/Adapters/AwsS3.php:25-28 | a `%`-free base followed by `%s` prints the base and then the argument |
| AwsS3Adapter.UploadPath | src/Adapters/AwsS3.php:18 | the path is the metadata's `path` when present, else the file's own path |
| AwsS3Adapter.CanonicalBaseUrl | src/Adapters/AwsS3.php:23 | the base URL is `https://{bucket}.s3.{region}.amazonaws.com/`, and contains no `%` when bucket and region contain none |
| AwsS3Adapter.S3Url | src/Adapters/AwsS3.php:17-29 | with a truthy CDN the URL is the CDN, `/` and the path; otherwise it is `https://{bucket}.s3.{region or us-east-1}.amazonaws.com/{path}`, where the region counts only when truthy; both branches use the metadata-preferred path |
| AwsS3Adapter.CdnIgnoresBucketAndRegion | src/Adapters/AwsS3.php:17-18 | with a truthy CDN the bucket and region make no difference to the URL |
| AwsS3Adapter.UrlEndsWithPath | src/Adapters/AwsS3.php:18-27 | in both branches the URL ends with `/` and the upload path, so the path can be read back off it |
| AwsS3Adapter.AwsS3.GenerateUrl | src/Adapters/AwsS3.php:12-30 | always succeeds and sets `file.url` to `S3Url` of the settings, metadata, file path, bucket and region; only `url` may change, and the new URL does not depend on the old one |
| AwsS3Adapter.GenerateUrlTwice | src/Adapters/AwsS3.php:12-30 | a second call with the same settings leaves the URL the first call produced |
| UpyunAdapter.UpyunUrl | src/Adapters/Upyun.php:16-21 | succeeds exactly when the `upyunCdn` value is truthy, with the URL CDN, `/`, path; otherwise fails with `upload: Upyun cloud CDN address is not configured.` and has no fallback URL |
| UpyunAdapter.UrlEndsWithPath | src/Adapters/Upyun.php:18 | a derived URL ends with `/` and the file's path |
| UpyunAdapter.Upyun.GenerateUrl | src/Adapters/Upyun.php:12-22 | passes exactly when the CDN setting is truthy and then sets `file.url` from the CDN and the file's own path, not the write metadata; on failure returns the validation error and leaves `file.url` unchanged; `path` never changes |
| UpyunAdapter.GenerateUrlTwice | src/Adapters/Upyun.php:16-18 | two calls with the same settings give the same outcome and the same URL |

## Left out

- Client construction and networking: the S3, Guzzle, Qiniu and Upyun clients and what they do at run time are foreign libraries. The model keeps only the configuration values handed to them, as records.
- `class_exists` is the `Dependencies` flags. `$settings->get` is a map lookup. The prefixing or defaults the settings helper may apply are not modelled, because the helper is not part of this model.
- `public_path('assets/files')`: the local adapter records only the directory `assets/files`. The application's public root is not modelled.
- The container: only its binding table is modelled. `bound` also consults resolved instances and aliases, which are not modelled. The laziness of closures and the identity of built objects are not modelled either. Because `bind` is not `singleton`, the code promises no instance reuse, so there is nothing to prove about it.
- `register()` only calls `instantiateUploadAdapters`. Its `overrideAvatarUpload` branch is empty (a TODO), so it adds nothing to the model.
- The `Flysystem` base class, which writes the bytes and fills `$this->meta`, is not part of this model. The metadata is an input. The Imgur, Qiniu and Local adapters are not part of this model either; only their selection is.
- `sprintf` is modelled only for formats whose only conversion is `%s`. PHP's other directives, and its error for too few arguments, are not modelled.
- AwsS3Adapter.S3Url: requires that the bucket and the region used contain no `%` when no CDN is set. The code appends `%s` to a base URL built from them and uses the result as a format. A `%` in either would be read as a directive, and that case is not modelled.
- AwsS3Adapter.AwsS3.GenerateUrl: carries the same `%` precondition, for the same reason.
- The S3 client's `getRegion()` and `getBucket()` are modelled as strings, with `null` as `""`. A `null` region is falsy like `""`, so `?:` replaces it with `us-east-1` and the empty string does the same. A `null` bucket prints as `""` through `%s`, as the empty string does.
- Files: the file record has only `path` and `url`. Its other attributes are untouched by the adapters' frames and are not modelled.
