/**
 * The service provider that selects storage adapters: it registers one lazy
 * factory per adapter key named in the MIME-type configuration, and each factory
 * picks the backend for its key, or throws when the key names a removed backend or
 * one whose client library is not installed.
 */
module StorageServiceProvider {
  import opened Wrappers
  import opened Php
  import opened Config

  // ---------------------------------------------------------------------------
  // The MIME-type configuration and the adapter key of an entry

  /** One value of the MIME-type configuration: a bare adapter name, or a record of fields. */
  datatype MimeTypeEntry = Name(name: string) | Fields(fields: map<string, string>)

  /** What PHP's string interpolation makes of an array. */
  const ArrayText := "Array"

  /**
   * `Arr::get($mimetype, 'adapter', $mimetype)`, interpolated into a string: a
   * record's `adapter` field, else the entry itself (which for a record without
   * that field reads as `Array`).
   */
  function AdapterKey(e: MimeTypeEntry): (k: string)
    ensures e.Name? ==> k == e.name
    ensures e.Fields? && "adapter" in e.fields ==> k == e.fields["adapter"]
    ensures e.Fields? && "adapter" !in e.fields ==> k == ArrayText
  {
    match e
    case Name(n) => n
    case Fields(f) => if "adapter" in f then f["adapter"] else ArrayText
  }

  /** The prefix of every container name an adapter factory is bound under. */
  const BindingPrefix := "fof.upload-adapter."

  /** `"fof.upload-adapter.$adapter"`: the prefix followed by the key, which can be read back from it. */
  function BindingName(adapter: string): (n: string)
    ensures |n| == |BindingPrefix| + |adapter|
    ensures n[..|BindingPrefix|] == BindingPrefix && n[|BindingPrefix|..] == adapter
  {
    BindingPrefix + adapter
  }

  /** Distinct keys are bound under distinct names. */
  lemma BindingNameInjective(a: string, b: string)
    ensures BindingName(a) == BindingName(b) <==> a == b
  {
    if BindingName(a) == BindingName(b) {
      assert a == BindingName(a)[|BindingPrefix|..];
    }
  }

  // ---------------------------------------------------------------------------
  // The container's binding table and the registration loop

  /**
   * What the container holds under a name: the closure registered for an adapter
   * key (it captures only that key and the settings), or a binding some other part
   * of the application made.
   */
  datatype Binding = AdapterFactory(adapter: string) | OtherBinding(id: nat)

  type Bindings = map<string, Binding>

  /** The container names of all keys the entries derive. */
  function BoundNames(entries: seq<MimeTypeEntry>): set<string>
  {
    set i | 0 <= i < |entries| :: BindingName(AdapterKey(entries[i]))
  }

  /** One pass of the `each` callback: bind the entry's factory unless its name is bound already. */
  function RegisterEntry(b: Bindings, e: MimeTypeEntry): (r: Bindings)
    ensures r.Keys == b.Keys + {BindingName(AdapterKey(e))}
    ensures forall n :: n in b ==> r[n] == b[n]
    ensures BindingName(AdapterKey(e)) !in b ==> r[BindingName(AdapterKey(e))] == AdapterFactory(AdapterKey(e))
  {
    var name := BindingName(AdapterKey(e));
    if name in b then b else b[name := AdapterFactory(AdapterKey(e))]
  }

  /**
   * The binding table after the callback has run for each entry in order. It never
   * overwrites a binding, and every binding it adds is an adapter factory bound
   * under the name of the key it captures.
   */
  function RegisterAll(b: Bindings, entries: seq<MimeTypeEntry>): (r: Bindings)
    ensures b.Keys <= r.Keys && forall n :: n in b ==> r[n] == b[n]
    ensures forall n :: n in r && n !in b ==> r[n].AdapterFactory? && n == BindingName(r[n].adapter)
    decreases |entries|
  {
    if entries == [] then b else RegisterAll(RegisterEntry(b, entries[0]), entries[1..])
  }

  /** Registration binds exactly the names the entries derive, on top of those already bound. */
  lemma {:induction false} RegisterAllKeys(b: Bindings, entries: seq<MimeTypeEntry>)
    ensures RegisterAll(b, entries).Keys == b.Keys + BoundNames(entries)
    decreases |entries|
  {
    if entries != [] {
      RegisterAllKeys(RegisterEntry(b, entries[0]), entries[1..]);
      BoundNamesCons(entries);
    }
  }

  /** The names of a non-empty list of entries: the first entry's name and those of the rest. */
  lemma BoundNamesCons(entries: seq<MimeTypeEntry>)
    requires entries != []
    ensures BoundNames(entries) == {BindingName(AdapterKey(entries[0]))} + BoundNames(entries[1..])
  {
    var rest := BoundNames(entries[1..]);
    forall n | n in BoundNames(entries) ensures n in {BindingName(AdapterKey(entries[0]))} + rest {
      var i :| 0 <= i < |entries| && n == BindingName(AdapterKey(entries[i]));
      if i > 0 { assert entries[1..][i - 1] == entries[i]; }
    }
    forall n | n in rest ensures n in BoundNames(entries) {
      var i :| 0 <= i < |entries[1..]| && n == BindingName(AdapterKey(entries[1..][i]));
      assert entries[1..][i] == entries[i + 1];
    }
  }

  /** A name that registration binds holds the factory for the key it was derived from. */
  lemma {:induction false} RegisterAllBindsFactory(b: Bindings, entries: seq<MimeTypeEntry>, i: nat)
    requires i < |entries|
    requires BindingName(AdapterKey(entries[i])) !in b
    ensures var name := BindingName(AdapterKey(entries[i]));
            name in RegisterAll(b, entries) && RegisterAll(b, entries)[name] == AdapterFactory(AdapterKey(entries[i]))
    decreases |entries|
  {
    var name := BindingName(AdapterKey(entries[i]));
    var b' := RegisterEntry(b, entries[0]);
    if i == 0 {
      assert name in RegisterAll(b', entries[1..]);
    } else {
      assert entries[1..][i - 1] == entries[i];
      if name in b' {
        BindingNameInjective(AdapterKey(entries[0]), AdapterKey(entries[i]));
        assert name in RegisterAll(b', entries[1..]);
      } else {
        RegisterAllBindsFactory(b', entries[1..], i - 1);
      }
    }
  }

  /** Registering one more entry is one more pass of the callback over the table built so far. */
  lemma {:induction false} RegisterAllAppend(b: Bindings, entries: seq<MimeTypeEntry>, e: MimeTypeEntry)
    ensures RegisterAll(b, entries + [e]) == RegisterEntry(RegisterAll(b, entries), e)
    decreases |entries|
  {
    if entries == [] {
      assert [] + [e] == [e];
      assert [e][1..] == [];
    } else {
      assert (entries + [e])[0] == entries[0];
      assert (entries + [e])[1..] == entries[1..] + [e];
      RegisterAllAppend(RegisterEntry(b, entries[0]), entries[1..], e);
    }
  }

  /** First wins: an entry whose key is already bound when its turn comes leaves the whole table unchanged. */
  lemma LaterEntryLeavesTable(b: Bindings, entries: seq<MimeTypeEntry>, j: nat)
    requires j < |entries|
    requires BindingName(AdapterKey(entries[j])) in RegisterAll(b, entries[..j])
    ensures RegisterAll(b, entries[..j + 1]) == RegisterAll(b, entries[..j])
  {
    assert entries[..j + 1] == entries[..j] + [entries[j]];
    RegisterAllAppend(b, entries[..j], entries[j]);
  }

  /** A name already derived from an earlier entry is bound when a later entry derives it again. */
  lemma {:induction false} EarlierEntryBinds(b: Bindings, entries: seq<MimeTypeEntry>, i: nat, j: nat)
    requires i < j < |entries|
    requires AdapterKey(entries[i]) == AdapterKey(entries[j])
    ensures BindingName(AdapterKey(entries[j])) in RegisterAll(b, entries[..j])
  {
    RegisterAllKeys(b, entries[..j]);
    assert entries[..j][i] == entries[i];
  }

  /** The application container, reduced to its table of bindings. */
  class Container {
    var bindings: Bindings

    constructor (bindings: Bindings)
      ensures this.bindings == bindings
    {
      this.bindings := bindings;
    }

    /** `$app->bound($name)`. */
    method Bound(name: string) returns (r: bool)
      ensures r <==> name in bindings
    {
      r := name in bindings;
    }

    /** `$app->bind($name, $factory)`: a plain binding, not a shared one. */
    method Bind(name: string, factory: Binding)
      modifies this
      ensures bindings == old(bindings)[name := factory]
    {
      bindings := bindings[name := factory];
    }
  }

  /**
   * `instantiateUploadAdapters`: for each MIME-type entry in order, bind a factory
   * for its adapter key unless that key's name is bound already.
   */
  method InstantiateUploadAdapters(app: Container, entries: seq<MimeTypeEntry>)
    modifies app
    ensures app.bindings == RegisterAll(old(app.bindings), entries)
    ensures app.bindings.Keys == old(app.bindings).Keys + BoundNames(entries)
    ensures forall n :: n in old(app.bindings) ==> app.bindings[n] == old(app.bindings)[n]
  {
    var i := 0;
    while i < |entries|
      invariant 0 <= i <= |entries|
      invariant RegisterAll(app.bindings, entries[i..]) == RegisterAll(old(app.bindings), entries)
    {
      var adapter := AdapterKey(entries[i]);
      var bound := app.Bound(BindingName(adapter));
      if !bound {
        app.Bind(BindingName(adapter), AdapterFactory(adapter));
      }
      assert entries[i..][1..] == entries[i + 1..];
      i := i + 1;
    }
    assert entries[i..] == [];
    RegisterAllKeys(old(app.bindings), entries);
  }

  // ---------------------------------------------------------------------------
  // What a factory builds

  /** Which optional client libraries are installed (`class_exists`). */
  datatype Dependencies = Dependencies(s3Client: bool, qiniuClient: bool, upyunClient: bool)

  /** The backends a factory can select. */
  datatype AdapterKind = AwsS3 | Imgur | Qiniu | Upyun | Local

  datatype S3Credentials = S3Credentials(key: Option<string>, secret: Option<string>)

  /** The options the S3 client is constructed with. */
  datatype S3ClientConfig = S3ClientConfig(credentials: S3Credentials, region: Option<string>, endpoint: Option<string>, version: string)

  /** The options the HTTP client for Imgur is constructed with. */
  datatype HttpClientConfig = HttpClientConfig(baseUri: string, authorization: string)

  /** An adapter as the factory constructs it: its backend and the configuration handed to that backend's client. */
  datatype UploadAdapter =
    | AwsS3Adapter(client: S3ClientConfig, bucket: Option<string>)
    | ImgurAdapter(http: HttpClientConfig)
    | QiniuAdapter(accessKey: Option<string>, secretKey: Option<string>, bucket: Option<string>, domain: Option<string>)
    | UpyunAdapter(bucket: Option<string>, operator: Option<string>, password: Option<string>, domain: Option<string>)
    | LocalAdapter(publicDirectory: string)
  {
    function Kind(): AdapterKind
    {
      match this
      case AwsS3Adapter(_, _) => AwsS3
      case ImgurAdapter(_) => Imgur
      case QiniuAdapter(_, _, _, _) => Qiniu
      case UpyunAdapter(_, _, _, _) => Upyun
      case LocalAdapter(_) => Local
    }
  }

  /** The exception a factory throws: "Unknown adapter {key} or missing dependency". */
  datatype AdapterError = UnknownAdapter(adapter: string) {
    function Message(): (m: string)
      ensures |m| == |"Unknown adapter "| + |adapter| + |" or missing dependency"|
      ensures m[..|"Unknown adapter "|] == "Unknown adapter "
      ensures m[|"Unknown adapter "|..|"Unknown adapter "| + |adapter|] == adapter
      ensures m[|"Unknown adapter "| + |adapter|..] == " or missing dependency"
    {
      "Unknown adapter " + adapter + " or missing dependency"
    }
  }

  const S3ApiVersion := "latest"
  const ImgurBaseUri := "https://api.imgur.com/3/"
  const ImgurAuthorizationScheme := "Client-ID "
  /** The directory under the public path local uploads go to. */
  const LocalFilesDirectory := "assets/files"

  /** `awsS3($settings)`: an empty region setting becomes no region at all. */
  function MakeAwsS3(settings: Settings): (a: UploadAdapter)
    ensures a.AwsS3Adapter? && a.client.version == S3ApiVersion
    ensures a.client.region.None? <==> !Truthy(Get(settings, "awsS3Region"))
    ensures a.client.region.Some? ==> a.client.region == Get(settings, "awsS3Region")
    ensures a.client.credentials == S3Credentials(Get(settings, "awsS3Key"), Get(settings, "awsS3Secret"))
    ensures a.client.endpoint == Get(settings, "awsS3Endpoint") && a.bucket == Get(settings, "awsS3Bucket")
  {
    var region := Get(settings, "awsS3Region");
    AwsS3Adapter(
      S3ClientConfig(
        S3Credentials(Get(settings, "awsS3Key"), Get(settings, "awsS3Secret")),
        if !Truthy(region) then None else region,
        Get(settings, "awsS3Endpoint"),
        S3ApiVersion),
      Get(settings, "awsS3Bucket"))
  }

  /** `imgur($settings)`: a fixed API base and a `Client-ID` authorization header. */
  function MakeImgur(settings: Settings): (a: UploadAdapter)
    ensures a.ImgurAdapter? && a.http.baseUri == ImgurBaseUri
    ensures var auth := a.http.authorization;
            |auth| >= |ImgurAuthorizationScheme| && auth[..|ImgurAuthorizationScheme|] == ImgurAuthorizationScheme
            && auth[|ImgurAuthorizationScheme|..] == ToString(Get(settings, "imgurClientId"))
  {
    ImgurAdapter(HttpClientConfig(ImgurBaseUri, ImgurAuthorizationScheme + ToString(Get(settings, "imgurClientId"))))
  }

  /** `qiniu($settings)`: key, secret, bucket and CDN domain, in that argument order. */
  function MakeQiniu(settings: Settings): (a: UploadAdapter)
    ensures a.QiniuAdapter?
    ensures a.accessKey == Get(settings, "qiniuKey") && a.secretKey == Get(settings, "qiniuSecret")
    ensures a.bucket == Get(settings, "qiniuBucket") && a.domain == Get(settings, "qiniuCdn")
  {
    QiniuAdapter(Get(settings, "qiniuKey"), Get(settings, "qiniuSecret"), Get(settings, "qiniuBucket"), Get(settings, "qiniuCdn"))
  }

  /** `upyun($settings)`: bucket, operator, password and CDN domain, in that argument order. */
  function MakeUpyun(settings: Settings): (a: UploadAdapter)
    ensures a.UpyunAdapter?
    ensures a.bucket == Get(settings, "upyunBucket") && a.operator == Get(settings, "upyunOperator")
    ensures a.password == Get(settings, "upyunPassword") && a.domain == Get(settings, "upyunCdn")
  {
    UpyunAdapter(Get(settings, "upyunBucket"), Get(settings, "upyunOperator"), Get(settings, "upyunPassword"), Get(settings, "upyunCdn"))
  }

  /** The adapter a backend kind is built as, from the settings. */
  function Construct(kind: AdapterKind, settings: Settings): (a: UploadAdapter)
    ensures a.Kind() == kind
    ensures kind == Local ==> a == LocalAdapter(LocalFilesDirectory)
  {
    match kind
    case AwsS3 => MakeAwsS3(settings)
    case Imgur => MakeImgur(settings)
    case Qiniu => MakeQiniu(settings)
    case Upyun => MakeUpyun(settings)
    case Local => LocalAdapter(LocalFilesDirectory)
  }

  /**
   * The keys the factory's `switch` names, each with the backend it selects; the
   * removed `ovh-svfs` backend selects none. Every other key takes the default case.
   */
  const NamedCases: map<string, Option<AdapterKind>> :=
    map["aws-s3" := Some(AwsS3), "ovh-svfs" := None, "imgur" := Some(Imgur), "qiniu" := Some(Qiniu), "upyun" := Some(Upyun)]

  /** The backend a key selects, if any. */
  function Selected(adapter: string): (k: Option<AdapterKind>)
    ensures k.None? <==> adapter == "ovh-svfs"
    ensures k == Some(Local) <==> adapter !in NamedCases
  {
    if adapter in NamedCases then NamedCases[adapter] else Some(Local)
  }

  /** Whether the client library a backend needs is installed; Imgur and Local need none. */
  predicate Installed(kind: AdapterKind, deps: Dependencies)
    ensures !Installed(kind, deps) ==> kind in {AwsS3, Qiniu, Upyun}
    ensures deps.s3Client && deps.qiniuClient && deps.upyunClient ==> Installed(kind, deps)
  {
    match kind
    case AwsS3 => deps.s3Client
    case Qiniu => deps.qiniuClient
    case Upyun => deps.upyunClient
    case Imgur => true
    case Local => true
  }

  /**
   * The bound closure: build the adapter for `adapter`, or throw when the key names
   * a backend that is gone or whose client library is missing.
   */
  function Resolve(adapter: string, settings: Settings, deps: Dependencies): (r: Result<UploadAdapter, AdapterError>)
    ensures r.Success? <==> Selected(adapter).Some? && Installed(Selected(adapter).value, deps)
    ensures r.Success? ==> r.value.Kind() == Selected(adapter).value && r.value == Construct(r.value.Kind(), settings)
    ensures r.Failure? ==> r.error == UnknownAdapter(adapter)
  {
    if adapter == "aws-s3" then
      if deps.s3Client then Success(MakeAwsS3(settings)) else Failure(UnknownAdapter(adapter))
    else if adapter == "ovh-svfs" then
      Failure(UnknownAdapter(adapter))
    else if adapter == "imgur" then
      Success(MakeImgur(settings))
    else if adapter == "qiniu" then
      if deps.qiniuClient then Success(MakeQiniu(settings)) else Failure(UnknownAdapter(adapter))
    else if adapter == "upyun" then
      if deps.upyunClient then Success(MakeUpyun(settings)) else Failure(UnknownAdapter(adapter))
    else
      Success(LocalAdapter(LocalFilesDirectory))
  }

  /** `aws-s3`, `qiniu` and `upyun` build their backend exactly when its client library is installed, and throw otherwise. */
  lemma GatedBackends(settings: Settings, deps: Dependencies)
    ensures Resolve("aws-s3", settings, deps) ==
      if deps.s3Client then Success(MakeAwsS3(settings)) else Failure(UnknownAdapter("aws-s3"))
    ensures Resolve("qiniu", settings, deps) ==
      if deps.qiniuClient then Success(MakeQiniu(settings)) else Failure(UnknownAdapter("qiniu"))
    ensures Resolve("upyun", settings, deps) ==
      if deps.upyunClient then Success(MakeUpyun(settings)) else Failure(UnknownAdapter("upyun"))
  {
  }

  /** The removed `ovh-svfs` backend always throws, whatever is installed. */
  lemma RemovedBackendThrows(settings: Settings, deps: Dependencies)
    ensures Resolve("ovh-svfs", settings, deps) == Failure(UnknownAdapter("ovh-svfs"))
  {
  }

  /** `imgur` always builds the Imgur adapter: it has no dependency check. */
  lemma ImgurUngated(settings: Settings, deps: Dependencies)
    ensures Resolve("imgur", settings, deps) == Success(MakeImgur(settings))
  {
  }

  /** Any key the `switch` does not name, known or not, builds the local adapter and never throws. */
  lemma OtherKeysAreLocal(adapter: string, settings: Settings, deps: Dependencies)
    requires adapter !in NamedCases
    ensures Resolve(adapter, settings, deps) == Success(LocalAdapter(LocalFilesDirectory))
  {
  }

  /** Only the four keys `ovh-svfs`, `aws-s3`, `qiniu` and `upyun` can ever throw. */
  lemma OnlyNamedKeysThrow(adapter: string, settings: Settings, deps: Dependencies)
    ensures Resolve(adapter, settings, deps).Failure? ==> adapter in {"ovh-svfs", "aws-s3", "qiniu", "upyun"}
  {
  }

  /**
   * After registration, the factory bound under the name of any configured entry's
   * key builds what `Resolve` gives for that key, unless that name was bound before.
   */
  lemma RegisteredFactoryResolves(b: Bindings, entries: seq<MimeTypeEntry>, i: nat, settings: Settings, deps: Dependencies)
    requires i < |entries| && BindingName(AdapterKey(entries[i])) !in b
    ensures var name := BindingName(AdapterKey(entries[i]));
            name in RegisterAll(b, entries) && RegisterAll(b, entries)[name].AdapterFactory?
            && Resolve(RegisterAll(b, entries)[name].adapter, settings, deps) == Resolve(AdapterKey(entries[i]), settings, deps)
  {
    RegisterAllBindsFactory(b, entries, i);
  }
}
