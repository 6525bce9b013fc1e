/** The S3 storage adapter's public-URL derivation (`AwsS3::generateUrl`). */
module AwsS3Adapter {
  import opened Wrappers
  import opened Php
  import opened Config
  import opened Files

  /** The region used in a canonical URL when the client reports none. */
  const DefaultRegion := "us-east-1"

  /** `Arr::get($this->meta, 'path', $file->path)`: the path the write reported, else the file's own. */
  function UploadPath(meta: map<string, string>, filePath: string): (p: string)
    ensures "path" in meta ==> p == meta["path"]
    ensures "path" !in meta ==> p == filePath
  {
    if "path" in meta then meta["path"] else filePath
  }

  /** The format `sprintf` builds the canonical base URL from. */
  const BaseUrlFormat := "https://%s.s3.%s.amazonaws.com/"

  /**
   * The URL `generateUrl` assigns. With a CDN prefix configured it is the prefix, a
   * slash and the path; otherwise the virtual-hosted S3 URL of the object. The base
   * URL is itself used as a `sprintf` format, so the bucket and the region used must
   * contain no `%` for the text to come out as written.
   */
  function S3Url(cdn: Option<string>, meta: map<string, string>, filePath: string, bucket: string, region: string): (url: string)
    requires !Truthy(cdn) ==> '%' !in bucket && '%' !in Elvis(region, DefaultRegion)
    ensures Truthy(cdn) ==> url == cdn.value + "/" + UploadPath(meta, filePath)
    ensures !Truthy(cdn) ==>
      url == "https://" + bucket + ".s3." + Elvis(region, DefaultRegion) + ".amazonaws.com/" + UploadPath(meta, filePath)
  {
    var path := UploadPath(meta, filePath);
    if Truthy(cdn) then
      JoinWithSlash(cdn.value, path);
      Sprintf("%s/%s", [cdn.value, path])
    else
      var r := Elvis(region, DefaultRegion);
      CanonicalBaseUrl(bucket, r);
      var baseUrl := Sprintf(BaseUrlFormat, [bucket, r]);
      TrailingConversion(baseUrl, path);
      Sprintf(baseUrl + "%s", [path])
  }

  /** `sprintf('https://%s.s3.%s.amazonaws.com/', $bucket, $region)` spelled out; it contains no `%` when neither argument does. */
  lemma CanonicalBaseUrl(bucket: string, region: string)
    ensures StringFormat(BaseUrlFormat) && Conversions(BaseUrlFormat) == 2
    ensures Sprintf(BaseUrlFormat, [bucket, region]) == "https://" + bucket + ".s3." + region + ".amazonaws.com/"
    ensures '%' !in bucket && '%' !in region ==> '%' !in Sprintf(BaseUrlFormat, [bucket, region])
  {
    assert BaseUrlFormat == "https://" + ("%s" + (".s3." + ("%s" + ".amazonaws.com/")));
    TwoConversions("https://", ".s3.", ".amazonaws.com/", bucket, region);
  }

  /** With a CDN prefix the bucket and the region are not consulted. */
  lemma CdnIgnoresBucketAndRegion(cdn: Option<string>, meta: map<string, string>, filePath: string,
                                  bucket1: string, region1: string, bucket2: string, region2: string)
    requires Truthy(cdn)
    ensures S3Url(cdn, meta, filePath, bucket1, region1) == S3Url(cdn, meta, filePath, bucket2, region2)
  {
  }

  /** Both branches end the URL with a slash and the upload path, so the object's path can be read back off the URL. */
  lemma {:induction false} UrlEndsWithPath(cdn: Option<string>, meta: map<string, string>, filePath: string, bucket: string, region: string)
    requires !Truthy(cdn) ==> '%' !in bucket && '%' !in Elvis(region, DefaultRegion)
    ensures var url := S3Url(cdn, meta, filePath, bucket, region);
            var p := UploadPath(meta, filePath);
            |url| > |p| && url[|url| - |p| - 1] == '/' && url[|url| - |p|..] == p
  {
  }

  /**
   * An S3-backed adapter. `bucket` and `region` are what the underlying client
   * reports (`getBucket()`, `getClient()->getRegion()`); `meta` is what the write
   * reported back, filled in before `generateUrl` runs.
   */
  class AwsS3 {
    const bucket: string
    const region: string
    var meta: map<string, string>

    constructor (bucket: string, region: string, meta: map<string, string>)
      ensures this.bucket == bucket && this.region == region && this.meta == meta
    {
      this.bucket := bucket;
      this.region := region;
      this.meta := meta;
    }

    /**
     * Sets the file's public URL from the `awsS3Cdn` setting, the write's metadata
     * and the file's path. It cannot fail, it changes nothing but `file.url`, and the
     * new URL does not depend on the old one, so calling it again changes nothing.
     */
    method GenerateUrl(file: File, settings: Settings)
      requires !Truthy(Get(settings, "awsS3Cdn")) ==> '%' !in bucket && '%' !in Elvis(region, DefaultRegion)
      modifies file`url
      ensures file.url == S3Url(Get(settings, "awsS3Cdn"), meta, file.path, bucket, region)
      ensures file.path == old(file.path)
    {
      var cdnUrl := Get(settings, "awsS3Cdn");
      if Truthy(cdnUrl) {
        JoinWithSlash(cdnUrl.value, UploadPath(meta, file.path));
        file.url := Sprintf("%s/%s", [cdnUrl.value, UploadPath(meta, file.path)]);
      } else {
        CanonicalBaseUrl(bucket, Elvis(region, DefaultRegion));
        var baseUrl := Sprintf(BaseUrlFormat, [bucket, Elvis(region, DefaultRegion)]);
        TrailingConversion(baseUrl, UploadPath(meta, file.path));
        file.url := Sprintf(baseUrl + "%s", [UploadPath(meta, file.path)]);
      }
    }
  }

  /** Running `generateUrl` twice with the same settings leaves the URL the first run produced. */
  method GenerateUrlTwice(adapter: AwsS3, file: File, settings: Settings) returns (first: string, second: string)
    requires !Truthy(Get(settings, "awsS3Cdn")) ==> '%' !in adapter.bucket && '%' !in Elvis(adapter.region, DefaultRegion)
    modifies file`url
    ensures first == second == file.url
  {
    adapter.GenerateUrl(file, settings);
    first := file.url;
    adapter.GenerateUrl(file, settings);
    second := file.url;
  }
}
