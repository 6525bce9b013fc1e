/** The Upyun storage adapter's public-URL derivation (`Upyun::generateUrl`). */
module UpyunAdapter {
  import opened Wrappers
  import opened Php
  import opened Config
  import opened Files

  /** `ValidationException([$attribute => $message])`: a user-visible validation failure. */
  datatype ValidationError = ValidationError(attribute: string, message: string)

  /** The failure raised when no CDN address is configured. */
  const CdnNotConfigured := ValidationError("upload", "Upyun cloud CDN address is not configured.")

  /**
   * The URL `generateUrl` assigns, or the failure it raises instead: Upyun has no
   * public URL of its own, so without a CDN prefix there is no fallback.
   */
  function UpyunUrl(cdn: Option<string>, path: string): (r: Result<string, ValidationError>)
    ensures r.Success? <==> Truthy(cdn)
    ensures r.Success? ==> r.value == cdn.value + "/" + path
    ensures r.Failure? ==> r.error == CdnNotConfigured
  {
    if Truthy(cdn) then
      JoinWithSlash(cdn.value, path);
      Success(Sprintf("%s/%s", [cdn.value, path]))
    else
      Failure(CdnNotConfigured)
  }

  /** A derived URL ends with a slash and the file's path, so the path can be read back off the URL. */
  lemma UrlEndsWithPath(cdn: Option<string>, path: string)
    ensures UpyunUrl(cdn, path).Success? ==>
      var url := UpyunUrl(cdn, path).value;
      |url| > |path| && url[|url| - |path| - 1] == '/' && url[|url| - |path|..] == path
  {
  }

  /** An Upyun-backed adapter; `meta` is what the write reported back, which `generateUrl` does not consult. */
  class Upyun {
    var meta: map<string, string>

    constructor (meta: map<string, string>)
      ensures this.meta == meta
    {
      this.meta := meta;
    }

    /**
     * Sets the file's public URL from the `upyunCdn` setting and the file's own path,
     * or fails with a validation error and leaves the file as it was.
     */
    method GenerateUrl(file: File, settings: Settings) returns (r: Outcome<ValidationError>)
      modifies file`url
      ensures r.Pass? <==> Truthy(Get(settings, "upyunCdn"))
      ensures r.Pass? ==> UpyunUrl(Get(settings, "upyunCdn"), file.path) == Success(file.url)
      ensures r.Fail? ==> r.error == CdnNotConfigured && file.url == old(file.url)
      ensures file.path == old(file.path)
    {
      var path := file.path;
      var cdnUrl := Get(settings, "upyunCdn");
      if Truthy(cdnUrl) {
        JoinWithSlash(cdnUrl.value, path);
        file.url := Sprintf("%s/%s", [cdnUrl.value, path]);
        r := Pass;
      } else {
        r := Fail(CdnNotConfigured);
      }
    }
  }

  /** Running `generateUrl` twice with the same settings gives the same outcome and the same URL both times. */
  method GenerateUrlTwice(adapter: Upyun, file: File, settings: Settings)
    returns (first: Outcome<ValidationError>, firstUrl: string, second: Outcome<ValidationError>, secondUrl: string)
    modifies file`url
    ensures first == second && firstUrl == secondUrl == file.url
  {
    first := adapter.GenerateUrl(file, settings);
    firstUrl := file.url;
    second := adapter.GenerateUrl(file, settings);
    secondUrl := file.url;
  }
}
