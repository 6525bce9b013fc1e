/** The uploaded-file record that an adapter fills in. */
module Files {

  /** An uploaded file: its backend-relative storage path and its public URL. */
  class File {
    var path: string
    var url: string

    constructor (path: string, url: string)
      ensures this.path == path && this.url == url
    {
      this.path := path;
      this.url := url;
    }
  }
}
