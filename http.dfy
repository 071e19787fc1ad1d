/** What the request middleware reads of Go's `net/http`. */
module Http {
  import opened Base

  /** A parsed `*url.URL`: its `String()` rendering and its `Path`. */
  datatype Url = Url(text: string, path: string)

  /** An inbound `*http.Request`: method, URL and the context it carries. */
  datatype Request = Request(httpMethod: string, url: Url, ctx: Context) {
    /** `r.WithContext(c)`: the same request carrying `c`. */
    function WithContext(c: Context): (r: Request)
      ensures r.ctx == c && r.httpMethod == httpMethod && r.url == url
    {
      this.(ctx := c)
    }
  }

  /** An `http.HandlerFunc` that the middleware wraps; its body is not part of
      the model, only its identity. */
  datatype Handler = Handler(name: string)
}
