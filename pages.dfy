/**
 * The page handlers (`handleRecipe`, `handleProduct` and `renderError` in
 * main.go): each turns the fetch result into exactly one HTML response.
 */
module Pages {
  import opened Wrappers
  import opened Http
  import Config
  import Upstream

  /** The template that renders a record of the given kind. */
  function ContentTemplate(kind: Upstream.Kind): string
  {
    match kind
    case Recipes => "recipe"
    case Products => "product"
  }

  /** The shared template for the not-found and error pages. */
  const ErrorTemplate: string := "error"

  /** The user-facing title and message of the error page for a failed fetch. */
  function LoadFailure(kind: Upstream.Kind): (string, string)
  {
    match kind
    case Recipes => ("Could not load recipe", "The recipe could not be loaded. Please try again later.")
    case Products => ("Could not load product", "The product could not be loaded. Please try again later.")
  }

  /** The user-facing title and message of the not-found page. */
  function NotFound(kind: Upstream.Kind): (string, string)
  {
    match kind
    case Recipes => ("Recipe not found", "This recipe does not exist or is no longer available.")
    case Products => ("Product not found", "This product does not exist or is no longer available.")
  }

  /**
   * The response a handler writes for a fetch result: an error becomes 500
   * with the error template, "no record and no error" becomes 404 with the
   * error template, and a record becomes 200 with the content template.
   */
  function PageFor<R>(kind: Upstream.Kind, res: Upstream.FetchResult<R>): (resp: Response<R>)
    ensures resp.Html?
    ensures resp.status == StatusInternalServerError <==> res.err.Some?
    ensures resp.status == StatusNotFound <==> res.err.None? && res.record.None?
    ensures resp.status == StatusOK <==> res.err.None? && res.record.Some?
    ensures resp.template == ErrorTemplate <==> resp.status != StatusOK
    ensures resp.status == StatusOK ==>
      resp.template == ContentTemplate(kind) && resp.view == Content(res.record.value)
  {
    if res.err.Some? then
      var (title, message) := LoadFailure(kind);
      Html(StatusInternalServerError, ErrorTemplate, ErrorView(title, message))
    else if res.record.None? then
      var (title, message) := NotFound(kind);
      Html(StatusNotFound, ErrorTemplate, ErrorView(title, message))
    else
      Html(StatusOK, ContentTemplate(kind), Content(res.record.value))
  }

  /** The cause of a failed fetch never reaches the page: only its presence matters. */
  lemma ErrorCauseNotShown<R>(kind: Upstream.Kind, r: Option<R>, r': Option<R>, e: Upstream.FetchError, e': Upstream.FetchError)
    ensures PageFor(kind, Upstream.FetchResult(r, Some(e))) == PageFor(kind, Upstream.FetchResult(r', Some(e')))
  {
  }

  /**
   * End to end, from the upstream exchange to the page: upstream 404 gives a
   * 404 page, upstream 200 with a decodable body gives the content page, and
   * every other outcome (request or transport failure, any other status, a
   * body that does not decode) gives a 500 page.
   */
  lemma UpstreamToPage<R>(kind: Upstream.Kind, x: Upstream.Exchange<R>)
    ensures var resp := PageFor(kind, Upstream.Classify(x));
      && (resp.status == StatusNotFound <==> x.Reply? && x.status == StatusNotFound)
      && (resp.status == StatusOK <==> x.Reply? && x.status == StatusOK && x.decoded.Some?)
      && (resp.status == StatusOK ==> resp.view == Content(x.decoded.value))
      && (resp.status == StatusInternalServerError <==>
            !x.Reply? || (x.status != StatusNotFound && (x.status != StatusOK || x.decoded.None?)))
  {
  }

  /** `renderError`: the error template with a title and a message. */
  method RenderError<R>(c: Context<R>, status: int, title: string, message: string)
    modifies c
    ensures c.sent == old(c.sent) + [Html(status, ErrorTemplate, ErrorView(title, message))]
  {
    c.HTML(status, ErrorTemplate, ErrorView(title, message));
  }

  /**
   * `handleRecipe`: fetches the recipe with identifier `id` (the route
   * parameter) through the network oracle `net`, then writes exactly one
   * response, the one PageFor gives for the fetch result.
   */
  method HandleRecipe<R>(c: Context<R>, env: string, id: string, net: string -> Upstream.Exchange<R>)
    modifies c
    ensures c.sent == old(c.sent) + [PageFor(Upstream.Recipes, Upstream.Fetch(Config.ApiBase(env), Upstream.Recipes, id, net))]
  {
    var res := Upstream.Fetch(Config.ApiBase(env), Upstream.Recipes, id, net);
    if res.err.Some? {
      RenderError(c, StatusInternalServerError,
        "Could not load recipe",
        "The recipe could not be loaded. Please try again later.");
      return;
    }
    if res.record.None? {
      RenderError(c, StatusNotFound,
        "Recipe not found",
        "This recipe does not exist or is no longer available.");
      return;
    }
    c.HTML(StatusOK, "recipe", Content(res.record.value));
  }

  /**
   * `handleProduct`: fetches the product with identifier `id` (the route
   * parameter) through the network oracle `net`, then writes exactly one
   * response, the one PageFor gives for the fetch result.
   */
  method HandleProduct<R>(c: Context<R>, env: string, id: string, net: string -> Upstream.Exchange<R>)
    modifies c
    ensures c.sent == old(c.sent) + [PageFor(Upstream.Products, Upstream.Fetch(Config.ApiBase(env), Upstream.Products, id, net))]
  {
    var res := Upstream.Fetch(Config.ApiBase(env), Upstream.Products, id, net);
    if res.err.Some? {
      RenderError(c, StatusInternalServerError,
        "Could not load product",
        "The product could not be loaded. Please try again later.");
      return;
    }
    if res.record.None? {
      RenderError(c, StatusNotFound,
        "Product not found",
        "This product does not exist or is no longer available.");
      return;
    }
    c.HTML(StatusOK, "product", Content(res.record.value));
  }
}
