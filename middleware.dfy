/**
 * The per-request page middleware: find the page for the request, honour
 * its login_required flag, fall back to the page view when a non-page view
 * raises a not-found for a URL that names a page exactly, then run the page
 * processors over the response.  Also the one-shot check that the
 * middleware (or a subclass of it) is installed.
 *
 * The framework around it is abstracted: the page lookup, the outcome of
 * the dispatched view and of the page view, the URL quoting and the
 * subclass test are inputs.
 */
module Middleware {
  import opened Processors

  datatype Option<T> = None | Some(value: T)

  /** The fields of a page record that the middleware reads. */
  datatype Page = Page(slug: string, loginRequired: bool, contentModel: string, isCurrent: bool)

  /**
   * What the middleware reads of the request: the slug derived from its
   * path, its full path (with query string) and whether its user is
   * authenticated.
   */
  datatype Request = Request(slug: string, fullPath: string, authenticated: bool)

  /** The settings the middleware consults. */
  datatype Settings = Settings(templateContextProcessors: seq<string>, loginUrl: string, middlewareClasses: seq<string>)

  /** How a view call ends: with a response, or by raising Http404. */
  datatype ViewOutcome<Resp> = Responded(response: Resp) | NotFound

  /** The context processor that must be configured for pages to reach templates. */
  const PageContextProcessor := "mezzanine.pages.context_processors.page"

  /** The query parameter that carries the return path to the login view (Django's default). */
  const RedirectFieldName := "next"

  /** The dotted path of this middleware class. */
  const MiddlewareName := "mezzanine.pages.middleware.PageMiddleware"

  /** What the steps before the processor stage decided. */
  datatype Verdict<Resp> =
    | Misconfigured(message: string)        // ImproperlyConfigured is raised
    | Skip                                  // no page: return None, the view runs untouched
    | LoginRedirect(page: Page, url: string) // redirect to the login view
    | Raise404(page: Page)                  // the Http404 propagates
    | Proceed(page: Page, response: Resp)   // run the processors over this response

  /** The page attached to the request, if any. */
  function AttachedPage<Resp>(v: Verdict<Resp>): Option<Page>
  {
    if v.Misconfigured? || v.Skip? then None else Some(v.page)
  }

  /** The not-found of a non-page view is retried with the page view. */
  predicate FallsBackToPageView(page: Page, slug: string, isPageView: bool)
  {
    page.slug == slug && !isPageView && page.contentModel != "link"
  }

  /**
   * Everything process_view does before the processors: the configuration
   * check, the page lookup result (closest page first), the login gate and
   * the not-found fallback.  view is what the dispatched view does,
   * pageView what the page view would do for the derived slug.
   */
  function Gate<Resp>(settings: Settings, request: Request, pages: seq<Page>, urlquote: string -> string,
                      view: ViewOutcome<Resp>, isPageView: bool, pageView: ViewOutcome<Resp>): (v: Verdict<Resp>)
    ensures v.Misconfigured? <==> PageContextProcessor !in settings.templateContextProcessors
    ensures v.Misconfigured? ==>
              v.message == PageContextProcessor + " is missing from settings.TEMPLATE_CONTEXT_PROCESSORS"
    ensures v.Skip? <==> PageContextProcessor in settings.templateContextProcessors && pages == []
    ensures AttachedPage(v) == if v.Misconfigured? || pages == [] then None else Some(pages[0])
    ensures v.LoginRedirect? <==>
              && !v.Misconfigured? && pages != []
              && pages[0].loginRequired && !request.authenticated
    ensures v.LoginRedirect? ==>
              v.url == settings.loginUrl + "?" + RedirectFieldName + "=" + urlquote(request.fullPath)
    ensures v.Proceed? && view.Responded? ==> v.response == view.response
    ensures (v.Proceed? || v.Raise404?) && view.NotFound? ==>
              (v.Proceed? <==> FallsBackToPageView(pages[0], request.slug, isPageView) && pageView.Responded?)
    ensures v.Proceed? && view.NotFound? ==> pageView == Responded(v.response)
    ensures v.Raise404? ==> view.NotFound?
  {
    if PageContextProcessor !in settings.templateContextProcessors then
      Misconfigured(PageContextProcessor + " is missing from settings.TEMPLATE_CONTEXT_PROCESSORS")
    else if pages == [] then
      Skip
    else
      var page := pages[0];
      if page.loginRequired && !request.authenticated then
        LoginRedirect(page, settings.loginUrl + "?" + RedirectFieldName + "=" + urlquote(request.fullPath))
      else
        match view
        case Responded(response) => Proceed(page, response)
        case NotFound =>
          if FallsBackToPageView(page, request.slug, isPageView) then
            match pageView
            case Responded(response) => Proceed(page, response)
            case NotFound => Raise404(page)
          else
            Raise404(page)
  }

  /**
   * When there is no page, or the user must log in first, neither the
   * dispatched view nor the page view is called: the verdict is the same
   * whatever they would have done.
   */
  lemma ViewsNotCalledBeforeDispatch<Resp>(
    settings: Settings, request: Request, pages: seq<Page>, urlquote: string -> string,
    view: ViewOutcome<Resp>, isPageView: bool, pageView: ViewOutcome<Resp>,
    view': ViewOutcome<Resp>, isPageView': bool, pageView': ViewOutcome<Resp>)
    requires pages == [] || (pages[0].loginRequired && !request.authenticated)
    ensures Gate(settings, request, pages, urlquote, view, isPageView, pageView)
         == Gate(settings, request, pages, urlquote, view', isPageView', pageView')
    ensures !Gate(settings, request, pages, urlquote, view, isPageView, pageView).Proceed?
  {
  }

  /**
   * The not-found fallback: a not-found from the dispatched view turns into
   * the page view's response exactly when the page's slug is the request's
   * slug, the view is not the page view and the page is not a link.
   */
  lemma FallbackExactlyWhen<Resp>(
    settings: Settings, request: Request, pages: seq<Page>, urlquote: string -> string,
    isPageView: bool, response: Resp)
    requires PageContextProcessor in settings.templateContextProcessors && pages != []
    requires !(pages[0].loginRequired && !request.authenticated)
    ensures Gate(settings, request, pages, urlquote, NotFound, isPageView, Responded(response))
         == if FallsBackToPageView(pages[0], request.slug, isPageView) then Proceed(pages[0], response)
            else Raise404(pages[0])
  {
  }

  /** The responses the processor stage may change for a verdict. */
  function Touched<V>(v: Verdict<TemplateResponse<V>>): set<object>
  {
    if v.Proceed? then {v.response} else {}
  }

  /**
   * What process_view hands back to the framework.  Unlike a Verdict, an
   * outcome no longer carries the page, is specific to TemplateResponse
   * objects, and adds the three endings of the processor stage; the first
   * four cases are the gate's early endings as the framework sees them.
   */
  datatype Outcome<V, R> =
    | ImproperlyConfigured(message: string)        // raised
    | NoPage                                       // None: the view runs as if there were no middleware
    | Redirect(url: string)                        // the login redirect
    | PageNotFound                                 // Http404 raised
    | ViewResponse(template: TemplateResponse<V>)  // the view's (or the page view's) response
    | ProcessorResponse(response: R)               // the response a processor returned
    | ProcessorError(message: string)              // ValueError raised

  /** The list search behind installed(): is any listed class a subclass of this one? */
  method ScanForSubclass(middlewareClasses: seq<string>, isSubclass: string -> bool)
    returns (found: bool, imported: nat)
    ensures imported <= |middlewareClasses|
    ensures found <==> exists i :: 0 <= i < |middlewareClasses| && isSubclass(middlewareClasses[i])
    ensures found ==> 0 < imported && isSubclass(middlewareClasses[imported - 1])
    ensures !found ==> imported == |middlewareClasses|
    ensures forall i :: 0 <= i < imported - (if found then 1 else 0) ==> !isSubclass(middlewareClasses[i])
  {
    found, imported := false, 0;
    while imported < |middlewareClasses|
      invariant imported <= |middlewareClasses|
      invariant forall i :: 0 <= i < imported ==> !isSubclass(middlewareClasses[i])
    {
      var name := middlewareClasses[imported];
      imported := imported + 1;
      if isSubclass(name) {
        found := true;
        break;
      }
    }
  }

  /** The answer installed() computes when nothing is cached. */
  predicate IsInstalled(middlewareClasses: seq<string>, isSubclass: string -> bool)
  {
    MiddlewareName in middlewareClasses || exists i :: 0 <= i < |middlewareClasses| && isSubclass(middlewareClasses[i])
  }

  /**
   * The exact-name test is only a shortcut: since the class is a subclass
   * of itself, it never changes the answer the list search would give.
   */
  lemma ExactNameIsShortcut(middlewareClasses: seq<string>, isSubclass: string -> bool)
    requires isSubclass(MiddlewareName)
    ensures IsInstalled(middlewareClasses, isSubclass)
        <==> exists i :: 0 <= i < |middlewareClasses| && isSubclass(middlewareClasses[i])
  {
    if MiddlewareName in middlewareClasses {
      var i :| 0 <= i < |middlewareClasses| && middlewareClasses[i] == MiddlewareName;
      assert isSubclass(middlewareClasses[i]);
    }
  }

  /**
   * The middleware class.  A Dafny object of this class stands for the
   * Python class object, so installedCache is the class attribute
   * _installed (None while it is not set).
   */
  class PageMiddleware {
    var installedCache: Option<bool>

    constructor ()
      ensures installedCache == None
    {
      installedCache := None;
    }

    /**
     * installed(): the first call computes the answer (true whenever the
     * exact dotted name is listed, otherwise whether some listed class is a
     * subclass) and caches it; later calls return the cache and read
     * neither argument.
     */
    method Installed(settings: Settings, isSubclass: string -> bool) returns (installed: bool)
      modifies this
      ensures old(installedCache).Some? ==> installed == old(installedCache).value
      ensures old(installedCache).None? ==> installed == IsInstalled(settings.middlewareClasses, isSubclass)
      ensures MiddlewareName in settings.middlewareClasses && old(installedCache).None? ==> installed
      ensures installedCache == Some(installed)
    {
      if installedCache.Some? {
        return installedCache.value;
      }
      installed := MiddlewareName in settings.middlewareClasses;
      if !installed {
        var imported;
        installed, imported := ScanForSubclass(settings.middlewareClasses, isSubclass);
      }
      installedCache := Some(installed);
    }

    /**
     * process_view: the gate, then the processor stage over the response
     * the gate settled on, changing that response's context and nothing else.
     */
    method ProcessView<V, R>(settings: Settings, request: Request, pages: seq<Page>, urlquote: string -> string,
                             view: ViewOutcome<TemplateResponse<V>>, isPageView: bool,
                             pageView: ViewOutcome<TemplateResponse<V>>,
                             registry: map<string, seq<Processor<V, R>>>)
      returns (out: Outcome<V, R>)
      modifies Touched(Gate(settings, request, pages, urlquote, view, isPageView, pageView))
      ensures var v := Gate(settings, request, pages, urlquote, view, isPageView, pageView);
              match v
              case Misconfigured(message) => out == ImproperlyConfigured(message)
              case Skip => out == NoPage
              case LoginRedirect(_, url) => out == Redirect(url)
              case Raise404(_) => out == PageNotFound
              case Proceed(page, response) =>
                var run := RunFrom(ProcessorsFor(registry, page.slug, page.contentModel), page.isCurrent, 0,
                                   old(response.contextData));
                && response.contextData == run.context
                && out == match run.stop
                          case Finished => ViewResponse(response)
                          case ShortCircuit(r) => ProcessorResponse(r)
                          case Failed(message) => ProcessorError(message)
    {
      var v := Gate(settings, request, pages, urlquote, view, isPageView, pageView);
      match v {
        case Misconfigured(message) =>
          out := ImproperlyConfigured(message);
        case Skip =>
          out := NoPage;
        case LoginRedirect(_, url) =>
          out := Redirect(url);
        case Raise404(_) =>
          out := PageNotFound;
        case Proceed(page, response) =>
          var procs := ProcessorsFor(registry, page.slug, page.contentModel);
          var stop, consumed := RunProcessors(procs, page.isCurrent, response);
          match stop {
            case Finished => out := ViewResponse(response);
            case ShortCircuit(r) => out := ProcessorResponse(r);
            case Failed(message) => out := ProcessorError(message);
          }
      }
    }
  }

  /**
   * installed() asks the settings at most once: a second call returns what
   * the first returned, whatever the settings say by then.
   */
  method InstalledTwice(middleware: PageMiddleware, settings: Settings, isSubclass: string -> bool,
                        settings': Settings, isSubclass': string -> bool)
    returns (first: bool, second: bool)
    modifies middleware
    ensures first == second
    ensures old(middleware.installedCache).None? ==> first == IsInstalled(settings.middlewareClasses, isSubclass)
  {
    first := middleware.Installed(settings, isSubclass);
    second := middleware.Installed(settings', isSubclass');
  }
}
