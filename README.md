# Mezzanine page middleware, modelled in Dafny

This project models the core of Mezzanine's `PageMiddleware`
(`mezzanine/pages/middleware.py`), the hook that runs before each view of
the content-management system:

- it checks that the page context processor is configured;
- it takes the closest page found for the request's slug (or stops at once,
  returning `None`, when there is none) and attaches it to the request;
- it redirects an anonymous user to `LOGIN_URL?next=<quoted full path>` when
  the page has `login_required`;
- it calls the dispatched view, and when that view raises `Http404` for a URL
  whose slug is exactly the page's slug, is not the page view, and the page is
  not a `link`, it calls the page view instead;
- it runs the page processors registered under `slug:<page slug>` and then
  those registered under the page's content model, skipping the
  `exact_page` ones when the page is not current, returning the first
  `HttpResponse` a processor gives, merging every returned dict into the
  response's template context without overwriting keys already there, and
  turning any other true value into a `ValueError` that names the processor.

It also models `PageMiddleware.installed()`, a check cached on the class:
the first call looks for the middleware's dotted name in
`MIDDLEWARE_CLASSES`, falls back to scanning the list for a subclass, and
stores the answer; later calls return the stored answer.

Files:

- `processors.dfy`, module `Processors`: what a processor returns, the
  merge of one mapping, the processor stage as a function (`RunFrom`) with its
  lemmas, and the in-place loops (`MergeInto`, `RunProcessors`) over a
  `TemplateResponse` object whose `contextData` map they update.
- `middleware.dfy`, module `Middleware`: pages, requests and settings, the
  decision before the processors (`Gate`), and the class `PageMiddleware`
  with `Installed` (the cached check) and `ProcessView` (the gate followed by
  the processor stage).

The framework is abstracted. The page lookup result, the slug derived from
the path, whether the user is authenticated, what the dispatched view and
the page view do (return a response or raise `Http404`), whether the
dispatched view is the page view, URL quoting and the subclass test are all
inputs. A processor is represented by what it returns for the request.

A processor that returns a false value (such as `None`) is ignored
(mezzanine/pages/middleware.py:123); only a true value that is neither a
response nor a dict becomes a `ValueError`.

## Model

| member | source | states |
|---|---|---|
| `Processors.Merge` | mezzanine/pages/middleware.py:123-127 | merging a processor's dict keeps every key already in the context with its value, adds each other key with the dict's value, and adds nothing else |
| `Processors.RunFrom` | mezzanine/pages/middleware.py:117-133 | the processor stage from one registration on; it goes through at least up to that registration and at most to the end, and when nothing stopped it, it went through the whole list |
| `Processors.StageEndsAtFirstHalt` | mezzanine/pages/middleware.py:117-133 | the stage finishes exactly when no called processor returns a response or a malformed value; otherwise it stops at the first that does, returning that processor's response or a ValueError whose message names the processor and the returned type |
| `Processors.ExistingKeysKept` | mezzanine/pages/middleware.py:123-127 | a key already in the template context keeps its value through the whole stage |
| `Processors.KeyAddedExactlyWhenWritten` | mezzanine/pages/middleware.py:117-127 | a key the context lacked is in it afterwards exactly when some processor the stage called returned a dict with that key |
| `Processors.FirstWriterWins` | mezzanine/pages/middleware.py:117-127 | a new key takes the value given by the first called processor whose dict has it; later processors do not change it |
| `Processors.SkippedHasNoEffect` | mezzanine/pages/middleware.py:118-119 | an exact_page processor on a page that is not current has no effect: whatever it would return, the stage ends the same way with the same context |
| `Processors.LaterProcessorsNeverRun` | mezzanine/pages/middleware.py:120-122 | once a processor returns a response or a malformed value, the registrations after it do not matter: replacing or appending any of them leaves the result unchanged |
| `Processors.HaltKeepsEarlierContext` | mezzanine/pages/middleware.py:121-122 | when the stage stops early, the context is exactly what the processors before the stopping one made of it |
| `Processors.SlugProcessorsTakePrecedence` | mezzanine/pages/middleware.py:115-117 | slug processors run before model processors, so a new key that a called slug processor supplies gets its value from a slug processor, never from a model processor |
| `Processors.MergeInto` | mezzanine/pages/middleware.py:124-127 | the key-by-key in-place merge leaves the response's context equal to the merge of the old context and the dict, in whatever order the keys are visited |
| `Processors.RunProcessors` | mezzanine/pages/middleware.py:117-133 | the processor loop (skip with continue, return on a response, merge in place, error on anything else) ends the way the stage function says and leaves the context it says |
| `Middleware.Gate` | mezzanine/pages/middleware.py:70-112 | ImproperlyConfigured exactly when the page context processor is missing, with its message; no page means skip and nothing attached; otherwise the first page is attached; login redirect exactly when that page needs login and the user is anonymous, to LOGIN_URL + "?next=" + the quoted full path; a returned response is kept; a not-found becomes the page view's response exactly when the fallback condition holds and the page view returns, and propagates otherwise |
| `Middleware.ViewsNotCalledBeforeDispatch` | mezzanine/pages/middleware.py:78-90 | with no page, or with a login redirect, the verdict does not depend on what the view or the page view would do, and the processor stage is not reached |
| `Middleware.FallbackExactlyWhen` | mezzanine/pages/middleware.py:102-112 | a not-found from the dispatched view is replaced by the page view's response exactly when the page slug equals the request slug, the view is not the page view and the content model is not "link"; otherwise the not-found propagates |
| `Middleware.PageMiddleware.ProcessView` | mezzanine/pages/middleware.py:65-135 | each gate verdict becomes the matching outcome (error, None, redirect, not-found); after a proceed verdict the chosen response's context is changed as the processor stage says, the outcome is that response, the processor's response or the ValueError, and no other object changes |
| `Middleware.ScanForSubclass` | mezzanine/pages/middleware.py:57-61 | the scan finds a subclass exactly when some listed class is one, stops right after the first such class, and imports no class after it |
| `Middleware.ExactNameIsShortcut` | mezzanine/pages/middleware.py:55-61 | when the class counts as a subclass of itself, the exact-name test never changes the answer the scan would give |
| `Middleware.PageMiddleware.Installed` | mezzanine/pages/middleware.py:52-63 | with nothing cached, the answer is true when the exact dotted name is listed and otherwise whether some listed class is a subclass, and it is cached; with a cached answer, that answer is returned whatever the settings say |
| `Middleware.InstalledTwice` | mezzanine/pages/middleware.py:52-63 | two consecutive calls of installed() give the same answer even when the settings changed in between |

## Left out

- `PageMiddleware.__init__` (lines 38-40), which raises `MiddlewareNotUsed` when `mezzanine.pages` is not an installed app: a configuration check at start-up, outside the per-request logic.
- The page lookup `Page.objects.with_ascendants_for_slug` and `path_to_slug`: their code is not part of this model, so the list of pages and the slug are inputs, and `is_current` is a field of the page record.
- `urlquote` is a function parameter; `redirect` is represented by the URL it is given (how Django resolves a redirect target is not modelled).
- The dispatched view and the page view are represented by their outcomes (a response or `Http404`); other exceptions they may raise, and the arguments they receive, are not modelled.
- Page processors are represented by what they return for this request; their arguments `(request, page)` are not modelled.
- `mezzanine/pages/page_processors.py` is not part of this model: its registry is taken to be a default dictionary of lists, so a missing key gives no processors.
- Return values that are true, not a response and not a dict are collapsed into one malformed case that always becomes a `ValueError`; a non-dict iterable that Python could partly merge, or that raises an exception other than `TypeError` or `ValueError`, is not modelled, and the context after such a `ValueError` is taken as it was before that processor.
- An empty dict is a false value in Python and is skipped; the model merges it, which has the same effect.
- A view response without `context_data` (which would raise `AttributeError` when a processor returns a dict) is not modelled, and neither is a `TemplateResponse` whose `context_data` is `None` (where a processor returning a dict makes the membership test raise `TypeError`, which is then reported as a `ValueError` saying the processor returned a dict but must return HttpResponse or dict): the response is always a `TemplateResponse` with a context map.
- Attaching the page to the request with `setattr` is modelled as the page a verdict carries (`AttachedPage`), not as an update of a request object.
- `installed()`: the subclass test `issubclass(import_dotted_path(name), cls)` is a predicate parameter, and an import that fails is not modelled; the object of class `PageMiddleware` stands for the Python class, and a subclass calling `installed()` (which would cache on itself) is not modelled.
