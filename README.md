# nboost gateway framework and model registry, in Dafny

This project models two small pieces of the nboost search-result boosting proxy.

The first is the process and server framework in `base/__init__.py`:
- the `Response` helpers that build the fixed success, not-found and error responses;
- `RouteHandler`, the ordered route table that a server class builds with the `add_route` decorator, derives from a parent table by copying, and binds to a live server with `bind_routes`;
- the parameter dump that `BaseProcess` logs at construction (`_format_kwarg`, `_format_kwargs`);
- the catch-all entry point `BaseProcess.run`;
- the address fields of `BaseServer` (`host`, `port`, `url`);
- the request middleware, which turns `HTTPNotFound` into the server's not-found handler and any other exception into a 500 report.

The second is the static registry in `nboost/maps.py`:
- `MODULE_MAP` (class to module), `CLASS_MAP` (model id to class) and `URL_MAP` (model id to artifact url);
- the three legacy-alias inserts into `CLASS_MAP` and `URL_MAP`;
- `CONFIG_MAP`, which configures the elasticsearch backend.

Modules:
- `Wrappers` (wrappers.dfy): `Option` and `Result`.
- `Http` (http.dfy): requests, responses, JSON values, exceptions, outcomes and log events.
- `Routes` (routes.dfy): route entries, `BindRoutes`, the `RouteList` object and the `RouteHandler` class. `AddRoute` extends the table's list object in place.
- `Process` (process.dfy): parameter formatting and `Run`.
- `Server` (server.dfy): the `BaseServer` class with its address fields, the decimal rendering of the port, the default not-found handler and `Middleware`.
- `Maps` (maps.dfy): the maps as `map<string, string>` constants, built by the same sequence of updates as the source, and the consistency lemmas.

Modelling choices:
- An exception is a value with its class name, its message and whether it is an `HTTPNotFound`.
- Awaiting a handler gives an `Outcome`: a returned value or a raised exception. A handler is a function from the request to an outcome.
- Logger calls are recorded, in order, as a sequence of `LogEvent`s next to the outcome.
- A handler function object is known by its `__name__`. `getattr(obj, name)` is a lookup in a `map<string, C>`. A missing name is the `AttributeError` that ends `bind_routes`, reported as `Err(name)` for the first such route.
- A route list is a `RouteList` object, like the Python list it stands for. `self.routes += [...]` changes that object in place. `copy.deepcopy(rh.routes)` allocates a new `RouteList` holding the parent's entries, so a derived table never shares its list object with its parent or a sibling. The entries are immutable values (strings and a function object, which `deepcopy` returns as is), so the copied entries equal the parent's.
- `'%s' % port` for an integer port is `IntText`, Python's decimal `str` of an int, with a minus sign when negative.

Two behaviours of the code are worth stating plainly:
- The middleware does not always return a response. When the handler raises `HTTPNotFound`, the middleware awaits `not_found_handler`, and whatever that raises escapes. The default handler raises `HTTPNotFound` again, so a missing route leaves the middleware as `HTTPNotFound`, not as a 404 response built by the middleware. `Server.MiddlewareEscapesOnlyFromNotFound` states exactly when an exception escapes.
- Nothing in the two files validates the registry when the program starts. Here the consistency of the maps is proved once, as lemmas, and `Maps.Resolve` is written so that its second and third lookups must be proved never to fail.

A property worth knowing, stated by `Process.LongKeyTouchesValue`: a parameter name of 15 or more characters is cut to 14 characters and gets no padding. Its value then starts right after the 14th character, with no space between them. A name of up to 14 characters is padded to 15.

## Model

| member | source | states |
|---|---|---|
| Http.Json200 | base/__init__.py:11-12 | a JSON response with status 200 whose payload is the given dictionary |
| Http.Plain200 | base/__init__.py:15-16 | a plain response with status 200 whose body is exactly the given bytes |
| Http.Status404 | base/__init__.py:19-20 | a JSON response with status 404 and no payload |
| Http.Exception500 | base/__init__.py:23-24 | status 500 with a JSON object that has exactly the keys `error` (the exception's message) and `type` (its class name) |
| Http.Exception500Injective | base/__init__.py:23-24 | two exceptions with the same 500 response have the same class name and message: the report identifies the failure |
| Routes.BindRoutes | base/__init__.py:37-38 | binding succeeds iff every route's handler name is an attribute of the object; on success the list has the routes' length and order, and entry i has route i's method and path and resolves route i's handler name on the object; on failure the name reported is that of the first route whose name is missing |
| Routes.BindAfterAdd | base/__init__.py:31-38 | binding a table after one more `add_route` gives the earlier binding plus that route's binding at the end |
| Routes.RouteHandler.constructor | base/__init__.py:28-29 | the table gets a freshly allocated list; with no parent it is empty; with a parent it holds the parent's entries, in the same order |
| Routes.RouteHandler.AddRoute | base/__init__.py:31-35 | extends the same list object in place by exactly `(method, path, f)` after all earlier entries, changes nothing else, and returns `f` itself |
| Routes.DeriveAndExtend | base/__init__.py:28-35 | a derived table's list is a fresh object; adding a route to it leaves its parent's list unchanged |
| Routes.ExtendParentAfterDerive | base/__init__.py:28-35 | adding a route to the parent after deriving leaves the derived table's list unchanged |
| Routes.SiblingsAreIndependent | base/__init__.py:28-35 | two tables derived from one parent hold distinct list objects and each sees only its own addition |
| Process.KeyField | base/__init__.py:53-54 | the key column is the key padded with spaces to exactly 15 characters when the key has at most 14, and the key's first 14 characters, unpadded, otherwise |
| Process.FormatKwarg | base/__init__.py:52-54 | one line starts with `\n--`, ends with `)` and has length 6 plus the key column width plus the lengths of the value's text and type name; FormatKwargLayout gives the full layout |
| Process.FormatKwargLayout | base/__init__.py:51-54 | one line is `\n--`, then the key column, then the value's text, ` (`, its type name and `)`; its length follows from the key's length and the two texts |
| Process.LongKeyTouchesValue | base/__init__.py:53-54 | for a key of 15 or more characters the value's first character immediately follows the key's 14th character |
| Process.FormatKwargs | base/__init__.py:48-49 | the dump's length is the sum over the parameters of 6 plus the key column width plus the lengths of the value's text and type name; FormatKwargsSmall and FormatKwargsAppend fix its contents and order |
| Process.FormatKwargsSmall | base/__init__.py:47-49 | no parameters give the empty string; one parameter gives exactly its line |
| Process.FormatKwargsAppend | base/__init__.py:47-49 | the dump of two parameter lists one after the other is the concatenation of their dumps, so the lines appear in iteration order |
| Process.Run | base/__init__.py:59-63 | `run` always returns normally; it logs nothing when the body returns and logs exactly the body's exception when the body raises |
| Process.RunWithoutBody | base/__init__.py:56-63 | a process that does not override `_run` logs `NotImplementedError` and still ends normally |
| Process.RunLogDeterminesBody | base/__init__.py:59-63 | the log of `run` tells how the body ended, and which exception it raised |
| Server.IntText | base/__init__.py:80 | the port's text is Python's canonical decimal: non-empty, no colon, a leading '-' exactly when the port is negative, digits after it, and no leading zero except for "0" itself; IntTextRoundTrip shows it reads back as the port |
| Server.IntTextRoundTrip | base/__init__.py:80 | reading back the decimal text of any integer port gives that port |
| Server.Url | base/__init__.py:80 | the url is `http://`, then the host, then `:` at the position right after the host, then the port's text; UrlRoundTrip shows host and port read back |
| Server.UrlRoundTrip | base/__init__.py:80 | host and port can be read back from the url, whatever the host contains |
| Server.DefaultUrl | base/__init__.py:76-80 | the default address gives the url `http://127.0.0.1:53001` |
| Server.BaseServer.constructor | base/__init__.py:76-80 | the server keeps host and port and sets `url` to `http://` + host + `:` + the port's decimal text, from which both can be read back |
| Server.BaseServer.Default | base/__init__.py:76-80 | with no arguments the host is 127.0.0.1, the port 53001 and the url `http://127.0.0.1:53001` |
| Server.DefaultNotFoundHandler | base/__init__.py:83-84 | the default not-found handler raises `HTTPNotFound` |
| Server.Middleware | base/__init__.py:86-100 | a returned response is passed through unchanged; `HTTPNotFound` gives the not-found handler's outcome, including its exception; any other exception gives the 500 report of it; the log is the request, then the exception when one was turned into a 500, then the response when one is returned |
| Server.MiddlewareEscapesOnlyFromNotFound | base/__init__.py:86-100 | the first log event is the request; an exception leaves the middleware iff the handler raised `HTTPNotFound` and the not-found handler raised too; when a response is returned it is the last thing logged |
| Server.DefaultNotFoundPropagates | base/__init__.py:83-93 | with the default not-found handler, a handler's `HTTPNotFound` leaves the middleware as `HTTPNotFound` and never as a 500 |
| Server.HandlerFailureIs500 | base/__init__.py:95-97 | any other exception of the handler becomes a 500 response whose `error` and `type` are its message and class name |
| Maps.ClassMapKeys | nboost/maps.py:12-33 | after the alias inserts, CLASS_MAP has exactly the six literal ids and the three aliases |
| Maps.UrlMapKeys | nboost/maps.py:21-36 | after the alias inserts, URL_MAP has exactly the same nine ids |
| Maps.KnownIds | nboost/maps.py:12-36 | CLASS_MAP and URL_MAP have the same keys, which are the six literal ids and the three aliases, nine distinct ids in all |
| Maps.ClassesHaveModules | nboost/maps.py:3-33 | every class CLASS_MAP names is a key of MODULE_MAP |
| Maps.AliasAgrees | nboost/maps.py:31-36 | a legacy alias has the same class and the same url as the `tf-` id it stands for |
| Maps.AliasesAgree | nboost/maps.py:31-36 | every legacy alias agrees with its target in both maps |
| Maps.NoAliasChains | nboost/maps.py:31-36 | every alias target is one of the six literal ids and not an alias itself |
| Maps.Canonical | nboost/maps.py:30-36 | an id stands for itself unless it is an alias, and then for a literal id |
| Maps.CanonicalIdempotent | nboost/maps.py:30-36 | resolving an alias twice gives the same id as resolving it once |
| Maps.LookupsSucceed | nboost/maps.py:3-36 | for any id of CLASS_MAP, looking up its class in MODULE_MAP and the id in URL_MAP both succeed |
| Maps.Resolve | nboost/maps.py:3-36 | id to class to module, plus the url, succeeds exactly for the ids of CLASS_MAP, and gives the entries of the three maps |
| Maps.ResolveKnownIds | nboost/maps.py:12-36 | resolution succeeds exactly for the six literal ids and the three aliases |
| Maps.ResolveThroughAlias | nboost/maps.py:12-36 | resolving an id gives the same (class, module, url) as resolving the id it stands for |
| Maps.ClassMapValues | nboost/maps.py:12-19 | the classes CLASS_MAP selects are TfBertModel, TfAlbertModel, PtBertModel and ShuffleModel |
| Maps.UnusedModules | nboost/maps.py:3-19 | every selected class has a module, and exactly QAModel and PtDistilBertQAModel have a module but no id |
| Maps.ConfigKeys | nboost/maps.py:45-56 | CONFIG_MAP has the single backend `elasticsearch`, with exactly the eight configuration keys |
| Maps.ConfigDefaults | nboost/maps.py:52-54 | `default_topk` is 10 and `capture_path` is the pattern `/.*/_search` |

## Left out

- Worker processes and their synchronisation are not modelled, because they are operating-system processes: `multiprocessing.Process`, `Event`, `start` and `close` in `__enter__`/`__exit__`, and the `is_ready` signal.
- `BaseServer._run` is not modelled, because it is the asyncio event loop and the aiohttp `Application`, `AppRunner` and `TCPSite`, which are networking and asynchronous I/O. Awaiting a handler is an abstract function from the request to an outcome.
- The logger is not modelled, because `set_logger` lives in `..cli`, which is not part of this model. The middleware's and `run`'s logger calls are recorded as an ordered event list. The `info` call in `BaseProcess.__new__` is not recorded; only the text it logs, `FormatKwargs`, is modelled. The traceback that `exc_info=True` adds is not modelled.
- Exceptions derived from `BaseException` but not from `Exception`, such as cancellation, are outside the `Outcome` type. They pass through both `except` clauses.
- `Routes.RouteHandler.AddRoute` is the registrar's two steps in one call: `add_route(method, path)` makes the decorator, and applying it to `f` appends the entry. The closure value itself is not modelled.
- Function objects are known only by their `__name__`. Two distinct function objects with the same name cannot be told apart. The reflective details of `getattr` are not modelled: inheritance, descriptors and method binding.
- `BaseServer.handler` is a class attribute shared by every subclass that does not assign its own. Class attributes are not modelled; a table is an object that servers refer to.
- `Server.BaseServer.constructor` stands for the keyword call `BaseServer(host=h, port=p)`. `BaseProcess.__new__` accepts only keyword arguments, so the positional call `BaseServer(h, p)` raises `TypeError` in the source; that error is not modelled.
- JSON serialisation (`json.dumps`) and response headers are not modelled. A response carries its status and its JSON value or raw bytes.
- `Http.NotFoundException` takes the message of `HTTPNotFound()` to be "Not Found", aiohttp's reason phrase; aiohttp is not part of this model.
- The path-expression strings and the `capture_path` regex of `CONFIG_MAP` are kept as uninterpreted strings, because nothing in these files evaluates them.
- `IMAGE_MAP` is not modelled, because it holds Docker packaging paths. Importing the model modules and fetching the artifact urls are not modelled either, because both are I/O.
