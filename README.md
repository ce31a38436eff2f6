# aiobp typed router: a Dafny model

aiobp is a small toolkit around aiohttp. This project models three parts of it
and proves properties of the model:

- **The argument binder** (`Provider`). It builds the binding plan for one request
  handler when the handler is registered.
  - Each parameter must be annotated `Annotated[T, msgspec.Meta]` or
    `Optional[Annotated[T, msgspec.Meta]]`.
  - A parameter whose type `T` has a registered injector is bound to that factory.
  - Every other parameter is bound to a getter. The getter reads the route path
    first, then the query string, then the declared default, and coerces the
    result with `T(value)`.
  - All malformed parameters are reported together in one `TypeError`.
  - At request time `gather_args` runs every binding in declaration order. It
    collects the coercion `ValueError`s into one `TypeError`.
- **The router** (`Router`). It owns a mutable injector map, seeded with
  request → request. It also owns an ordered list of route definitions.
  - `route` builds a `Provider` when the handler is decorated. It appends one route
    definition and returns the handler unchanged.
  - The wrapper it registers turns any `TypeError` from `gather_args` into a bad
    request and does not call the handler.
- **INI value conversion** (`parse_value`, `ini_parser`). This turns the strings
  ConfigParser reads into lists or booleans, according to the dataclass field
  annotations.

Files:

- `builtins.dfy` (module `Builtins`): the Python built-ins the code relies on.
  These are `str.strip`, `str.lower`, `str.split`, `str.join`, `int()` on a string
  and `str()` on an int. Both `int()` and `str()` refuse numbers of more than 4300
  decimal digits, CPython's default limit.
- `provider.dfy` (module `Provider`): annotation shapes, Python exceptions as a
  datatype, the getter, registration, request-time gathering, and `class Provider`.
- `web.dfy` (module `Web`): `class Router`, the route decorator, the dispatch
  wrapper and the verb helpers.
- `conf.dfy` (module `Conf`): `parse_value` and `ini_parser`.

How Python is represented:

- Typing and reflection are explicit data. A handler is a `Handler` record: its
  qualified name, a list of `Param(name, hint, default)` and its body as a function
  of the keyword arguments. `Hint` is the shape `typing.get_origin`/`get_args`
  would report.
- Python exceptions are the `Exception` datatype. `IsTypeError()` and
  `IsValueError()` tell which `except` clause catches each one.
- A call either returns or raises, and `Outcome` holds either result.
- The loops of `__inspect`, `__getter` and `gather_args` are `method`s with
  `while`/`for` loops, each proved equal to a specification function:
  - `Provider.Inspect` equals the left fold `Inspected`. Lemmas relate that fold to
    the independent right folds `MalformedMessages`, `Bound` and `FirstBadArity`.
  - `Provider.GatherArgs` equals the left fold `Gathered`. Lemmas relate that fold
    to the right folds `Successes`, `Failures` and `FirstEscape`.
  - `Getter` equals `Resolve`: the first source with a truthy value (`FirstTruthy`,
    a recursive search), else the default, then coerced.
- The list and dict comprehensions of aiobp/config/conf.py are functions
  (`StripAll`, `Types`, `IniParser`), since they compute values and change nothing.
- Dicts that preserve insertion order, such as `self.__args` and the gathered
  kwargs, are sequences of pairs. Python never repeats a parameter name within one
  signature (`DistinctNames`), so a sequence behaves like the dict here.

Missing required values are not collected with the other request-time failures:

- The comment on the `except` clause at aiobp/aiohttp/provider.py:118 says the loop
  needs to collect all validation errors, but the clause catches only `ValueError`.
- The missing-value failure is a `TypeError` (aiobp/aiohttp/provider.py:77-78).
  So the first missing required parameter leaves the loop at once, and later
  parameters are never examined. The model does what the code does, and
  `Provider.TwoMissingReportsFirst` states it.
- Both kinds of failure still end in a bad request (`Web.RespondOutcome`).

## Model

| member | source | states |
|---|---|---|
| Builtins.Strip | aiobp/config/conf.py:16 | `str.strip()`: the result has no surrounding whitespace (Python's whole `str.isspace` set), is no longer than the input, and is the input itself when there was nothing to strip; `StripIsInfix` adds that it is the input minus whitespace at both ends |
| Builtins.StripLeftIsSuffix | aiobp/config/conf.py:16 | the left strip keeps a suffix of its input; only whitespace is dropped in front of it |
| Builtins.StripRightIsPrefix | aiobp/config/conf.py:16 | the right strip keeps a prefix of its input; only whitespace is dropped after it |
| Builtins.StripIsInfix | aiobp/config/conf.py:16 | a strip result is one contiguous run of the input, and every character outside that run is whitespace of the set being stripped |
| Builtins.Split | aiobp/config/conf.py:16 | `s.split(",")`: exactly one more piece than separators, and no piece contains the separator |
| Builtins.JoinSplit | aiobp/config/conf.py:16 | joining the pieces of a split with the separator gives back the original string |
| Builtins.SplitJoin | aiobp/config/conf.py:16 | splitting a join of separator-free pieces gives back those pieces |
| Builtins.Lower | aiobp/config/conf.py:19 | `str.lower()` keeps the length and lower-cases character by character |
| Builtins.LowerIdempotent | aiobp/config/conf.py:19 | lower-casing twice is lower-casing once |
| Builtins.ParseInt | aiobp/aiohttp/provider.py:80 | `int(s)` on a str succeeds exactly when two things hold after skipping the whitespace `int()` skips (ASCII space and `\t`..`\r`, and non-ASCII whitespace). What is left must be an optional sign followed by digits with single underscores between them, and it must have at most 4300 digits. The result is the literal's signed value, underscores ignored |
| Builtins.ParseIntRejectsLeadingSeparator | aiobp/aiohttp/provider.py:80 | a literal preceded by one of U+001C..U+001F is rejected by `int()`, though `str.strip` would remove that character |
| Builtins.ParseIntRejectsTrailingSeparator | aiobp/aiohttp/provider.py:80 | a literal followed by one of U+001C..U+001F is rejected by `int()` |
| Builtins.ParseIntToString | aiobp/aiohttp/provider.py:80 | `int(str(i)) == i` for every int whose decimal spelling has at most 4300 digits, under the modelled `int()` (whitespace, sign, underscores between digits, digit limit) |
| Builtins.DigitLimitRejects | aiobp/aiohttp/provider.py:80 | a well-formed digit run of more than 4300 digits is never accepted by `int()`, whatever follows it. A literal with too many digits fails on the limit and not on its syntax |
| Provider.AnnotatedParts | aiobp/aiohttp/provider.py:103-110 | an accepted `Annotated` hint is exactly `Annotated[T, m]` with one `Meta` object `m`, returned with the optional flag it was given |
| Provider.GetAnnotation | aiobp/aiohttp/provider.py:90-110 | any accepted hint carries a `Meta` object and is exactly `HintOf` of the result (`Annotated[T, Meta]`, or `Optional` of it when optional is true); a rejected one raises the bare `TypeError` or the unpacking `ValueError` |
| Provider.GetAnnotationOfHintOf | aiobp/aiohttp/provider.py:90-110 | `Annotated[T, Meta]` yields `(T, false, meta)` and `Optional[Annotated[T, Meta]]` yields `(T, true, meta)`; with the contract above, `HintOf` is the exact inverse of classification |
| Provider.GetAnnotationRejects | aiobp/aiohttp/provider.py:94-108 | the following raise `TypeError`: a bare type; `None`; a two-member Union whose second member is not `None`; `Annotated` with non-`Meta` metadata, plain or inside `Optional`; `Optional` of a type that is not `Annotated`. A Union without exactly two members, or `Annotated` without exactly one metadata item, raises the unpacking `ValueError` with the count it got |
| Provider.Coerce | aiobp/aiohttp/provider.py:80 | `typ(value)` raises exactly in two cases: `int()` meets a string that `ParseInt` rejects, or `str()` meets an int of more than 4300 digits. Either is a `ValueError`, and `int()` reports the limit exactly when the digit run it read is over it. Otherwise `int(i)` is `i`, `int(s)` is the literal's value, `str(s)` is `s` and `str(i)` is its decimal spelling |
| Provider.CoerceIntStrRoundTrip | aiobp/aiohttp/provider.py:80 | for an int of at most 4300 digits, coercing it to `str` gives its decimal spelling, and coercing that spelling to `int` gives the int back |
| Provider.CoerceRejectsLongLiteral | aiobp/aiohttp/provider.py:80 | a request value of more than 4300 plain digits is a coercion `ValueError` that reports the limit and the number of digits |
| Provider.CoerceRejectsSeparator | aiobp/aiohttp/provider.py:80 | a request value with U+001C..U+001F in front of or after its digits is a coercion `ValueError` |
| Provider.Lookup | aiobp/aiohttp/provider.py:82-88 | `match_info.get(key)` and `query.get(key)`: a value exactly when the key is present, and then the stored value |
| Provider.FirstTruthy | aiobp/aiohttp/provider.py:66-69 | the loop over the sources stops at the first source with a present, non-empty value; every earlier source had none |
| Provider.PathPreferred | aiobp/aiohttp/provider.py:66-84 | a non-empty path value is coerced, whatever the query holds |
| Provider.QueryFallback | aiobp/aiohttp/provider.py:66-88 | a missing or empty path value falls through to a non-empty query value |
| Provider.DefaultFallback | aiobp/aiohttp/provider.py:70-80 | with neither source set: the default is coerced when there is one; without one, an optional parameter gets `None` and a required one raises `Missing required value <name>` |
| Provider.EmptyCountsAsAbsent | aiobp/aiohttp/provider.py:68 | an empty path value gives the same result as no path entry at all |
| Provider.Getter | aiobp/aiohttp/provider.py:55-80 | the for-else loop, the `None` check and the coercion return or raise exactly what `Resolve` says; the lemmas above characterise `Resolve` |
| Provider.BindParamChoice | aiobp/aiohttp/provider.py:29-46 | a parameter whose type has an injector is bound to that factory, ignoring its optional flag and default; any other is bound to the path → query getter with its own type, optional flag and default |
| Provider.SignatureMessage | aiobp/aiohttp/provider.py:48-49 | the corrected registration message, which the model records for each malformed parameter: the as-written prefix followed by the reason, so it ends with `is not Annotated[type, msgspec.Meta]!` |
| Provider.AsWrittenMessageLacksReason | aiobp/aiohttp/provider.py:48-49 | the message the code actually builds ends in a space and never contains the reason |
| Provider.InspectedPrefix | aiobp/aiohttp/provider.py:27-50 | one more iteration of the loop of `__inspect` is one `InspectStep` |
| Provider.InspectedCharacterised | aiobp/aiohttp/provider.py:24-53 | the loop examines every parameter. It records one message per malformed parameter, in order, and binds every well-formed one, in order. It stops early only at the first unpacking `ValueError`, which escapes as itself |
| Provider.RegistrationOutcome | aiobp/aiohttp/provider.py:19-53 | building a Provider raises the first unpacking `ValueError` if there is one. Otherwise it raises one `TypeError` listing every malformed parameter if there is any. Otherwise it succeeds with all bindings |
| Provider.EveryParamAccountedFor | aiobp/aiohttp/provider.py:27-50 | every parameter is either bound or named by a message, never both; every malformed one is named |
| Provider.WellFormedRegistration | aiobp/aiohttp/provider.py:24-53 | with only well-formed annotations, registration succeeds and binds every parameter under its own name, in declaration order |
| Provider.AllBound | aiobp/aiohttp/provider.py:27-46 | with only well-formed annotations, nothing is reported and the bindings are one per parameter, in order |
| Provider.TwoMalformedBothReported | aiobp/aiohttp/provider.py:47-53 | two malformed parameters are both named, in order, in the one registration `TypeError` |
| Provider.AbortPersists | aiobp/aiohttp/provider.py:27-50 | once an exception has left the loop of `__inspect`, the remaining parameters change nothing |
| Provider.Provider.constructor | aiobp/aiohttp/provider.py:19-21 | the provider keeps the injector map it was given and starts with an empty binding table |
| Provider.Provider.Inspect | aiobp/aiohttp/provider.py:22-53 | the loop writes into the binding table exactly the bindings of `Inspected`. It raises exactly when `Registration` raises, and with the same exception. When it does not raise, the table is the registration result |
| Provider.InvokeRaises | aiobp/aiohttp/provider.py:73-80 | an injected binding yields `factory(request)` and never consults path or query. An extracted binding raises only the missing-value `TypeError` or a coercion `ValueError` |
| Provider.Call | aiobp/aiohttp/provider.py:117 | `getter(request=request)` returns or raises what `Invoke` says |
| Provider.GatheredPrefix | aiobp/aiohttp/provider.py:115-119 | one more iteration of the loop of `gather_args` is one `GatherStep` |
| Provider.GatheredCharacterised | aiobp/aiohttp/provider.py:112-124 | the loop runs until a binding raises something other than `ValueError`, which escapes as itself. If none does, the values and the `(name, message)` failures are exactly those of all bindings, in declaration order |
| Provider.GatherOutcome | aiobp/aiohttp/provider.py:112-124 | `gather_args` raises the first escaping exception if there is one. Otherwise it raises one `TypeError` with every coercion failure if there is any. Otherwise it returns the values |
| Provider.GatherKeys | aiobp/aiohttp/provider.py:112-124 | on success, the result has exactly one entry per binding, keyed by the binding's name, in order, holding the value that binding produced |
| Provider.GatherRaisesTypeError | aiobp/aiohttp/provider.py:112-124 | everything `gather_args` raises is a `TypeError` |
| Provider.EscapeIsMissingValue | aiobp/aiohttp/provider.py:112-119 | the only exception that escapes the loop of `gather_args` is the missing-value `TypeError` |
| Provider.TwoMissingReportsFirst | aiobp/aiohttp/provider.py:73-119 | with two required parameters both missing, `gather_args` reports only the first |
| Provider.EscapePersists | aiobp/aiohttp/provider.py:115-119 | once an exception has escaped the loop of `gather_args`, the remaining bindings change nothing |
| Provider.Provider.GatherArgs | aiobp/aiohttp/provider.py:112-124 | the loop returns or raises exactly `Gather` of the binding table; it modifies nothing, so repeated calls agree |
| Web.Router.constructor | aiobp/aiohttp/web.py:17-21 | a fresh router has no routes, and its injector map has exactly one entry: request type → identity |
| Web.Router.AddTypeInjector | aiobp/aiohttp/web.py:23-24 | sets or replaces the entry for the type only, and leaves the routes and the bindings of every registered provider unchanged |
| Web.Router.Route | aiobp/aiohttp/web.py:26-49 | the decorator carries the method, path and options it was made with |
| Web.Router.Decorate | aiobp/aiohttp/web.py:29-47 | the provider is built against the current injectors. If that raises, the exception propagates and the route list is unchanged. Otherwise exactly one route is appended at the end, with this method, path, options and handler and a fresh provider whose bindings are the registration result. Earlier routes keep their order and their bindings, and the original handler is returned |
| Web.RespondOutcome | aiobp/aiohttp/web.py:37-43 | the wrapper never lets a gathering failure through. A failure becomes a bad request carrying that error, and the handler is not called. Otherwise the response body is the handler's result for one keyword argument per binding |
| Web.Dispatch | aiobp/aiohttp/web.py:35-43 | the wrapper answers exactly what `Respond` says for the route's provider |
| Web.RequestParamGetsRequest | aiobp/aiohttp/web.py:19-21 | with a fresh router's injectors, a parameter of request type (optional or not) is injected with the request itself |
| Web.RequestParamInjected | aiobp/aiohttp/web.py:19-24 | the request-type entry is never removed, so on any router a request-typed parameter is bound to that injector and never read from path or query |
| Web.Router.Head | aiobp/aiohttp/web.py:51-52 | the `route` decorator for `HEAD` and the given path |
| Web.Router.Get | aiobp/aiohttp/web.py:54-55 | the `route` decorator for `GET` and the given path |
| Web.Router.Post | aiobp/aiohttp/web.py:57-58 | the `route` decorator for `POST` and the given path |
| Web.Router.Put | aiobp/aiohttp/web.py:60-61 | the `route` decorator for `PUT` and the given path |
| Web.Router.Patch | aiobp/aiohttp/web.py:63-64 | the `route` decorator for `PATCH` and the given path |
| Web.Router.Delete | aiobp/aiohttp/web.py:66-67 | the `route` decorator for `DELETE` and the given path |
| Web.Router.Options | aiobp/aiohttp/web.py:69-70 | the `route` decorator for `OPTIONS` and the given path |
| Web.Router.View | aiobp/aiohttp/web.py:72-73 | the `route` decorator for the any-method constant `*` and the given path |
| Web.VerbMethodsDistinct | aiobp/aiohttp/web.py:51-73 | the eight helpers register eight different methods |
| Conf.OriginOf | aiobp/config/conf.py:27 | `get_origin(v) or v`: a parameterised class such as `list[str]` reduces to its class, a plain class stays itself, and a typing form stays the form |
| Conf.ParseValue | aiobp/config/conf.py:10-21 | a non-string is returned unchanged. For `list`, the result has comma-count + 1 items, each the stripped comma-separated piece. For `bool`, the result is true exactly when the lower-cased string is `1`, `true` or `yes`. For any other target the string is returned unchanged |
| Conf.ListRoundTrip | aiobp/config/conf.py:15-16 | joining trimmed, comma-free items with `,` and converting to `list` gives exactly those items |
| Conf.ListPieces | aiobp/config/conf.py:15-16 | the list items are the stripped pieces of a split whose join is the original string |
| Conf.BoolCaseInsensitive | aiobp/config/conf.py:18-19 | `bool` conversion does not depend on letter case |
| Conf.Types | aiobp/config/conf.py:27 | one origin-reduced type per annotated field, and no others |
| Conf.IniParser | aiobp/config/conf.py:24-28 | the result has exactly the keys of the data. A key with no annotation passes through unchanged (target `None`); any other key is converted against its field's origin-reduced type |
| Conf.IniParserOrigins | aiobp/config/conf.py:27-28 | a `list[str]` field is split like `list`, while a field under a typing form (`Annotated[...]`, `Optional[...]`) is left a string |

## Left out

- Reflection: `inspect.signature` and `typing` internals are replaced by the `Handler`/`Param`/`Hint` records. A handler's parameters are given in declaration order with their names, annotation shapes and defaults.
- Provider.GetAnnotation: the base of an `Annotated` hint is always a class (`TypeId`). Annotations whose base is itself a typing construct are not represented.
- Provider.Param: a default is an `int` or `str` literal or absent. Other default objects are not modelled. A declared default of `None` is the same as no default, as aiobp/aiohttp/provider.py:30 treats it.
- Provider.Provider.Inspect: the message recorded for a malformed parameter (also in `InspectStep` and `MalformedMessages`) is the corrected text `SignatureMessage`. The code records the shorter `SignatureMessageAsWritten` text, which lacks the reason (see Findings).
- Builtins.ParseInt: the digit limit is CPython's default (4300, from Python 3.10.7 and 3.11 on). A program can change it or turn it off with `sys.set_int_max_str_digits`, and earlier Python versions have no limit. Neither case is modelled.
- Provider.Coerce: coercion to a class other than `int`/`str` yields an opaque instance and never raises. The source's type variable restricts `T` to `int` and `str`. `int()` accepts ASCII digits only, not other Unicode decimal digits.
- Provider.Exception.Message: the modelled text of the two `ValueError` kinds follows CPython's wording. The exact text is not a promise of the source.
- Injector factories and handler bodies are total functions of the request, or of the keyword arguments. Exceptions they might raise, and their side effects, are not modelled.
- Provider.Provider.Inspect: the provider keeps the whole injector dict object (aiobp/aiohttp/provider.py:20), but it only reads that dict during construction. The model stores a copy of the map, which behaves the same for everything the provider does.
- Python's `dict` semantics for the binding table and the gathered kwargs are modelled as sequences of pairs. This is exact because parameter names are distinct.
- aiohttp transport: `web.Request` is modelled as two string maps (route placeholders, query) plus an opaque identity. For a query key given several times, `MultiDict.get` returns the first value and the model holds one value per key. `web.RouteDef`/`RouteTableDef` internals, `web.HTTPBadRequest` and `web.Response` are modelled by the `RouteDef` and `Response` datatypes. `str(error)` is not rendered: the bad request carries the error value itself.
- async/await: `gather_args`, the wrapper and the handler are asynchronous in the source. The model runs them sequentially, which is how one request is processed.
- Web.Router.Decorate: Python's `route` returns a closure `decorate`. The model splits it into `Route`, the decorator value that carries the method, path and options, and the `Decorate` method, which applies it to a handler. `functools.wraps` only copies metadata and is not modelled.
- The global default router and its module-level aliases (aiobp/aiohttp/web.py:75-85) are not part of this model. An explicit `Router` object stands in for them.
- aiobp/aiohttp/server.py (network server startup), aiobp/task.py (asyncio task bookkeeping), `conf.loader`, aiobp/config/json.py and aiobp/config/yaml.py are not part of this model. They consist of file I/O, ConfigParser, mashumaro decoders and concurrency. Package `__init__` re-exports and the example server start in tests/test_aiohttp.py are left out too.
- Builtins.Lower: only ASCII letters are lower-cased. Python's `str.lower` also lower-cases other letters, but none of them lower-cases to a character of `1`, `true` or `yes`, so the `bool` truth table is the same.
- Conf.IniParser: a `dataclass`'s annotations are a map from field name to `FieldType`, and the data keys are strings. Non-string keys and typing forms other than the ones represented are not modelled.

## Findings

| source | as written | input that shows it | evidently intended | confidence | as-written member | corrected member |
|---|---|---|---|---|---|---|
| aiobp/aiohttp/provider.py:48-49 | the second string literal stands alone as its own statement, so the registration message is just `Argument "<name>" of handler "<qualname>" at <name> ` and never says what is wrong | any handler with a parameter annotated `int` (not `Annotated`) | the two literals were meant to form one message ending with `is not Annotated[type, msgspec.Meta]!` | high; not executed | Provider.AsWrittenMessageLacksReason | Provider.SignatureMessage |
