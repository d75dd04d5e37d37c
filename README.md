# version-kit in Dafny

This project models the core of `version-kit`, a small Go library. It carries a
program's build identity: version, commit, build date, branch, and the Go
toolchain and platform it was built with. The library shows that identity as a
display string, a multi-line report, a field map or a JSON object. It also
serves it over HTTP as a JSON endpoint, a text endpoint, or as response headers
injected by a middleware, for both `net/http` and Fiber.

The model has three modules:

- `Wrappers` holds `Option`. It stands for a nil pointer and for a failed parse.
- `Version` models `version.go`:
  - the `Info` record and the package-level variables (`Globals`) that `Default()` reads;
  - the display string, the short commit, the full report, the field map and the JSON key set;
  - validation, the development flag and the build-timestamp parser;
  - the fluent `Builder`.
- `Handlers` models `handler.go`:
  - how `Handler`, `FiberHandler`, `TextHandler`, `FiberTextHandler`, `Middleware` and `FiberMiddleware` resolve their configuration when they are constructed;
  - the header-injection routine, in both its `net/http` and Fiber forms;
  - what each handler does to the response headers and which body it produces on a request.

Some things in the model get special treatment:

- **Absence.** A commit or build date is *absent* when it is `""` or `"unknown"` (`Version.IsSet`). A branch is absent when it is `""`.
- **Runtime values.** `runtime.Version()`, `runtime.GOOS`, `runtime.GOARCH` and `runtime.Compiler` enter as an `Env` parameter.
- **Globals.** The four linker-overridable variables enter as a `Globals` parameter. `LINKER_DEFAULTS` holds their values when nothing is overridden.
- **Parsing.** `time.Parse` is a function parameter `parse(layout, text)` that returns `Some(t)` or `None`. The zero `time.Time` is the parameter `zero`.
- **Headers.** A response's headers are a map held in a class: `HeaderMap` for `http.Header`, `FiberCtx` for the Fiber context. The header-setting routines update that map in place.
- **Builder.** The Builder is a class whose `info` field the `With…` methods update.
- **Full report.** `Full` is a method that builds the report by successive appends, as the source does. It is proved equal to `Render(Report(i))`, and the report's properties are lemmas about `Report`.
- **Field map.** `Map` is a method that inserts the optional keys one by one.

Several points follow the code where a plain reading of the library's
description would suggest otherwise:

- **Text handlers and the prefix.** `TextHandler` and `FiberTextHandler` do not replace an empty `HeaderPrefix` with `"X-"`. The JSON handlers and the middlewares do (handler.go:187-195 against handler.go:50-52). `Handlers.TextHandlerSettings` and `Handlers.EmptyPrefixExample` keep this behaviour.
- **`"unknown"` in JSON.** The JSON encoding uses `omitempty`, so a commit or build date of `"unknown"` is emitted in the JSON object, even though `Map`, `Full`, `String` and the headers treat it as absent (`Version.UnknownCommitReachesJson`).
- **RFC 3339 is tried twice.** `BuildTimestamp` tries RFC 3339 and then tries it again as the first fallback layout. `Version.RetriedLayoutIsRedundant` shows that the second attempt never changes the result.

## Model

| member | source | states |
|---|---|---|
| Version.New | version.go:54-63 | the record carries the three given fields, an empty branch, and the runtime's Go version, `GOOS/GOARCH` platform and compiler |
| Version.NewWithBranch | version.go:66-70 | as New, with the given branch as well |
| Version.Default | version.go:74-76 | the record's four build fields are exactly the package-level variables; the runtime fields come from the runtime |
| Version.LinkerDefaultsRecord | version.go:15-27 | with nothing overridden, the default record is non-empty, valid and a development build; its display string is `dev` and its short commit is empty |
| Version.ShortCommit | version.go:201-209 | the result is a prefix of the commit, at most 7 characters long; it is empty iff the commit is absent; otherwise its length is min(commit length, 7) |
| Version.String | version.go:79-88 | the version alone when the commit is absent; otherwise `version (short commit)`, agreeing with ShortCommit |
| Version.StringIsVersionUnlessCommit | version.go:79-88 | the display string starts with the version, and equals it iff the commit is absent |
| Version.Full | version.go:91-111 | the text produced by the successive appends is the rendering of the report's printed lines |
| Version.ReportText | version.go:91-111 | the report text is the version line, then the commit, branch and built lines each only when shown, then the Go version, platform and compiler lines |
| Version.ReportFixedLines | version.go:91-111 | the version, Go version, platform and compiler lines are always printed, with the record's values |
| Version.ReportCommitLine | version.go:94-96 | a Commit line holding the full commit is printed iff the commit is present, and any Commit line holds the commit |
| Version.ReportBranchLine | version.go:98-100 | a Branch line is printed iff the branch is non-empty, and it holds the branch |
| Version.ReportBuiltLine | version.go:102-104 | a Built line is printed iff the build date is present, and it holds the date verbatim |
| Version.ReportMember | version.go:91-111 | every printed line is the candidate line for its label, so no line is invented or altered |
| Version.ReportOrdered | version.go:91-111 | the printed lines appear in the fixed label order, each label at most once |
| Version.FullFramedByFixedLines | version.go:91-111 | the text begins with the version line and ends with the Go version, platform and compiler lines, in that order |
| Version.LabelsAligned | version.go:92-108 | every label is 12 characters wide, so the values form one column |
| Version.FullExample | version_test.go:96-107 | a record with every field set prints all seven lines |
| Version.FullMinimalExample | version_test.go:109-122 | a record without commit, branch or build date prints only the version line and the three runtime lines |
| Version.JsonObject | version.go:30-51 | the object's keys are among the seven JSON names; `version` is always present; every other name is present iff its field is non-empty; each value is its field's value |
| Version.JsonRoundTrip | version.go:114-120 | decoding the JSON object gives back the record it was encoded from, every field included |
| Version.UnknownCommitReachesJson | version.go:35 | a commit of `unknown` is emitted in the JSON object even though it counts as absent |
| Version.Map | version.go:132-153 | version, Go version, platform and compiler are always keys; commit and build date are keys iff present; branch is a key iff non-empty; no other keys; each value is its field; the map agrees with the JSON object on non-empty values and omits from it only `unknown` values |
| Version.Validate | version.go:156-161 | fails iff the version is empty, with the message `version is required` |
| Version.ValidateOnlyReadsVersion | version.go:156-161 | two records with the same version validate alike |
| Version.IsDev | version.go:164-166 | true iff the version is `dev`, `development` or empty |
| Version.InvalidIsDev | version.go:156-166 | a record that fails validation is a development build |
| Version.IsDevExamples | version_test.go:210-229 | `dev`, `development` and `""` are development versions; `1.0.0` and `v1.0.0` are not |
| Version.FirstParse | version.go:175-195 | None iff no layout accepts the text; otherwise the result of the first layout that does, all earlier layouts having failed |
| Version.BuildTimestamp | version.go:170-198 | zero time for an absent build date; otherwise the first successful parse over RFC 3339 and then the five fallback layouts in order, or zero time when all fail |
| Version.RetriedLayoutIsRedundant | version.go:175-188 | trying RFC 3339 before the fallback list gives the same result as the fallback list alone |
| Version.Builder.constructor | version.go:217-225 | a new builder holds empty build fields and the runtime's fields |
| Version.Builder.WithVersion | version.go:228-231 | sets the version, leaves every other field as it was, and returns the same builder |
| Version.Builder.WithCommit | version.go:234-237 | sets the commit, leaves every other field as it was, and returns the same builder |
| Version.Builder.WithBuildDate | version.go:240-243 | sets the build date, leaves every other field as it was, and returns the same builder |
| Version.Builder.WithBranch | version.go:246-249 | sets the branch, leaves every other field as it was, and returns the same builder |
| Version.Builder.Build | version.go:252-254 | returns the record accumulated so far |
| Version.BuildChain | version_test.go:308-322 | the full fluent chain yields the same record as NewWithBranch with the same arguments |
| Version.ShortCommitExamples | version_test.go:287-306 | long, seven-character, short, empty and `unknown` commits shorten to `abc1234`, `abc1234`, `abc`, `""` and `""` |
| Version.StringExamples | version_test.go:61-94 | the display strings of the four test records |
| Handlers.DefaultHandlerConfig | handler.go:30-37 | the default configuration serves Default(), neither pretty nor with headers, under prefix `X-` |
| Handlers.HandlerSettings | handler.go:40-52 | the settings come from the first configuration, or the default one when none is given; a nil Info becomes Default(); an empty prefix becomes `X-`, so the prefix is never empty; the flags pass through. FiberHandler's prologue (handler.go:81-93) is the same |
| Handlers.TextHandlerSettings | handler.go:187-195 | as HandlerSettings, except that the prefix is kept as given, even when empty (also FiberTextHandler, handler.go:210-218) |
| Handlers.MiddlewareSettings | handler.go:155-161 | a nil Info becomes Default(); an empty prefix becomes `X-`; a non-empty prefix is kept (also FiberMiddleware, handler.go:172-178) |
| Handlers.HandlerSettingsIdempotent | handler.go:40-52 | feeding resolved settings back in as the configuration changes nothing |
| Handlers.DefaultConfigIsNoConfig | handler.go:41-44 | passing DefaultHandlerConfig() explicitly equals passing no configuration, for both handler kinds |
| Handlers.ExtraConfigsIgnored | handler.go:42-44 | only the first variadic configuration is read |
| Handlers.TextSettingsDifferOnlyInPrefix | handler.go:187-195 | the text prologue agrees with the JSON prologue on Info and flags, and on the prefix iff that prefix is non-empty |
| Handlers.MiddlewareMatchesHandler | handler.go:155-161 | the middleware resolves its Info and prefix exactly as Handler resolves the same configuration fields |
| Handlers.VersionHeaders | handler.go:121-135 | the only keys are the prefixed Version, Commit, Branch and Build-Date; Version is always set; Commit is set iff the commit is present, to the short commit; Branch iff non-empty; Build-Date iff present, verbatim |
| Handlers.VersionHeadersFrame | handler.go:121-135 | header injection leaves every other header key untouched |
| Handlers.AbsentFieldsKeepHeaders | handler.go:124-134 | an absent commit or build date leaves any existing Commit or Build-Date header as it was |
| Handlers.SetVersionHeaders | handler.go:121-135 | the response headers after the successive Set calls are the old headers overlaid with VersionHeaders |
| Handlers.SetVersionHeadersFiber | handler.go:138-152 | the same for the Fiber response headers |
| Handlers.ServeHandler | handler.go:54-77 | the content type becomes JSON; the version headers are added iff IncludeHeaders; the body is the Info's JSON object |
| Handlers.ServeFiberHandler | handler.go:95-107 | as ServeHandler; both Pretty branches give the same body |
| Handlers.ServeTextHandler | handler.go:197-206 | the content type becomes plain text; the version headers are added iff IncludeHeaders, under the unreplaced prefix; the body is the full report |
| Handlers.ServeFiberTextHandler | handler.go:220-228 | the same for the Fiber text handler |
| Handlers.ServeMiddleware | handler.go:163-168 | every request gets the version headers overlaid on its response headers |
| Handlers.ServeFiberMiddleware | handler.go:180-183 | the same for the Fiber middleware |
| Handlers.SimpleHandlerBody | handler.go:232-238 | the body starts with the version variable and equals it iff the commit variable is absent |
| Handlers.HeadersExample | handler_test.go:65-85 | a fully set record under prefix `X-App-` yields exactly the four expected headers, with the commit shortened to `abc1234` |
| Handlers.UnknownFieldsExample | handler_test.go:601-623 | an `unknown` commit and build date, with no branch, yield only `X-Version` |
| Handlers.EmptyPrefixExample | handler_test.go:396-415 | with a nil Info and an empty prefix, Handler writes `X-Version` from Default(), while TextHandler writes an unprefixed `Version` |

## Left out

- HTTP transport: status codes, writing the body bytes, `http.Error`, routing and `c.SendString` are not modelled. A handler's effect is its header map and the body value it produces.
- RegisterEndpoint and RegisterEndpointFiber are not modelled. They only mount `Handler` or `FiberHandler` on a router.
- The middlewares' delegation, `next.ServeHTTP` and `c.Next()`, is left out because it calls code outside the library.
- JSON and JSONPretty are modelled by the key/value set the encoder emits (`Version.JsonObject`), not by their byte layout: key order, escaping, two-space indentation and compact against pretty layout are left out. The serialiser is encoding/json, outside the library.
- The marshal-failure fallbacks (version.go:117, version.go:126, handler.go:70-73) are left out. Marshalling a record of seven strings cannot fail.
- Version.BuildTimestamp: the meaning of each layout is left to the `parse` parameter, because calendar parsing belongs to Go's time package.
- Runtime values are parameters (`Env`). They come from Go's runtime package.
- The package-level variables are a parameter (`Globals`). Their concurrent reading and writing is left out, as is any concurrency.
- Version.ShortCommit: counts characters where Go counts UTF-8 bytes, so a commit with non-ASCII characters is cut differently. Commit hashes are ASCII.
- Version.String: counts characters where Go counts bytes, for the same reason as ShortCommit.
- Version.Builder.Build: returns the record by value. In Go, Build returns the pointer the builder keeps, so later `With…` calls on the same builder also change an Info already built. That aliasing is not modelled.
- Handlers.HeaderMap.Set: stores the key verbatim. `http.Header.Set` canonicalises the key's letter case. Fiber's header handling is likewise taken as a plain map.
- The Content-Type of SimpleHandler and FiberSimpleHandler is not modelled. Only their body (`Handlers.SimpleHandlerBody`) is.
