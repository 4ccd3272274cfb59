# express-reverse-proxy start-up and request fallback, in Dafny

`server.js` turns a JSON site configuration into an Express middleware stack.
Before doing so, it reads the command line and picks the configuration file
and the port. This project models that script and proves what it does.

The script's steps map to modules as follows:

- **`Arguments`** — `parseArguments`. This is a reduce over the known options. An option found in argv gets an entry holding the tokens after its first occurrence, one per declared sub-argument. A sub-argument slot that runs past argv, or that holds a known option name, ends the process with code 16. The method `ParseArguments` mirrors the loops; the function `Parse` is its specification.
- **`Startup`**
  - `--help`.
  - The configuration file: `./server-config.json` by default. With `--config p` it is `p`, or `p/server-config.json` when `p` is a directory. Exit code 404 when the file does not exist.
  - The port: `config.port || PORT || 8080`.
- **`Json`** — the JavaScript coercions the script relies on:
  - truthiness;
  - `String(x)`;
  - `Number.parseInt(x, 10)`, with ECMAScript white space, an optional sign and the longest digit run;
  - `Number.isFinite`. A number that overflows a double to Infinity is not finite.
- **`Mounts`** — how the `folders` and `proxy` settings are flattened. Each setting is a string, an array or a path-keyed object.
  - For static folders, arrays and objects are walked to any depth. An object's keys are prepended to the url path by plain concatenation.
  - For proxies, each array element and each object value is handed to the proxy as it is, with no further flattening.
- **`Pipeline`** — an `App` class whose `stages` sequence grows with every `app.use`, and the registration functions of the script as methods on it. Each method is proved to append exactly the stages its flattening function predicts. `BuildApp` registers, in order:
  1. the logger;
  2. the custom headers;
  3. the static folders;
  4. the proxies;
  5. the fallback responder.
- **`Fallback`** — the responses server.js writes itself. A `Response` object records the calls made on it. The model covers:
  - the custom-headers middleware;
  - `unhandled`: headers, then the status (`parseInt`, or 404 when not finite), then the body: `send`, else `file` rooted at the working directory, else empty;
  - the `unhandled` middleware.

  As written, the middleware runs the responder for **every** matching key, in key order. Keys `""`, `"*"` and `"**"` always match. It never calls `next`. That is what `UnhandledMiddleware` models. The first-match-only variant is `FirstMatchMiddleware`; see Findings.

The host is a parameter record (`Platform.Host`):

- `fs.existsSync`;
- `lstat().isDirectory()`;
- `path.isAbsolute`;
- `path.join`;
- `process.cwd()`.

The request's `req.accepts` is a parameter predicate. `process.env.PORT` is an optional string parameter.

Two details of server.js that the model keeps as written:

- **Proxy arrays.** `addProxies` (server.js:174-178) passes each array element to `addRemoteProxy` unflattened, just as `addMappedProxy` does with object values.
- **Status codes.** Any finite `parseInt` result (server.js:198-202) is passed to `res.status`, including 0 and negative values. The model records that call as `SetStatus(n)`; what Express does with a code outside 100-999 is under "## Left out".

## Model

| member | source | states |
|---|---|---|
| `Arguments.IndexOf` | server.js:36 | `indexOf`: -1 exactly when the token is absent, otherwise the first position holding it |
| `Arguments.CollectSubArgs` | server.js:42-50 | the `forEach` over the first `n` sub-arguments: the tokens after the option, or exit 16 at the first slot past argv or holding a known option name |
| `Arguments.ParseStep` | server.js:36-54 | one reduce step: an absent option leaves the result alone; a present one gets an entry with its collected tokens, or the step fails with the collection's exit |
| `Arguments.ParseUpTo` | server.js:35-55 | the reduce over the first `n` options, starting from `{}`; an exit stops it |
| `Arguments.Parse` | server.js:33-56 | `parseArguments`: the reduce over all options |
| `Arguments.CollectSubArgsMeaning` | server.js:43-50 | collecting sub-arguments succeeds iff every slot after the option exists and is not a known option name; then it yields exactly the next tokens, in order; failure is code 16 |
| `Arguments.CollectArgs` | server.js:43-50 | the sub-argument loop returns what `CollectSubArgs` specifies, stopping at the first missing slot |
| `Arguments.StepOutcome` | server.js:36-54 | one reduce step fails iff its option occurs with a sub-argument missing, and then with code 16 |
| `Arguments.ParseUpToOutcome` | server.js:33-56 | the whole reduce fails iff some known option occurs with a missing sub-argument; the exit code is then 16 |
| `Arguments.ParseUpToKeys` | server.js:35-55 | on success the result has an entry for exactly the known options that occur in argv |
| `Arguments.StepTokens` | server.js:37-52 | a step keeps the other entries and gives its option, when present, the tokens after its first occurrence |
| `Arguments.ParseUpToTokens` | server.js:35-55 | with distinct option names, each present option's entry is exactly the tokens after its first occurrence, one per declared sub-argument |
| `Arguments.CollectErrorSticks` | server.js:45-48 | once a slot is missing the process has exited: later slots change nothing |
| `Arguments.ParseErrorSticks` | server.js:45-48 | once an option fails, the later options of the reduce change nothing |
| `Arguments.ParseArguments` | server.js:33-56 | the nested loops compute `Parse`, returning the first missing-sub-argument exit |
| `Startup.ServerNames` | server.js:8-25 | the known option names are `--help` and `--config`, in that order |
| `Startup.NoSubArgStep` | server.js:37-42 | an option without sub-arguments gets an empty entry when present and never fails |
| `Startup.OneSubArgStep` | server.js:37-52 | an option with one sub-argument takes the next token, failing when it is missing or an option name |
| `Startup.IsOptionName` | server.js:34 | a token is a known option name iff it is `--help` or `--config` |
| `Startup.ServerArgsParse` | server.js:33-58 | the server's own argv parse in closed form: `--help` gets an empty entry, `--config` the next token, failing when that token is absent, `--help` or `--config` |
| `Startup.ServerArgsFailure` | server.js:44-48 | the parse fails (code 16) iff `--config` is the last token or is followed by an option name |
| `Startup.ServerArgsEntries` | server.js:37-52 | on success `--help` and `--config` have entries iff they occur, `--config` holding the token after it |
| `Startup.ConfigPath` | server.js:90-93 | the `--config` token, or its `server-config.json` when it names an existing directory |
| `Startup.Boot` | server.js:58-97 | argv errors exit 16; else `--help` shows help; else the file is the default, or the `--config` token (its `server-config.json` when a directory); a missing file exits 404 |
| `Startup.SelectPort` | server.js:103 | the port is `config.port` when truthy, else a non-empty `PORT`, else 8080; always truthy |
| `Json.NatToDecimal` | server.js:198 | `String(n)` for a natural number: a non-empty run of digits |
| `Json.Truthy` | server.js:103 | JavaScript truthiness: `undefined`, `null`, `false`, 0 and `""` are falsy; everything else is truthy |
| `Json.ToText` | server.js:198 | `String(x)`, which `parseInt` applies to its argument first |
| `Json.IntToDecimal` | server.js:198 | `String(n)` for an integer starts with a minus sign or a digit |
| `Json.DigitRun` | server.js:198 | the longest run of decimal digits at the start of the text: all digits, followed by a non-digit or the end |
| `Json.DecimalRoundTrip` | server.js:198 | reading back the decimal digits of `n` gives `n` |
| `Json.SignOfDecimal` | server.js:198 | after white space, the text of `n` yields the digits of its magnitude and a minus sign exactly when `n < 0` |
| `Json.ParseIntReadsLeadingInteger` | server.js:198 | `parseInt` reads back any integer, whatever white space precedes it and whatever non-digit text follows it |
| `Json.ParseInt10` | server.js:198 | `Number.parseInt(x, 10)` on the text: skip white space, an optional sign, the longest digit run; NaN (`None`) when there are no digits |
| `Json.StatusCode` | server.js:198-201 | the `parseInt` result when finite, else 404 |
| `Json.NumericStatusKept` | server.js:198-202 | a numeric status is sent unchanged |
| `Json.TextStatusReadsLeadingInteger` | server.js:198-202 | a text status is read as its leading integer (`"307 Temporary"` gives 307) |
| `Json.NonNumericStatusIs404` | server.js:198-202 | a missing, null or boolean status, or text without a leading integer, gives 404 |
| `Json.HugeStatusIs404` | server.js:198-202 | a text status whose leading integer has magnitude 2^1024 - 2^970 or more (so `parseInt` gives an infinity) is answered with 404 |
| `Mounts.KeyPaths` | server.js:128-151 | one key path per string of the tree: an array adds no key, an object prepends its key to every path below it |
| `Mounts.ListKeyPaths` | server.js:137-141 | one key path per string of the first `n` array elements |
| `Mounts.NamedKeyPaths` | server.js:128-135 | one key path per string of the first `n` object values, each starting with its key |
| `Mounts.StaticFolders` | server.js:143-151 | `addStaticFolder` mounts the tree's strings in depth-first order, one each, the i-th at the prefix followed by the i-th key path |
| `Mounts.StaticFolderList` | server.js:137-141 | `addStaticFolders` mounts the strings of each array element in array order, each at the prefix followed by its key path within that element |
| `Mounts.MappedStaticFolders` | server.js:128-135 | `addMappedStaticFolders` mounts each value's strings in key order, each at `prefix + key` followed by its key path within that value |
| `Mounts.StaticFoldersRebase` | server.js:128-151 | url paths are plain concatenations: flattening under `a + b` is flattening under `b` with `a` prepended to every url path |
| `Mounts.IsSet` | server.js:153 | `config.folders`/`config.proxy` is truthy: a non-empty string, an array or an object |
| `Mounts.ProxyTargets` | server.js:180-188 | `addProxy`: a string is one mount at the prefix; array elements at the prefix; object values at `prefix + key`; each handed over unflattened; anything else nothing |
| `Mounts.ProxyList` | server.js:174-178 | `addProxies`: one mount per element, in order, at the prefix |
| `Mounts.MappedProxies` | server.js:166-172 | `addMappedProxy`: one mount per key, in order, at `prefix + key`, the value unflattened |
| `Mounts.ProxyAgreesOnFlatTrees` | server.js:166-188 | without nesting the proxy flattener mounts exactly what the static flattener mounts, at the same url paths |
| `Mounts.FlatListAgrees` | server.js:137-141 | an array of strings gives one static mount per string at the prefix |
| `Mounts.FlatNamedAgrees` | server.js:128-135 | an object of strings gives one static mount per key at `prefix + key` |
| `Mounts.NestedObjectNotFlattenedForProxy` | server.js:170 | a nested object is one proxy mount at `/api` but a static mount at `/api/v1` |
| `Fallback.Response.Do` | server.js:196-211 | a call on the response is appended to its call list |
| `Fallback.SetHeaders` | server.js:195-196 | one `setHeader` per configured header, in key order, nothing else |
| `Fallback.CustomHeadersMiddleware` | server.js:107-113 | sets every configured header in key order, then calls `next` |
| `Fallback.BodyAction` | server.js:204-212 | the body call is `send`, `sendFile` or an empty `send` |
| `Fallback.ReplyActions` | server.js:194-213 | the calls `unhandled` makes: the reply's header calls, the status call, the body call |
| `Fallback.Unhandled` | server.js:194-213 | the responder's calls are exactly its reply's header calls, status call and body call |
| `Fallback.ReplyShape` | server.js:194-213 | a reply is header calls only, then one status call with the parsed status, then `send` if truthy, else the file rooted at cwd, else an empty body |
| `Fallback.RespondIfMatches` | server.js:217-222 | the `forEach` callback: a key `""`, `"*"` or `"**"`, or one the request accepts, responds with its reply; any other key makes no call |
| `Fallback.Matches` | server.js:218-220 | a key matches when it is `""`, `"*"` or `"**"`, or when the request accepts it |
| `Fallback.FallbackUpTo` | server.js:217-223 | the calls of the first `n` keys, in key order, each matching key adding its reply |
| `Fallback.FallbackActions` | server.js:217-223 | the calls of all keys |
| `Fallback.UnhandledMiddleware` | server.js:215-225 | every matching key responds, in key order, with no early stop; `next` is never called |
| `Fallback.HeaderActionsHaveNoStatus` | server.js:195-196 | header calls set no status |
| `Fallback.ReplyHasOneStatus` | server.js:194-213 | one reply sets the status exactly once |
| `Fallback.StatusCallsPerMatch` | server.js:217-223 | the middleware sets the status once per matching key |
| `Fallback.WildcardAlwaysResponds` | server.js:216-220 | a key `""`, `"*"` or `"**"` responds whatever the request accepts: its whole reply comes right after the calls of the keys before it |
| `Fallback.StarNotFound` | server.js:194-225 | `{"*": {"status": 404}}` answers every request with status 404 and an empty body |
| `Fallback.JsonAndStarBothRespond` | server.js:215-225 | with keys `application/json` and `*`, a request that accepts JSON gets two status calls |
| `Fallback.FirstMatchMiddleware` | server.js:215-225 | the corrected middleware stops after the first matching key and responds with `FirstMatch` |
| `Fallback.FirstMatch` | server.js:215-225 | the corrected responder: the reply of the first matching key, or no call when none matches |
| `Fallback.FallbackOfCons` | server.js:217 | keys are visited in order: the first key's calls precede the rest's |
| `Fallback.FirstMatchOneStatus` | server.js:215-225 | the corrected responder sets the status once when some key matches, and makes no call at all when none does |
| `Fallback.FirstMatchIsPrefix` | server.js:215-225 | the corrected responder's calls begin the as-written calls, and are all of them when at most one key matches |
| `Fallback.FirstMatchAgainstAll` | server.js:215-225 | the corrected calls are a prefix of the as-written calls, and equal them exactly when at most one key matches |
| `Pipeline.App.constructor` | server.js:101 | a new application has no stages |
| `Pipeline.App.Use` | server.js:105 | `app.use` appends one stage |
| `Pipeline.MountAt` | server.js:120-124 | a non-empty url path is passed to `app.use`; the empty one mounts at the root |
| `Pipeline.FolderPath` | server.js:116-119 | an absolute folder is kept; a relative one is joined to the working directory |
| `Pipeline.AddStaticFolderByName` | server.js:115-126 | registers one static stage; a relative folder is resolved against cwd, an absolute one kept |
| `Pipeline.AddStaticFolder` | server.js:143-151 | registers exactly the stages of `StaticFolders`, in order |
| `Pipeline.AddStaticFolders` | server.js:137-141 | registers exactly the stages of `StaticFolderList`, in order |
| `Pipeline.AddMappedStaticFolders` | server.js:128-135 | registers exactly the stages of `MappedStaticFolders`, in order |
| `Pipeline.AddRemoteProxy` | server.js:157-164 | registers one proxy stage at the url path |
| `Pipeline.AddMappedProxy` | server.js:166-172 | registers exactly the stages of `MappedProxies`, in order |
| `Pipeline.AddProxies` | server.js:174-178 | registers exactly the stages of `ProxyList`, in order |
| `Pipeline.AddProxy` | server.js:180-188 | registers exactly the stages of `ProxyTargets`, in order |
| `Pipeline.BuildApp` | server.js:101-225 | a fresh app whose stages are `Stack(config)`, and the port `SelectPort` picks |
| `Pipeline.Stack` | server.js:105-225 | the stages in registration order: the logger, the headers stage when `headers` is set, the static stages when `folders` is set, the proxy stages when `proxy` is set, the responder when `unhandled` is set |
| `Pipeline.OrderedAppend` | server.js:105-225 | appending a block of one later kind keeps the stack's kind order |
| `Pipeline.StackRanked` | server.js:105-225 | stage kinds never go backwards: logger, headers, static, proxies, fallback |
| `Pipeline.StackOrder` | server.js:105-225 | the logger is first; the headers stage is second iff `headers` is set; the responder is last iff `unhandled` is set, and nowhere else |
| `Pipeline.StaticStagesFollowFolders` | server.js:105-155 | right after the logger and the headers stage, the stack holds exactly the stages of the root mounts of `folders` |
| `Pipeline.StaticStagesOfTree` | server.js:115-155 | those stages are one per folder string in depth-first order, each serving its resolved directory at the url path made of the keys on the way to it (the root when there are none) |

## Left out

- Fallback.Response: the call list records every call the script attempts. In Express, once a response has been sent, `setHeader` and `send` throw `ERR_HTTP_HEADERS_SENT`, which ends the `forEach` at the second matching key's first such call. The model does not raise that error, so after two matches the list also holds the second key's calls. Likewise a status code below 100 or above 999 makes Node's `writeHead` throw `ERR_HTTP_INVALID_STATUS_CODE` when the body is sent (Express 5 already throws in `res.status`), so such a code is never sent. The call list does not model that either: it holds `SetStatus(n)` and the body call.
- Console output: the help text, the coloured `exitError` messages, and the `[config]`/`[folder]`/`[proxy]`/`[listen]` logs. An exit is an `Exit` value carrying its code and message.
- `JSON.parse` and reading the file. The configuration arrives as a `Config` value.
  - A `null` configuration is not modelled. It makes server.js:107 throw.
  - Only the settings the script reads are modelled.
- `headers` and `unhandled` values that are not objects are not modelled. A string there would be walked by its character indices. Both are lists of key/value pairs in declaration order.
- JavaScript enumerates integer-like object keys first. That ordering is not modelled: keys keep declaration order.
- Numbers with a fraction or an exponent are not modelled, nor integers above 2^53 in magnitude (`String(2**60)` is `"1152921504606847000"`, not the exact digits). `Json.Value.Number` holds the integers up to 2^53, which a double holds exactly and `String` prints digit for digit. In the same way `Json.ParseInt10` keeps the exact value of a longer digit run, where `parseInt` rounds it to the nearest double (`"9007199254740993"` gives 9007199254740992); only the overflow to Infinity is modelled.
- The middleware libraries are opaque stage constructors: `morgan`, `express.static`, `express-http-proxy`, `res.sendFile`, and the content negotiation behind `req.accepts`.
- `app.listen`, the `ready` message, `server.close` and the process signal and message handlers (server.js:227-249) are network and process lifecycle. They are not modelled. A case-insensitive `shutdown` message closes the server.
- `Startup.Boot` takes `argv` as the whole of `process.argv`. `indexOf` over the whole array finds the same options.

## Findings

| source | as written | input that shows it | evidently intended | confidence | as-written member | corrected member |
|---|---|---|---|---|---|---|
| server.js:215-225 | every key that matches runs `unhandled`, with no early stop, so one response is sent several sets of header, status and body calls | `unhandled` = `{"application/json": {...}, "*": {...}}` and a request that accepts JSON: the responder attempts two status calls, the second after the response was sent (in Express the second key's first `setHeader` or `send` throws) | only the first matching key responds | medium, not executed | `Fallback.JsonAndStarBothRespond` | `Fallback.FirstMatchMiddleware` |

`Fallback.StatusCallsPerMatch` generalises the as-written half: the status is set once per matching key.

`Fallback.FirstMatchOneStatus` and `Fallback.FirstMatchAgainstAll` prove the corrected half:

- the corrected responder sets the status at most once;
- its calls are a prefix of the as-written ones;
- the two agree exactly when at most one key matches.

`UnhandledMiddleware` stays the model of the script as it stands.
