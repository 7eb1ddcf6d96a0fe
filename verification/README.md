# restproxy, modelled in Dafny

`restproxy` turns property accesses on a JavaScript `Proxy` into REST calls:
`api.users(42).posts().get()` on a proxy built with base `http://api.test` builds
the request `GET http://api.test/users/42/posts` and returns it; passing a callback
ends the request with that callback instead. Each access goes through one `get` trap. It
returns members of the target unchanged, turns a verb or verb alias (`fetch`,
`update`, `remove`, …) into a function that dispatches the request, and turns any
other name into a new path node. Calling that node appends the stringified
arguments as further path segments.

The model covers the four parts of `lib/restproxy.js`:

- **Name resolution** (`RestProxy.Resolve`): the order of the trap's checks:
  1. own and inherited members, symbols, and `inspect`/`valueOf`/`toString` pass through;
  2. the alias lookup with its `|| name` fallback;
  3. the strict membership test against the four verbs.
- **Path accumulation**:
  - an uncalled access is a node whose path is the name alone (`RestProxy.Child`), which discards the parent's path (see "## Findings");
  - calling it builds an element under the parent's path when that path is non-empty (`RestProxy.Element`, `RestProxy.Apply`);
  - `RestProxyFacts.Walk` follows a whole chain of accesses.
- **Actions** (`RestProxy.Action`):
  - the argument shuffle (a function in the data position becomes the callback);
  - resolving the path against `base + '/'`;
  - returning the request, or ending it with the callback.
- **Construction** (`RestProxy.Construct`): the shallow option merge, the refusal of a non-string base, and the constructor's behaviour when called without `new`.

Modules:

- `Results`: `Option`, `Result` and the two exceptions the core can raise.
- `Text`: the `indexOf`-style scanning the parsers use.
- `Js`: JavaScript values, truthiness and `String()` on them, with decimal rendering of integers.
- `Paths`: paths as segment sequences. `Render` joins with `/` and `Split` is its inverse.
- `Uri`: relative-reference resolution after section 5.2 of RFC 3986. `url.resolve` is modelled by it.
- `RestProxy`: the core.
- `RestProxyFacts`: the properties relating several operations, and a worked example.

Targets come in three kinds:

- `Root`: the `{ options }` object. It has no `path`.
- `Accessor`: the arrow function an uncalled access builds. Its `path` is the accessed name.
- `Instance`: an `Element` built by calling an accessor.

Whether a name is "in" a target depends on what JavaScript puts on the prototype chains. The model keeps that as the abstract sets of `Realm`.

The core operations follow the code as written. The two defects listed under "## Findings" each have a corrected definition beside the as-written one:
- `RestProxy.Call` for the constructor;
- `RestProxy.JoinedChild`, which `RestProxyFacts.WalkJoined` uses, for the uncalled access.

The properties of the corrected behaviour are proved about those definitions.

## Model

| member | source | states |
|---|---|---|
| RestProxy.MethodFor | lib/restproxy.js:45 | a missing (`undefined`/`null`) alias table throws a TypeError; a truthy entry of the table for the name is the result; any result other than the name itself is the table's entry for it |
| RestProxy.MethodOf | lib/restproxy.js:46 | a value is one of the four verbs exactly when it is the string of that verb; every other value matches none |
| RestProxy.Resolve | lib/restproxy.js:37-48 | bypassed keys (members of the target, symbols, the three inspection names) pass through; a segment is always the accessed name; the only failure is a TypeError |
| RestProxyFacts.DefaultAliases | lib/restproxy.js:7-16 | the built-in table sends each of the eight aliases to its verb and leaves every other name as it is |
| RestProxyFacts.DefaultResolution | lib/restproxy.js:7-20 | with the built-in table, an access that does not pass through dispatches a verb if and only if the name is one of the four verbs or eight aliases, and gives a segment otherwise |
| RestProxyFacts.AliasActsAsVerb | lib/restproxy.js:45-47 | an alias and its verb produce the same dispatcher |
| RestProxyFacts.VerbNeverSegment | lib/restproxy.js:45-54 | whatever the alias table, an access that does not pass through is a verb exactly when the looked-up alias is a verb name, and a segment exactly when it is not |
| RestProxyFacts.PassthroughBeforeAliases | lib/restproxy.js:38-43 | a bypassed key is returned from the target before the alias table is consulted |
| RestProxyFacts.MissingAliasTableThrows | lib/restproxy.js:45 | with `methodAliases` undefined every access that does not pass through throws a TypeError |
| RestProxyFacts.PathMemberOnlyOnNodes | lib/restproxy.js:38-54 | `path` is an own member of every node, so it passes through there; on the root it is an ordinary segment |
| RestProxy.Access | lib/restproxy.js:37-54 | what `proxy[key]` evaluates to follows the resolution: a pass-through gives the target's property, a verb gives a dispatcher bound to the same target, a segment gives a fresh node whose parent is the target and whose path is the accessed name, and the access throws exactly when the resolution throws |
| RestProxy.Child | lib/restproxy.js:50-52 | the node of an uncalled access is bound to the parent, carries the accessed name as its whole path, and shares the parent's options |
| RestProxyFacts.UncalledAccess | lib/restproxy.js:50-54 | an uncalled access is a node whose path is the accessed name alone and whose options are the parent's |
| RestProxy.Element | lib/restproxy.js:58-69 | an element carries the parent's options, and its path ends in the name followed by one segment per argument |
| RestProxy.Apply | lib/restproxy.js:50-59 | only the accessor function is callable; the call yields an element under the accessor's parent |
| RestProxyFacts.CalledAccess | lib/restproxy.js:50-66 | calling a segment node gives the parent's path (when it is non-empty), then the name, then each argument's string, position by position |
| RestProxyFacts.NumberArgumentIsItsString | lib/restproxy.js:61 | a number argument and its decimal string give the same element |
| RestProxyFacts.DecimalIsUrlSegment | lib/restproxy.js:61 | the string of an integer is a URL segment, so number arguments never disturb the URL |
| Js.DecimalRoundTrip | lib/restproxy.js:61 | reading back the decimal string of an integer gives that integer, so distinct numbers give distinct segments |
| Paths.RenderAppend | lib/restproxy.js:63-64 | joining two non-empty paths is concatenating their segment sequences |
| Paths.SplitRender | lib/restproxy.js:63-64 | a rendered path of slash-free segments splits back into those segments |
| RestProxyFacts.WalkPath | lib/restproxy.js:50-66 | after any chain of accesses from the root, the node's path is the contributions from the last uncalled access onwards, and its options are the root's |
| RestProxyFacts.CalledChainPath | lib/restproxy.js:58-66 | when every step after the first is a call, the path holds every step's name and arguments in order |
| RestProxy.Action | lib/restproxy.js:71-87 | an action on the root throws a TypeError; otherwise the request uses the chosen verb, a function first argument becomes the callback with no data, and the request is ended exactly when the callback is truthy |
| RestProxyFacts.ActionArguments | lib/restproxy.js:71-87 | the calling conventions `(cb)`, `(data, cb)`, `(data)` and `()` each give the stated request and completion |
| RestProxyFacts.ActionOnRootThrows | lib/restproxy.js:79-80 | a verb on the root proxy has no path to resolve and throws |
| RestProxyFacts.RequestUrlUnderBase | lib/restproxy.js:79-80 | for a site or directory base and a path of URL segments, the request URL is the base, a `/` and the joined path |
| Uri.ResolveUnderDirectory | lib/restproxy.js:80 | resolving a relative path of URL segments against a directory URL appends the path to it |
| Uri.ParseRecompose | lib/restproxy.js:80 | recomposing the parse of any string gives the string back |
| Uri.RemoveDotSegmentsPlain | lib/restproxy.js:80 | dot-segment removal leaves an absolute path without dot segments unchanged |
| RestProxyFacts.ChainRequest | lib/restproxy.js:22-87 | any chain from a freshly built proxy, followed by a verb with no arguments, returns the request for base, `/`, and the segments contributed from the last uncalled access on |
| RestProxyFacts.UsersPostsExample | lib/restproxy.js:22-87 | `users(42).posts().get()` on base `http://api.test` returns a GET request for `http://api.test/users/42/posts` |
| RestProxy.Construct | lib/restproxy.js:25-33 | construction succeeds exactly for a string base, the root carries that base, and any other base throws the "Must define restproxy base API URL" error |
| RestProxy.MergeOptions | lib/restproxy.js:25-27 | the options hold the defaults, then the caller's own properties, then `base`, each key taking the last writer's value |
| RestProxyFacts.ConstructKeepsDefaultAliases | lib/restproxy.js:18-26 | without a caller table the root carries the built-in aliases |
| RestProxyFacts.CallerAliasTableReplacesDefaults | lib/restproxy.js:25-45 | for every caller table, the root carries exactly that table; `fetch` is an ordinary segment whenever the table has no truthy `fetch` entry, and a caller's `undefined` or `null` table makes the access throw |
| RestProxyFacts.NonStringBaseThrows | lib/restproxy.js:29-31 | a base that is not a string is refused with the constructor's error |
| RestProxy.CallAsWritten | lib/restproxy.js:22-23 | called without `new`, construction sees `opts` as its base |
| RestProxyFacts.PlainCallDropsBase | lib/restproxy.js:23 | as written, a call without `new` on a valid base throws, while `new` on the same base succeeds |
| RestProxy.Call | lib/restproxy.js:22-34 | corrected, both call forms succeed exactly for a string base, and the root carries that base |
| RestProxyFacts.CallMatchesNew | lib/restproxy.js:22-34 | corrected, a call with and without `new` constructs the same proxy for every argument pair |
| RestProxyFacts.UncalledAccessDropsPath | lib/restproxy.js:50-54 | as written, `users(42).posts.get()` on base `http://api.test` has path `posts` alone and returns a GET request for `http://api.test/posts` |
| RestProxyFacts.JoinedWalkPath | lib/restproxy.js:50-66 | corrected, after any chain of accesses from the root the node's path holds every step's name and arguments in order, and its options are the root's |
| RestProxyFacts.JoinedAccessKeepsPath | lib/restproxy.js:50-54 | corrected, the same chain `users(42).posts` has the path `users/42/posts` |

## Left out

- The HTTP client (`superagent`, line 82) is not modelled. An action yields a `Request` value (verb, URL, data), and ending it with a callback is recorded rather than performed. Asynchrony and responses are out of scope.
- `url.resolve` is Node's legacy resolver. It is modelled by the strict algorithm of section 5.2 of RFC 3986, without the legacy parser's case folding, percent-escaping, backslash handling and host normalisation. The URL properties are stated for bases whose scheme, authority and directory segments are plain (`Uri.SchemeName`, `Uri.AuthorityText`, `Uri.UrlSegment`).
- `path.join` normalisation (empty segments, `.`, `..`, segments containing `/`) is not modelled. Segments are joined by plain concatenation, and the path properties are stated for plain segments. An argument whose string is empty or contains `/` is carried as one segment.
- `String()` of a non-integer number, of exponent notation and of arrays is not modelled. Numbers are integers, and an object gives `[object Object]`.
- The prototype chain is not modelled. Which names `in` finds on `Object.prototype` and `Function.prototype` is left abstract (`Realm`). The alias lookup reads own properties of the table only, and a primitive alias table (a string or number) is treated as having no entries.
- Option merging copies own properties of object `opts` only. A string `opts`, which `Object.assign` would spread into index keys, contributes nothing.
- The identity of the shared options object is not modelled: nodes carry the same options value, and nothing in the core mutates it.
- Proxy mechanics are not modelled: the `Proxy` wrapper itself and traps other than `get`.
- `Element`'s `this` check (line 59) is not modelled as a step of its own. Line 50 calls `Element` without `new`, so the check always fires and re-invokes it with `new` and the same arguments; `RestProxy.Apply` goes straight to that second invocation.
- Request headers are not modelled, because `lib/restproxy.js` sets none.
- An empty base is accepted, because the code checks only `typeof base`.
- RestProxyFacts.UsersPostsExample: it is stated for realms where `users`, `posts` and `get` are not inherited members, since those names would otherwise pass through.

## Findings

| source | as written | input that shows it | evidently intended | confidence | as-written member | corrected member |
|---|---|---|---|---|---|---|
| lib/restproxy.js:51 | the node of an uncalled access gets `path = name`, dropping the parent's path, while calling a node joins under the parent's path (line 64) | `proxy.users(42).posts.get()` on base `http://api.test` requests `http://api.test/posts` instead of `http://api.test/users/42/posts` | the uncalled node's path joins the parent's path and the name, as `Element` does | medium, not executed | RestProxyFacts.UncalledAccessDropsPath | RestProxyFacts.JoinedWalkPath |
| lib/restproxy.js:23 | without `new`, the constructor re-invokes itself as `new RestProxy(opts)`, so `opts` becomes the base and the real base is lost | `RestProxy("http://api.test")` throws "Must define restproxy base API URL", while `new RestProxy("http://api.test")` succeeds | `new RestProxy(base, opts)`: both call forms construct the same proxy | medium, not executed | RestProxyFacts.PlainCallDropsBase | RestProxyFacts.CallMatchesNew |
