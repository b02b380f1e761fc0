# API URL helpers of the DeepTutor web client

This project models the URL helpers of the web client in `web/lib/api.ts` in Dafny, and proves properties of that model:

- `getApiBaseUrl` picks the API base URL. It raises an error when the public base URL is not configured. During server-side rendering it rewrites a trailing `:<port>` to the backend's internal port `:8001`. In the browser it uses the public base as it is.
- `apiUrl` joins a base and a path. The path is given one leading `/` if it has none, and at most one trailing `/` is dropped from the base.
- `wsUrl` makes the same join after it maps the scheme: `http:` becomes `ws:` and `https:` becomes `wss:`.

All three are pure string functions, so the model is a set of Dafny functions and lemmas (files `wrappers.dfy`, `text.dfy`, `api.dfy`).

Inputs that the original reads from its environment are parameters here:

- `publicBase: Option<string>` is the value of `NEXT_PUBLIC_API_BASE`. It is `None` when the variable is not set.
- `isServer: bool` stands for `typeof window === "undefined"`.

The thrown `Error` becomes `Failure(BaseNotConfigured)`. JavaScript's `!publicBase` is true for an unset variable and for the empty string, and the model treats both as the error.

The pattern `/:\d+$/` has no flags. It is modelled as the search a non-global regular expression performs:

- `FindPortSuffix` tries match positions from left to right.
- `MatchPortAt` makes one match attempt: a literal `:`, then the greedy digit run `DigitRun`, then the end anchor.
- `PortSuffixAt` is the declarative meaning of a match at index `i`.
- `PortSuffixUnique` proves there is at most one such index: the last `:` of the string.
- `ReplacePort` replaces exactly that match.

The comments at `web/lib/api.ts:45` and `:67` say the leading slash is removed. The code does the opposite: it makes sure a leading slash is present. The model follows the code.

A consequence of the anchored pattern, stated by `ExampleServerBaseTrailingSlash`: a server-side base such as `http://localhost:8681/` has a `/` after its port. The pattern does not match it, so it keeps its public port.

## Model

| member | source | states |
|---|---|---|
| `Api.DigitRun` | web/lib/api.ts:31 | the greedy `\d+` of the pattern: the count covers only digits, stays within the string, and stops at a non-digit or at the end |
| `Api.MatchPortAt` | web/lib/api.ts:31 | one match attempt of `/:\d+$/` at index `i` succeeds exactly when `s[i]` is `:` and one or more digits follow it up to the end of the string |
| `Api.FindPortSuffix` | web/lib/api.ts:31 | the left-to-right search finds the first index at or after `from` where the pattern matches; when it finds none, the pattern matches nowhere at or after `from` |
| `Api.PortSuffixUnique` | web/lib/api.ts:31 | the pattern matches at one index at most: the last `:` of the string, when only digits follow it |
| `Api.ReplacePort` | web/lib/api.ts:31 | if the string ends in `:` plus one or more digits, the result is everything before that `:` followed by `:8001`; otherwise the string is unchanged |
| `Api.InternalPortSuffixMatches` | web/lib/api.ts:31 | any string that ends in the replacement `:8001` is matched by the pattern at that `:` |
| `Api.ReplacePortIdempotent` | web/lib/api.ts:31 | rewriting the port of an already rewritten base changes nothing |
| `Api.EndsWithInternalPortMatches` | web/lib/api.ts:31 | a string ending in `:8001` has the pattern's match at its last five characters |
| `Api.ReplacePortEndsWithInternalPort` | web/lib/api.ts:31 | the rewritten base ends in `:8001` if and only if the pattern matched the original |
| `Api.GetApiBaseUrl` | web/lib/api.ts:9-35 | fails with the configuration error exactly when the public base is unset or empty; a successful base is never empty; in the browser it equals the public base; on the server a trailing `:<digits>` becomes `:8001` with everything before it kept, and a base without one is unchanged |
| `Api.ServerBaseIsStable` | web/lib/api.ts:29-32 | the server-side base is a fixed point of the port rewrite |
| `Api.NormalizePath` | web/lib/api.ts:46 | the normalised path starts with `/` and ends with the original path; it is at most one character longer; a path that already starts with `/` is unchanged |
| `Api.NormalizePathPrepends` | web/lib/api.ts:46 | a path without a leading `/` gets exactly one `/` prepended |
| `Api.NormalizePathIdempotent` | web/lib/api.ts:46 | normalising twice equals normalising once |
| `Api.TrimTrailingSlash` | web/lib/api.ts:49-51 | the result is a prefix of the base, at most one character shorter; it equals the base if and only if the base does not end with `/` |
| `Api.TrimTrailingSlashKeepsPrefix` | web/lib/api.ts:49-51 | dropping the trailing `/` keeps every prefix of the base that does not itself end with `/`, such as the scheme |
| `Api.NormalizePathDoubleSlash` | web/lib/api.ts:46 | the normalised path starts with `//` if and only if the original path does |
| `Api.ApiUrl` | web/lib/api.ts:44-54 | the URL starts with the trimmed base and ends with the normalised path (and so with the path itself); its length is the sum of the two lengths |
| `Api.ApiUrlShape` | web/lib/api.ts:46-53 | a base ending in `/` contributes everything but its last `/`, any other base contributes itself; a path with a leading `/` ends the URL as it is, any other path ends it with one `/` before it |
| `Api.ApiUrlNormalizedPath` | web/lib/api.ts:44-54 | normalising the path before calling `apiUrl` makes no difference |
| `Api.ApiUrlTrailingSlashIgnored` | web/lib/api.ts:49-53 | adding one `/` to a base without a trailing `/` does not change the URL |
| `Api.ApiUrlSingleSlashAtJoin` | web/lib/api.ts:45-53 | the character where base and path are joined is `/`; unless the base ends in `//`, the character before it is not `/`; unless the path starts with `//`, the character after it is not `/` either, so the join has exactly one `/` |
| `Api.ExampleDoubleSlashPath` | web/lib/api.ts:45-53 | a path starting with `//` is kept as it is: base `http://h` and path `//x` give `http://h//x` |
| `Api.WebSocketBase` | web/lib/api.ts:65 | a base starting with `http:` gets `ws:` in place of it, a base starting with `https:` gets `wss:`, any other base is unchanged; the rest of the string is kept in every case |
| `Api.WebSocketBaseIdempotent` | web/lib/api.ts:65 | mapping an already mapped base changes nothing |
| `Api.TrimmedWebSocketBaseScheme` | web/lib/api.ts:65-71 | dropping the trailing `/` of the mapped base keeps its `ws:` or `wss:` scheme |
| `Api.WsUrl` | web/lib/api.ts:62-74 | the WebSocket URL is the `apiUrl` join applied to the scheme-mapped base, so it ends with the normalised path; an `https:` base gives a `wss:` URL and an `http:` base a `ws:` URL |
| `Api.ExampleServerBase` | web/lib/api.ts:27-34 | `http://localhost:8681` becomes `http://localhost:8001` on the server and stays as it is in the browser |
| `Api.ExampleServerBaseTrailingSlash` | web/lib/api.ts:29-31 | on the server, `http://localhost:8681/` keeps its port because the pattern is anchored at the end |
| `Api.ExampleApiUrl` | web/lib/api.ts:39-54 | the documented example: base `http://localhost:8000` and path `/api/v1/knowledge/list` give `http://localhost:8000/api/v1/knowledge/list` |
| `Api.ExampleWsUrl` | web/lib/api.ts:56-74 | the documented example with backend port 8001: base `http://localhost:8001` and path `/api/v1/solve` give `ws://localhost:8001/api/v1/solve` |
| `Api.ExampleSecureWsUrl` | web/lib/api.ts:62-74 | `https://example.org/` with path `ws` gives `wss://example.org/ws` |

## Left out

- `scripts/proxy_8681.py` is not part of this model. It is a TCP relay made of socket I/O and one thread per copy direction, and has no sequential logic to model.
- The `console.error` diagnostics in `getApiBaseUrl` (`web/lib/api.ts:13-21`) are logging side effects. Only the raised error is modelled.
- Reading `process.env.NEXT_PUBLIC_API_BASE` and testing `typeof window` are parameters (`publicBase`, `isServer`), not environment access.
- The module-level evaluation of `API_BASE_URL` (`web/lib/api.ts:37`) is not modelled. `ApiUrl` and `WsUrl` take the base as a parameter. In the original a failed `getApiBaseUrl` throws while the module loads, so `apiUrl` and `wsUrl` never run with a missing base.
- General regular-expression semantics are not modelled. Only the three fixed patterns are: `/:\d+$/` is a hand-written search, and `/^http:/` and `/^https:/` are prefix tests.
- JavaScript strings are sequences of UTF-16 code units, while Dafny's `string` is a sequence of Unicode characters. The helpers only inspect ASCII characters (`/`, `:`, digits, scheme letters), so this difference is not modelled.
- The comments at `web/lib/api.ts:45` and `:67` say the join avoids double slashes. That does not hold for a path that already starts with `//`, which is kept as it is (`ExampleDoubleSlashPath`). `ApiUrlSingleSlashAtJoin` promises a single `/` only when the base does not end in `//` and the path does not start with `//`.
