# Request dispatcher of the IoT TCP server, in Dafny

The server (`TCPServer` in `server.py`) accepts TCP connections and answers each
received request string with one response string. This project models that answer:
`Server.ProcessRequest(cfg, request)` is the whole of `process_request` and its three
handlers, as a total function from the configuration and one request to one response.

- The request is classified by case-sensitive prefix, checked in a fixed order:
  `GET RANGES`, then `REGISTER`, then `PUT`; anything else gets `Unknown Command`.
- `GET RANGES` answers with the JSON line `{"stride": <stride>, "LEDs_qty": <leds_qty>}`.
  With the values the server is created with (stride 6, three LEDs) that line is
  `{"stride": 6, "LEDs_qty": 3}`.
- Every `REGISTER…` request gets `ACK REGISTER`; the rest of the line is never read.
- `PUT` takes the last whitespace-separated token of the whole request. It parses that
  token as a base-10 integer and echoes it back as `State updated to: <n>`, printed from
  the parsed value. If parsing fails, the reply is `Invalid state`.

Files and modules:

- `decimal.dfy` (module `Decimal`): integer literals. It holds the accepted-literal
  predicate, the parser (`int(token)`), the printer (`str(n)`), and a canonical spelling
  defined on text alone.
- `tokens.dfy` (module `Tokens`): `str.split()` with no separator, over Python's own
  whitespace set, and its laws.
- `server.dfy` (module `Server`): the configuration, the three handlers, `ProcessRequest`
  and the protocol properties.
- `examples.dfy` (module `ServerExamples`): replies to concrete requests, derived from the
  general lemmas.

Modelling decisions:

- `stride` and `leds_qty` are written once, when the server is created, and only read
  afterwards. They are therefore an immutable `Config` value passed to `ProcessRequest`.
  The function returns only a string, so a request cannot change them. A reply depends
  on the current request and the configuration alone, never on earlier requests.
- `handle_put` reads `request.split()[-1]`. On an empty split that would raise an
  `IndexError`, which its `except ValueError` does not catch. `HandlePut` therefore
  requires a non-empty split. `ProcessRequest` proves this holds for every request that
  starts with `PUT`, so no failure escapes the dispatcher.
- `server.py` keeps no registry of connections, answers every `REGISTER…` request
  identically whatever role follows, and answers `GET RANGES` with JSON. The model has
  exactly these behaviours and nothing more.

## Model

| member | source | states |
|---|---|---|
| Server.Defaults | server.py:13-14 | the configuration the server is created with: stride 6 and three LEDs (a constant, with no contract of its own; `GetRangesReply` and `GetRangesExample` state what it yields) |
| Server.StartsWith | server.py:92-96 | `str.startswith`, case-sensitive: the prefix is no longer than the request and equals its first characters (a predicate with no contract of its own; `UnknownReply`, `RegisterReply` and `PutReply` state the dispatch it drives) |
| Server.ProcessRequest | server.py:88-99 | every request, whatever it holds, gets exactly one response, ending in one newline and containing no other |
| Server.HandleGetRanges | server.py:101-105 | the ranges reply is a single newline-terminated line |
| Server.HandleRegister | server.py:107-111 | the register acknowledgement is a single newline-terminated line |
| Server.HandlePut | server.py:113-121 | given a request with at least one token, the PUT reply (echo or `Invalid state`) is a single newline-terminated line |
| Server.GetRangesReply | server.py:92-93 | a request starting with `GET RANGES` gets the ranges line whatever follows the prefix; with stride 6 and 3 LEDs it is exactly `{"stride": 6, "LEDs_qty": 3}` |
| Server.GetRangesDecodes | server.py:105 | two configurations give the same ranges line if and only if they are equal: the line carries both integers unambiguously |
| Server.NumberPrefix | server.py:105 | a printed integer followed by a non-number character is read back off the front of the text uniquely |
| Server.RegisterReply | server.py:94-95 | any request starting with `REGISTER` gets exactly `ACK REGISTER`, whatever the role |
| Server.UnknownReply | server.py:92-99 | the reply is `Unknown Command` if and only if the request starts with none of `GET RANGES`, `REGISTER`, `PUT` |
| Server.PutReply | server.py:96-97 | a `PUT` request has a non-empty split. Its reply is the canonical spelling of its last token when that token is an integer literal, and `Invalid state` otherwise |
| Server.PutLastToken | server.py:118 | after the `PUT` prefix, only the final token counts: text before it and whitespace after it are ignored |
| Server.PutRoundTrip | server.py:117-119 | for every integer n and any trailing whitespace, `PUT <n>` is answered with `State updated to: <n>` |
| Server.NumberIsWord | server.py:119 | a printed integer is one whitespace-free token |
| Server.NumberHasNoNewline | server.py:119 | a printed integer contains no newline |
| Decimal.NatToString | server.py:119 | printing a natural gives a canonical digit run whose value is that natural |
| Decimal.IntToString | server.py:119 | printing an integer gives a canonical literal that the parser reads back as that integer |
| Decimal.ParseInt | server.py:118 | the parser succeeds exactly on literals of the form optional sign then one or more ASCII digits |
| Decimal.StripZeros | server.py:118-119 | dropping leading zeros keeps the value and yields a canonical digit run |
| Decimal.Canonical | server.py:118-119 | the text-level normal form of an accepted literal is a canonical literal |
| Decimal.CanonicalDigitsRoundTrip | server.py:119 | a canonical digit run is exactly what the printer produces for its value |
| Decimal.ParsePrintIsCanonical | server.py:118-119 | printing the parsed value of a literal gives its canonical spelling: sign `+` and leading zeros dropped, `-0` becomes `0` |
| Decimal.CanonicalRoundTrip | server.py:118-119 | canonical literals are fixed points of parse-then-print, so parsing and printing are inverse on them |
| Decimal.SameValueIffSameCanonical | server.py:118-119 | two literals parse to the same integer if and only if their canonical spellings agree |
| Decimal.LeadingZero | server.py:118 | a leading zero does not change the value of a digit run |
| Decimal.FirstDigitPositive | server.py:118 | a digit run that starts with a non-zero digit has a positive value |
| Tokens.IsSpace | server.py:118 | the whitespace set of `str.split()` with no separator, the characters for which `str.isspace()` holds (a predicate with no contract of its own) |
| Tokens.Split | server.py:118 | `request.split()`. It has no `ensures` of its own; its laws are `SplitWords`, `SplitAppend`, `SplitJoin` and `LastToken` |
| Tokens.WordLengthStops | server.py:118 | a token scan stops exactly at the first whitespace character or at the end |
| Tokens.SplitWords | server.py:118 | every piece of a split is non-empty and whitespace-free, and the split is empty if and only if the text is all whitespace |
| Tokens.SplitAppend | server.py:118 | at a whitespace boundary, splitting a concatenation concatenates the splits |
| Tokens.SplitWord | server.py:118 | a single token splits into itself |
| Tokens.SplitJoin | server.py:118 | splitting tokens joined by single spaces gives back the tokens |
| Tokens.LastToken | server.py:118 | a token that follows whitespace and is followed only by whitespace is the last piece of the split |
| ServerExamples.GetRangesExample | server.py:13-14 | with the creation-time values, `GET RANGES` gets `{"stride": 6, "LEDs_qty": 3}` |
| ServerExamples.RegisterExamples | server.py:94-95 | `REGISTER`, `REGISTER SENSOR` and `REGISTER ACTUATOR` all get `ACK REGISTER` |
| ServerExamples.UnknownExamples | server.py:98-99 | `put 3`, ` PUT 3` and `FOO` get `Unknown Command` |
| ServerExamples.PutLastTokenExample | server.py:118-119 | `PUT 1 2` sets the state to 2 |
| ServerExamples.PutLeadingZerosExample | server.py:118-119 | `PUT 007` is answered with `State updated to: 7` |
| ServerExamples.PutPlusSignExample | server.py:118-119 | `PUT +5` followed by carriage return and newline is answered with `State updated to: 5` |
| ServerExamples.PutMinusZeroExample | server.py:118-119 | `PUT -0` is answered with `State updated to: 0` |
| ServerExamples.PutNotANumberExample | server.py:120-121 | `PUT abc` is answered with `Invalid state` |
| ServerExamples.PutBareExample | server.py:117-121 | a bare `PUT` is its own last token and is answered with `Invalid state` |

## Left out

- Socket I/O is left out: creating, binding, listening, accepting, `recv`, `send` and
  closing (server.py:17-46, 76-86, 123-128). Requests and responses are already-decoded
  strings. The UTF-8 decoding and encoding at server.py:80 and :86 is also left out.
- The thread per connection (server.py:48-53) is left out: concurrency is not modelled.
- The accept loop (server.py:33-38) and the per-connection loop (server.py:61-74) are
  left out. They only move strings between the socket and `process_request`. The
  `print` logging is left out as well.
- Chunking by `recv(1024)` is left out: one chunk may hold several lines or half a line.
  Each request string is taken as received.
- `client.py` is not part of this model. It is a fixed script of socket calls and
  sleeps with no logic of its own.
- Decimal.ParseInt: accepts only an optional `+`/`-` followed by ASCII digits. Python's
  `int()` also accepts underscores between digits (`1_000`) and non-ASCII Unicode
  digits; those tokens are answered with `Invalid state` here. In the other direction,
  CPython (3.11 and later, and the 3.7.14, 3.8.14, 3.9.14 and 3.10.7 security releases)
  makes `int()` raise `ValueError` on a decimal string of more than 4300 digits, which
  `handle_put` answers with `Invalid state` (server.py:120-121); the model has no digit
  limit and answers `State updated to: <n>` for such a token. The server's own socket path
  cannot reach this, since `recv(1024)` (server.py:80) caps a request at 1024 characters,
  but a direct call to `process_request` can.
- Server.PutRoundTrip: holds for every integer n, with no digit limit; under CPython's
  4300-digit `int()` limit described above, `PUT <n>` with a longer `str(n)` is answered
  with `Invalid state` instead.
- Only the fixed two-field shape of `json.dumps` output with its default separators is
  modelled, not JSON serialisation in general.
