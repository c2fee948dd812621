# jscript-excel-mcp-server, modelled in Dafny

`server.js` is a Model Context Protocol server written in JScript for the Windows Script Host. It
reads JSON-RPC 2.0 requests one per line from standard input and writes one response line per request
to standard output. It exposes fourteen tools that drive Excel through COM automation. The COM
objects it hands out are kept in a global handle pool and named by freshly drawn UUID strings. The
script brings its own `JSON` object: `parse` evaluates the line, and `stringify` is a small recursive
serialiser.

The model has eight modules, one file each:

- `wrappers.dfy` (`Wrappers`): `Option` and `Result`.
- `js_values.dfy` (`JsValues`): the script values the server handles. Numbers are integers. Objects
  are sequences of own properties in enumeration order. Property reads and assignments follow the
  script's rules, and so does the conversion of a handle argument to a pool key.
- `stringify.dfy` (`Serialiser`): `escMap`, `escFunc`, `escRE` and `stringify`.
  - The function `Stringify` is the specification.
  - The methods `StringifyValue`, `StringifyArray` and `StringifyObject` are the source's loops,
    proved equal to it.
- `json_reader.dfy` (`JsonReader`): a reference JSON reader. It serves only to state what the
  serialiser's output means.
- `round_trip.dfy` (`RoundTrip`): the reader reads back every serialised value. Undefined comes back
  as null, and a host value comes back as its string. For values JSON can express, the round trip is
  exact.
- `uuid.dfy` (`Uuid`): `generateUUID`, with the template and the callback kept and the nibbles as an
  input. Every identifier is 36 characters long, with dashes at 8/13/18/23, `4` at 14, a variant
  digit `8`–`b` at 19, and lowercase hex elsewhere. Two identifiers are equal exactly when their
  nibbles agree on the bits the template keeps.
- `handle_pool.dfy` (`HandlePool`): the identifier generator (`IdSource`) and the pool (`Pool`) as
  classes.
  - `Add` is `addToPool`: it draws until the identifier is free and stores the object under it.
  - The ghost field `issued` records every identifier handed out. The class invariant says they are
    pairwise distinct and exactly the keys of the pool.
- `tools.dfy` (`Tools`): the `TOOLS` and `HANDLERS` tables.
  - `HandlerOf` gives each tool's handler body as data: which `args` properties it reads, which
    pooled object it dereferences, what it does with it, and whether it pools the result.
  - The Excel automation itself is the parameter `Host`.
- `dispatcher.dfy` (`Dispatcher`): `respond` and `main`.
  - The function `Route` is the decision each request line comes to, with the null-request defect
    of the script corrected (see "## Findings"). `RouteAsWritten` is the decision as the script
    makes it, and `RouteAgrees` relates the two.
  - `Response` and `Effect` are the response a line gets and the object it pools.
  - The class `Server` holds the output lines and the pool. Its method `Serve` is the request loop
    as it is evidently intended: it runs the corrected `Route` and the corrected tool lookup `Call`.
    As written, a line decoding to `null` or `undefined` ends the script, so later lines get no
    answer, and the tool names `toString` and `toLocaleString` succeed; `RouteAsWritten` and
    `Tools.CallAsWritten` capture those behaviours.
  - `Respond` assigns `jsonrpc` and `id` into the body and writes the serialised line.

A decoded request line is an input (`Decoded`): what `JSON.parse(line)` comes to, a value or the
exception it threw. The host, meaning the Excel COM objects, `WScript.CreateObject` and the engine's
own TypeErrors, is a parameter (`Host`). So is the entropy behind every identifier
(`IdSource.entropy`).

## Model

| member | source | states |
|---|---|---|
| JsValues.SetProperty | server.js:354-359 | The assigned key reads back as the new value and every other key is unchanged. A new key is appended last. An existing key keeps its place, so the length is unchanged. |
| JsValues.Get | server.js:603 | A property read fails (throws) exactly on undefined and null. |
| JsValues.Decimal | server.js:269 | `value.toString()` of an integer: a `-` before the digits of a negative number. The digit text is stated by `NatDecimal`, and `RoundTrip.ReadNumberDecimal` reads it back. |
| JsValues.Lookup | server.js:603 | A property read on an object's own properties, such as `request.method`. `LookupFirst` states it. |
| JsValues.LookupFirst | server.js:603 | A read finds the first own property of that name, and gives undefined when there is none. |
| JsValues.Inherited | server.js:73 | The seven methods every object inherits from `Object.prototype` in the script engine, which `pool[id]` and `HANDLERS[name]` reach when no own property has that name. `FindAsWritten` and `CallAsWritten` use them. |
| JsValues.ToPropertyKey | server.js:73 | The string `pool[id]` converts its key to: a string stays itself, other values become their `String(...)` text. Every pool lookup goes through it. |
| JsValues.NatDecimal | server.js:269 | An integer's decimal text is non-empty and all digits. It starts with `0` only for zero. |
| Serialiser.Stringify | server.js:265-291 | The recursive `stringify` as a function: null and undefined give `null`, numbers and booleans their text, arrays and plain objects their bracketed items, anything else its quoted, escaped string. Its meaning is stated by `RoundTrip.ReadStringify` (read back, it gives the value) and `StringifyClean` (one line). |
| Serialiser.EscMap | server.js:250-258 | The seven two-character escapes of `escMap`. `RoundTrip.ReadEscFunc` states that each reads back as its character. |
| Serialiser.EscFunc | server.js:259-263 | `escMap[m]`, or else `\u` and four hex digits. `EscFuncClean` and `RoundTrip.ReadEscFunc` state what it yields. |
| Serialiser.Escape | server.js:290 | `replace(escRE, escFunc)`: each character `escRE` matches is replaced by its `escFunc` text. `EscapeClean` and `RoundTrip.ReadStringEscape` state its properties. |
| Serialiser.Quote | server.js:290 | The escaped string in double quotes. `RoundTrip.ReadStringEscape` reads it back. |
| Serialiser.Join | server.js:287 | `Array.prototype.join(sep)`: the parts with `sep` between neighbours. `JoinSnoc` states how it grows. |
| Serialiser.Hex | server.js:261 | `toString(16)` is never empty. |
| Serialiser.StringifyValue | server.js:265-291 | The serialiser's loops compute exactly `Stringify`. |
| Serialiser.StringifyArray | server.js:275-279 | The `res` loop gives `[`, the elements joined with `", "`, then `]`. |
| Serialiser.StringifyObject | server.js:280-287 | The `tmp` loop gives `{`, the `key: value` items in order joined with `", "`, then `}`. |
| Serialiser.StringifyItemsSnoc | server.js:277-278 | One more element adds its serialisation at the end. |
| Serialiser.MemberTextsSnoc | server.js:282-285 | One more own property adds its `stringify(k) + ": " + stringify(v)` item at the end. |
| Serialiser.JoinSnoc | server.js:287 | Joining one more part adds the separator and that part, except after nothing. |
| Serialiser.EscFuncClean | server.js:259-263 | The replacement of every matched character holds no raw control character. |
| Serialiser.EscapeClean | server.js:264 | The escaped string holds no character U+0000–U+001F, U+2028 or U+2029. |
| Serialiser.StringifyClean | server.js:265-291 | No serialised value holds a raw control character or line separator, so every response fits on one line. |
| RoundTrip.HexFive | server.js:261 | `(code + 0x10000).toString(16)` for a code below 0x10000 is `1` followed by the code's four hex digits in lowercase, most significant first, so `substr(1)` leaves exactly those four. |
| RoundTrip.ReadUnicodeEscape | server.js:261 | `\u` plus `(code + 0x10000).toString(16).substr(1)` reads back as the character, for every character below the surrogate range. |
| RoundTrip.ReadEscFunc | server.js:259-263 | Every `escFunc` replacement is a backslash escape that reads back as the character it replaced. |
| RoundTrip.ReadStringEscape | server.js:290 | The escaped text, followed by the closing quote, reads back as the original string. |
| RoundTrip.ReadNumberDecimal | server.js:269 | An integer's text reads back as that integer. |
| RoundTrip.ReadValueStringify | server.js:265-291 | Every serialised value, followed by text that cannot extend a number, reads back as the normalised value, and the following text is left over. |
| RoundTrip.ReadItemsStringify | server.js:276-279 | The joined element texts read back as the normalised elements. |
| RoundTrip.ReadMembersStringify | server.js:281-287 | The joined member texts read back as the normalised members, keys and order kept. |
| RoundTrip.ReadStringify | server.js:265-291 | `Read(Stringify(v)) == Some(Normalize(v))` for every value. |
| RoundTrip.NormalizePlain | server.js:265-291 | Normalising changes no value that JSON can express. |
| RoundTrip.ReadStringifyPlain | server.js:265-291 | For values JSON can express, `Stringify` is exactly inverted by the reader. |
| Uuid.GenerateUuid | server.js:13-26 | The `replace` pass fills the template once, one nibble per placeholder (`Fill`), and yields an identifier of UUID shape. |
| Uuid.Template | server.js:14 | The template literal `xxxxxxxx-xxxx-4xxx-yxxx-xxxxxxxxxxxx`. `TemplateShape` and `TemplateCount` state its layout. |
| Uuid.VariantNibble | server.js:25 | `(r & 0x3) \| 0x8`, the nibble of the `y` digit. `VariantNibbleValue` states its value. |
| Uuid.Replacement | server.js:25 | The callback's digit: `r` for `x` and the variant nibble for `y`, in lowercase hex. `UnfillFill` reads it back. |
| Uuid.TemplateShape | server.js:14 | The template is 36 characters long, with dashes at 8/13/18/23, `4` at 14, its only `y` at 19, and placeholders everywhere else. |
| Uuid.TemplateCount | server.js:14 | The template has 31 placeholders. |
| Uuid.VariantNibbleValue | server.js:25 | `(r & 0x3) \| 0x8` is `8 + r % 4`. |
| Uuid.Fill | server.js:14-25 | The `replace` over the template: each `x` takes the next nibble's digit, the `y` takes the masked variant digit, and every other character stays. It keeps the template's length; `FillIsUuid`, `UnfillFill` and `SameUuid` state its meaning. |
| Uuid.FillIsUuid | server.js:14-25 | Every filled template has UUID shape. |
| Uuid.UnfillFill | server.js:14-25 | Reading the digits back from a filled template gives the nibbles, with the variant nibble masked to its two low bits. |
| Uuid.FillMasked | server.js:25 | Masking the variant nibble does not change the identifier. |
| Uuid.SameUuid | server.js:14-25 | Two draws give the same identifier exactly when their masked nibbles agree. |
| HandlePool.IdOf | server.js:7-28 | Every draw spells an identifier of UUID shape. |
| HandlePool.IdSource.Next | server.js:7-28 | One call returns the identifier of the current draw and advances the draw counter by one. |
| HandlePool.EnoughFresh | server.js:36-39 | The generator can serve `n` more additions to a pool with the given keys: from the given call on, however fewer than `n` further identifiers are taken, some later draw is outside the keys and those identifiers. Draws may repeat and may collide with the pool. |
| HandlePool.EnoughFreshLater | server.js:36-39 | A step that added at most one key, and all of whose draws are keys afterwards, leaves room for one addition fewer. |
| HandlePool.IdOfLast | server.js:14-25 | The last character of an identifier is the hex digit of the last nibble drawn. |
| HandlePool.CountingEnoughFresh | server.js:36-39 | `EnoughFresh` can be met: a generator that cycles through sixteen identifiers differing in their last digit serves any pool and budget that together come to at most sixteen. |
| HandlePool.Pool.EnoughFreshCanGrow | server.js:36-39 | A generator with room for at least one more addition leaves the retry loop a free identifier to find. |
| HandlePool.Pool.RecordedFresh | server.js:35-42 | One `addToPool`, or no pooling at all, uses up one addition of the budget: every identifier the step drew is now a key. |
| HandlePool.Pool.Valid | server.js:30-42 | The class invariant: the identifiers ever issued are pairwise distinct, are exactly the pool's keys, and are all UUID-shaped. |
| HandlePool.Pool.constructor | server.js:31 | The pool starts empty and valid. |
| HandlePool.Pool.DrawFree | server.js:36-39 | The retry loop returns the first drawn identifier the pool does not hold. Every draw before it in this call was taken. |
| HandlePool.Pool.Add | server.js:35-42 | The returned id was absent. The pool now maps it to the object and every other entry is unchanged. It is appended to the issued identifiers, so all identifiers ever returned are pairwise distinct and are exactly the pool's keys. |
| HandlePool.Find | server.js:73 | `pool[id]` restricted to the pool's own keys: the stored object, or nothing (`undefined`). `Pool.FindIssued` states it on a valid pool, and `Tools.Run` uses it. |
| HandlePool.FindAsWritten | server.js:73 | `pool[id]` as the script evaluates it: nothing exactly when the key is neither stored nor inherited from `Object.prototype`, and the stored object whenever the key is stored. |
| HandlePool.Pool.FindIssued | server.js:73 | On a valid pool, `pool[String(key)]` finds an object exactly when that key was issued, and then it is the stored one, under a UUID. |
| Tools.ToolList | server.js:378-526 | `TOOLS` is an array of fourteen entries. Entry `i` describes tool `i`: its `name` resolves in `HANDLERS` to that tool, and its `inputSchema` is an object schema whose `properties` and `required` list exactly the arguments the handler reads, in order. No two entries share a name. |
| Tools.EntryDescribes | server.js:378-526 | Every tool's `TOOLS` entry describes that tool in the sense above. |
| Tools.RegisteredTools | server.js:378-526 | There are fourteen tools, each listed once. |
| Tools.NameInjective | server.js:378-526 | Different tools have different names. |
| Tools.HandlerNamed | server.js:530-583 | A name the `HANDLERS` own properties resolve selects the tool of that name. |
| Tools.HandlerNamedName | server.js:530-583 | Every tool's name selects that tool in `HANDLERS`. |
| Tools.NamesCoincide | server.js:530-583 | `HANDLERS` has an own handler for a name exactly when `TOOLS` lists that name. |
| Tools.SchemaMatchesHandler | server.js:531-582 | Every handler reads exactly the argument properties its `TOOLS` input schema declares and requires, in the same order. |
| Tools.ArgValues | server.js:531-582 | Reading the argument properties throws exactly when `arguments` is undefined or null. Otherwise it yields one value per key, the object's own property. |
| Tools.HandlerOf | server.js:531-582 | Each `HANDLERS` entry with the helper it calls inlined: the handle argument it reads, the property read, assignment or method call it makes on the pooled object, and whether it pools the result. `SchemaMatchesHandler` ties the arguments to the schema. |
| Tools.Run | server.js:62-200 | A handler that does not throw mints a new object exactly when it is a pooling handler (`addToPool` of what it made), and otherwise returns a value. Undefined or null arguments throw a TypeError. |
| Tools.UnknownHandleThrows | server.js:71-74 | A handle argument the pool does not hold makes the handler throw a TypeError. |
| Tools.SuccessNeedsHandle | server.js:71-74 | A handle-taking handler that does not throw had a pooled handle. |
| Tools.RunAsWritten | server.js:71-74 | A handler as written, where `pool[id]` can reach an inherited method: reading an automation property of it gives `undefined` (pooled by a pooling handler), assigning succeeds with the value, and calling throws "not a function". |
| Tools.RunAsWrittenAgrees | server.js:71-74 | Unless the handle argument is an inherited member name the pool does not hold, the handlers as written do exactly what `Run` does. |
| Tools.InheritedHandleAsWritten | server.js:71-74 | On such a handle, `Run` throws the TypeError, while as written a read gives `undefined` (or pools it), an assignment returns the value assigned, and a call throws "not a function". |
| Tools.ConstructorHandleAsWritten | server.js:71-74 | With handle `"constructor"`, `excel_workbooks_get_count` as written answers `undefined` and `excel_application_get_workbooks` pools `undefined`; `Run` throws for both. |
| Tools.AssignReturnsValue | server.js:187-190 | A property assignment that succeeds returns the assigned argument. |
| Tools.Call | server.js:651-653 | A name that is not a registered handler throws "not a function". A call that does not throw mints exactly when the name is a registered pooling handler. |
| Tools.CallAsWritten | server.js:651 | `HANDLERS[name]` as written: a registered name runs its handler, `toString` and `toLocaleString` return `"[object Object]"`, another inherited member is not followed, and any other name throws "not a function". `CallAsWrittenAgrees` and `CallToStringAsWritten` state how it differs from `Call`. |
| Tools.CallAsWrittenAgrees | server.js:651-653 | For every name that is not an inherited `Object.prototype` member, the lookup as written agrees with `Call`. |
| Tools.CallToStringAsWritten | server.js:651 | As written, the name `toString` calls the inherited method and succeeds with `"[object Object]"`. The corrected `Call` throws. |
| Dispatcher.Envelope | server.js:353-359 | `respond` sets `jsonrpc` to "2.0" and `id` to the normalised id, and leaves every other property of the body as it was. |
| Dispatcher.ErrorMessage | server.js:670 | `(e instanceof Error && e.message) \|\| ""`: the message of an `Error`, and `""` for any other thrown value. `OutcomeBodyResult` uses it. |
| Dispatcher.ServerInfo | server.js:370-373 | `SERVER_INFO`: name `jscript-excel-mcp-server`, version `0.1.0`. |
| Dispatcher.InitializeResult | server.js:616-622 | The `initialize` result: protocol version `2024-11-05`, capabilities with an empty `tools` object, and `SERVER_INFO`. `FixedResults` states that it is answered whatever the pool and host. |
| Dispatcher.ErrorBody | server.js:604-609 | The body of every error reply, here and at server.js:593-598, 641-646 and 680-685: one `error` member holding the code and message. `DispatchShape` and `BodyShape` state its shape. |
| Dispatcher.SuccessBody | server.js:654-663 | The body of a tool call that returned: a `result` with one text item holding the serialised return value. `OutcomeBodyResult` states it. |
| Dispatcher.FailureBody | server.js:665-675 | The body of a tool call that threw: a `result` with one text item holding the error message, and `isError` true. `OutcomeBodyResult` states it. |
| Dispatcher.OutcomeBody | server.js:650-676 | The answer to a tool call by its outcome; a pooled object is answered with its new handle, the string `addToPool` returned. `OutcomeBodyResult` states it. |
| Dispatcher.TypeOf | server.js:603 | `typeof v`, with a host value taken to be an object, as the `method` and `params` checks read it. |
| Dispatcher.Route | server.js:588-686 | The decision one line comes to, with a null or undefined request answered -32600 rather than ending the script. Its properties are the lemmas `RouteId`, `ParseFailure`, `MethodNotString`, `UnknownMethod`, `FixedResults`, `BadParams`, `ToolCallRoutes` and `RouteAgrees`. |
| Dispatcher.Response | server.js:588-686 | The response object one line gets: the envelope `respond` builds around the routed or computed body. `ResponseEnvelope` and `ResponseOnWire` state its shape. |
| Dispatcher.Effect | server.js:650-653 | The object one line pools, if any: only a `tools/call` whose handler mints does. `FixedResults`, `BadParams`, `ParseFailure` and `UnknownTool` state where it is none. |
| Dispatcher.ParseMessage | server.js:596 | The parse-error message always starts with `PARSE_ERROR: `. |
| Dispatcher.ParamsName | server.js:636-640 | An accepted `params` is an object whose `name` is the returned string. |
| Dispatcher.ParamsNameExact | server.js:636-640 | `params` is accepted exactly when it is a non-null object with a string `name`. |
| Dispatcher.Dispatch | server.js:613-686 | Every reply carries the request's own `id`. |
| Dispatcher.DispatchShape | server.js:613-686 | Every immediate reply body holds exactly one `result` or `error` object. |
| Dispatcher.BodyShape | server.js:588-686 | Every response body holds exactly one member, `result` or `error`, whose value is an object. |
| Dispatcher.EnvelopeShape | server.js:353-359 | An envelope around such a body has `jsonrpc` "2.0", the normalised id, and exactly one of `result` and `error`. |
| Dispatcher.ToolCallRoutes | server.js:634-653 | A `tools/call` request whose `params` are accepted runs the tool `params.name` on `params.arguments`, answered under the request's id. |
| Dispatcher.RouteId | server.js:593 | The id answered is the request's, and undefined for a line that did not parse. |
| Dispatcher.ResponseEnvelope | server.js:353-359 | Every response has `jsonrpc` "2.0", the normalised request id, and exactly one of `result` and `error`. |
| Dispatcher.ParseFailure | server.js:589-599 | A line that does not parse gets error -32700 with id `""` and a `PARSE_ERROR: ` message, and pools nothing. |
| Dispatcher.MethodNotString | server.js:603-611 | A request whose `method` is not a string gets error -32600 with its id. |
| Dispatcher.UnknownMethod | server.js:679-685 | A string method other than `initialize`, `tools/list` and `tools/call` gets error -32601 with its id. |
| Dispatcher.FixedResults | server.js:614-632 | `initialize` and `tools/list` answer with their fixed results, whatever the pool and host. They pool nothing, and the list holds fourteen tools. |
| Dispatcher.BadParams | server.js:636-648 | A `tools/call` with bad `params` gets error -32602. The response depends on neither pool nor host, and nothing is pooled. |
| Dispatcher.OutcomeBodyResult | server.js:654-675 | A tool call's body has no `error` and has a `result` with one text item. That item holds the serialised return value, the serialised new handle when the handler's object was pooled, or the exception's message, with `isError` true exactly when the handler threw. |
| Dispatcher.OutcomeEnvelope | server.js:650-676 | The envelope of a tool call's answer keeps that shape. |
| Dispatcher.CallOutcome | server.js:650-676 | Every `tools/call` that reaches a handler is answered in band, never with a top-level `error`. |
| Dispatcher.UnknownTool | server.js:651-653 | An unknown tool name is answered with an `isError` result and pools nothing. |
| Dispatcher.RouteAsWritten | server.js:603 | The loop body as written, where a null or undefined request ends the script. |
| Dispatcher.NullRequest | server.js:603 | As written, a line decoding to `null` ends the script. Corrected, it gets error -32600. |
| Dispatcher.RouteAgrees | server.js:588-611 | Wherever the written loop goes on, it does what `Route` does. It stops exactly on null and undefined requests. |
| Dispatcher.ResponseOnWire | server.js:361-362 | The written line reads back as exactly the response object, so it is a well-formed JSON-RPC 2.0 response. |
| Dispatcher.Server.Respond | server.js:353-364 | Exactly one line is appended: the serialised envelope of the body. |
| Dispatcher.Server.Answer | server.js:650-676 | The server pools the object the handler made, under a fresh identifier, and pools nothing otherwise. It appends the one response line whose result names that identifier. |
| Dispatcher.Server.Perform | server.js:613-686 | The server carries out the routed action of the corrected `Route`, calling tools through the corrected `Call`. The pool changes only by the action's effect, and one response line is appended. |
| Dispatcher.Server.HandleLine | server.js:588-686 | One line of the corrected loop gets exactly the response `Response(d, …)`. The pool changes exactly by `Effect(d, …)`, and the pool invariant is kept. |
| Dispatcher.Step | server.js:586-687 | One pass of the corrected loop seen from outside: the line written is the serialised `Response` and is well formed; the pool is unchanged when the line pools nothing, and otherwise gains exactly the new object under a UUID it did not hold. |
| Dispatcher.Server.ServeLine | server.js:586-687 | One pass of the corrected loop appends exactly one line, and the pass is a `Step` from the old pool to the new one. The pool invariant is kept, and a generator with room for `n + 1` more identifiers has room for `n` afterwards. |
| Dispatcher.Server.Advance | server.js:586-687 | One more pass of the corrected loop extends the passes so far: exactly one line is appended, and the record of passes grows by that line's `Step`. |
| Dispatcher.Server.Serve | server.js:585-688 | The corrected loop writes exactly one line per input line, in order, after what was written before. Line `k` is a `Step` from the pool left by the lines before it; the pool at the end is the last of those states. It requires a generator with room for one new identifier per line; repeated and colliding draws are allowed. |

## Left out

- COM automation (`WScript.CreateObject` and every Excel property read, assignment and method call in server.js:62-200):
  - These are the parameter `Host`.
  - Each handler's own logic is modelled: which argument it reads, the pool lookup and its failure, and whether the result is pooled.
- `Host` is a family of pure functions chosen per line. The state of the Excel objects between calls is not modelled.
- `test()` is left out. It needs a live Excel instance.
- Standard input, standard output and `log` are left out.
  - The input is the sequence of decoded lines, and the output is the sequence `Server.output`.
  - The debug log on standard error is not modelled.
  - A failure of `WriteLine` is not modelled.
- `JSON.parse` is `eval` of the line, a foreign evaluator. What it comes to is the input `Decoded`. `JsonReader` is a reference reader used only to state what the serialiser writes. It is not a model of `eval`.
- Because `JSON.parse` is `eval`, a request line can also run arbitrary script: assign into `pool`, `TOOLS` or `HANDLERS`, or end the script. `Decoded` captures only the value the line evaluates to, so those side effects on later lines are not modelled.
- The script engine's `for..in` does not enumerate an own property that shadows a non-enumerable `Object.prototype` member (`toString`, `valueOf`, `constructor` and the rest). So `stringify` leaves such properties out, for example in the `INVALID_REQUEST` message for `{"method": 1, "toString": 2}`. `Stringify` and `MemberTexts` keep every own property.
- Numbers are integers.
  - Floating point, `isFinite`, and the `null` printed for NaN and the infinities are not modelled.
  - `Decimal` is `toString` for integers only.
- `stringify` honours a `toJSON` method. That hook is not modelled.
- An `Other` value is taken to have `typeof` "object", as host objects do. Its `toString` text is given with the value.
- The randomness of `generateUUID` is not modelled: `Date`, `performance.now`, `Math.random` and the float arithmetic on them.
  - Call `k` draws the nibbles `entropy(k)`, with the variant nibble masked as the callback masks it.
- Tools.RunAsWritten: a property assigned onto an inherited method (say `excel_range_set_value` with handle `"constructor"`, which sets `Object.Value`) persists, and a later read through the same handle returns it. The model reads `undefined` there, because it keeps no state for the script's built-in objects.
- Of the members `HANDLERS` inherits, only `toString` and `toLocaleString` are followed by `CallAsWritten`. The others give None there.
- HandlePool.Pool.Add: requires `CanGrow`, that some future draw is free. Without it the retry loop of `addToPool` need not end.
- HandlePool.Pool.DrawFree: requires `CanGrow`, for the same reason.
- Dispatcher.Server.Serve: requires `EnoughFresh` with a budget of one identifier per line: however the lines pool their objects, the retry loop of `addToPool` finds a free identifier. Repeated draws and collisions with the pool are allowed; a generator that would make the retry loop run forever is excluded.
- Dispatcher.Server.ServeLine: requires `EnoughFresh` with a budget of at least one, for the same reason.
- Dispatcher.Server.Advance: requires `EnoughFresh` with a budget of at least one, for the same reason.
- Dispatcher.Server.HandleLine: requires `CanGrow`, for the same reason.
- Strings are sequences of Unicode scalar values, not the script's UTF-16 code units. A lone surrogate cannot be represented, and a character above U+FFFF counts as one character, not two.
- `JSON.stringify` is assumed not to throw. In the script it would throw on a cyclic structure, which JSON text cannot describe in any case.

## Findings

| source | as written | input that shows it | evidently intended | confidence | as-written member | corrected member |
|---|---|---|---|---|---|---|
| server.js:603 | `typeof request.method` is read outside any `try`. A line that decodes to `null` makes the read throw, and the script ends without answering. | the line `null` | an invalid-request error (-32600), like every other request without a string `method` | not executed | Dispatcher.RouteAsWritten (Dispatcher.NullRequest) | Dispatcher.Route |
| server.js:71-74 | `pool[id]` also finds members inherited from `Object.prototype`, as do the other handlers' lookups (server.js:62-200). The handle `"constructor"` reaches `Object`: reading an automation property of it gives `undefined`, which a pooling handler then adds to the pool, and assigning one succeeds. | `{"jsonrpc": "2.0", "id": 1, "method": "tools/call", "params": {"name": "excel_workbooks_get_count", "arguments": {"excelWorkbooksId": "constructor"}}}` | a handle the pool never issued throws a TypeError, answered as an `isError` result | not executed | Tools.RunAsWritten (Tools.ConstructorHandleAsWritten) | Tools.Run |
| server.js:651 | `HANDLERS[name]` also finds members inherited from `Object.prototype`. `tools/call` with name `toString` calls it and succeeds with `"[object Object]"`. | `{"jsonrpc": "2.0", "id": 1, "method": "tools/call", "params": {"name": "toString"}}` | only the fourteen registered tools are callable, and any other name is an `isError` result | not executed | Tools.CallAsWritten (Tools.CallToStringAsWritten) | Tools.Call |
