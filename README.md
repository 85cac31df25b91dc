# pino HTTP transport, modelled in Dafny

This project models the pino transport in `src/pino-transport.ts`.
The transport is a writable stream. For each log record it does two things:

- It prints a coloured, indented line to the console (`sendToConsol`).
- It posts the record as JSON to a remote log-ingestion endpoint with a Basic authorisation header (`sendLog`).

The model covers:

- the colour table keyed by pino level;
- the conversion of field values to text (`getValueAsString`);
- the context block made of the fields that pino does not write itself (`getContextAsString`);
- the `indent` helper;
- the list of skipped fields;
- the decision `sendLog` takes before the network;
- the `write` dispatch: a string chunk is parsed as JSON; the console step runs before the remote step; an exception goes to the callback.

Modules:

- `JsValues` (`js_values.dfy`) holds the JavaScript values a record is made of.
  - It also holds the few language operations the transport relies on: `typeof`, property reads on `null` and `undefined`, and ToString.
  - `Runtime` collects the library functions whose internals are not modelled: `JSON.parse`, `JSON.stringify`, `Date.prototype.toISOString` and `String(date)`.
  - Every lemma holds for every `Runtime`.
- `Text` (`text.dfy`) holds `split('\n')`, `join` and `indent`, with a character-by-character reference definition of `indent`.
- `Format` (`format.dfy`) holds the colours, `getValueAsString` and `getContextAsString`.
- `Transport` (`transport.dfy`) holds the options, `skipFields`, `sendLog`, `sendToConsol` and the `write` dispatch. The dispatch is written twice:
  - once as the function `Dispatch`;
  - once as the method `HttpTransport.Write` on the transport object, proved equal to it.

The printed line and the request are returned, not performed. `Write` returns the effects of one record in order, together with the error passed to the callback:

- `Print(line)` is `console.log`;
- `Report(...)` is `console.error`;
- `Send(request)` is the call to `fetch`.

Three facts about the code shape this model:

- **No background delivery.** `write` awaits `sendLog` inside the same `try` as the console step. There is no in-flight request counter, no waiting for pending requests on drain, and no fire-and-forget delivery.
- **Console failure stops the record.** An exception from `sendToConsol` skips `sendLog` and goes to the callback (`ConsoleFailureSkipsRemote`).
- **Only the last field is shown.** The context block shows only the last field that is not skipped (see Findings).

## Model

| member | source | states |
|---|---|---|
| Text.IndentSingleLine | src/pino-transport.ts:128-133 | An empty string is returned unchanged. Otherwise a single line is unchanged when the first row is skipped and gains two leading spaces when it is not. |
| Text.IndentLines | src/pino-transport.ts:128-133 | `indent` keeps the number of lines. Without `skipFirstRow` every line gains two leading spaces; with it, every line but the first does. |
| Text.IndentLength | src/pino-transport.ts:128-133 | The result is two characters longer per newline, plus two when the first row is indented. |
| Text.IndentInvertible | src/pino-transport.ts:128-133 | The input is recovered from the output of `indent` by removing the inserted spaces, so `indent` loses nothing. |
| Text.JoinSplitIndents | src/pino-transport.ts:130 | `split('\n').join('\n  ')` equals the reference definition that inserts two spaces after every newline. |
| Text.JoinSplit | src/pino-transport.ts:130 | Splitting on newlines and joining with a newline gives the string back, and no piece contains a newline. |
| Text.SplitCount | src/pino-transport.ts:130 | `split('\n')` yields one more piece than there are newlines. |
| Format.NumericLevelColor | src/pino-transport.ts:14-22 | Levels 60 and 50 are red, 45 cyan, 40 yellow, 30 green, 20 blue, 10 grey, and every other number gets the default colour. |
| Format.ValueString | src/pino-transport.ts:118-126 | A date gives its ISO string. Any other value of object type, `null` included, gives its two-space JSON. Strings, numbers and booleans give their `toString()`. A throwing conversion, including `undefined.toString()`, gives `[value]`. |
| Format.ContextEntry | src/pino-transport.ts:112 | A context entry starts with the key followed by `: `. |
| Format.EntryLines | src/pino-transport.ts:112 | An entry's first line is the key and the value's first line. The value's other lines follow, each with two leading spaces. |
| Format.ContextAsString | src/pino-transport.ts:105-109 | The context throws exactly for `null`, because `Object.keys(null)` throws. Any other value that is not an object gives the empty string. |
| Format.ContextFoldOutcome | src/pino-transport.ts:109-115 | The reduce, from any accumulator, returns the accumulator when no field survives. A single survivor over an empty accumulator gives that entry. Otherwise it returns a newline and the last survivor's entry. |
| Format.ContextAsWritten | src/pino-transport.ts:105-115 | The context of a record with no surviving field is empty. With one surviving field it is that field's entry. With more it is a newline and the last survivor's entry. |
| Format.SkippedFieldsIgnored | src/pino-transport.ts:110 | A skipped key never contributes: removing the skipped fields first does not change the context. |
| Format.SurvivorsMembership | src/pino-transport.ts:110 | A field survives exactly when it belongs to the record and its key is not in the skip list. |
| Format.SurvivorsIdempotent | src/pino-transport.ts:110 | Filtering the skipped fields out twice gives the same fields as filtering them once. |
| Format.JoinedFoldOutcome | src/pino-transport.ts:109-115 | With the intended step, the reduce appends every surviving entry to the accumulator, with newlines in between. |
| Format.ContextBlockJoinsSurvivors | src/pino-transport.ts:109-115 | With the intended step, the context is the entries of all surviving fields, in key order, joined by newlines. |
| Format.AgreeUpToOneSurvivor | src/pino-transport.ts:113-114 | The reduce as written and the intended one agree whenever at most one field survives. |
| Format.ContextDropsEarlierFields | src/pino-transport.ts:113-114 | For `{a: "1", b: "2"}`, the reduce as written gives `"\nb: 2"` and the intended one gives `"a: 1\nb: 2"`. |
| Transport.SkipFields | src/pino-transport.ts:35-38 | The skip list is `level`, `time`, `pid`, `hostname` and `msg`, followed by the keys of `staticLogValues` in order. |
| Transport.SkippedFieldsNotRendered | src/pino-transport.ts:35-38 | A field of the record survives into the context block exactly when its key is neither a standard pino field nor a static key. |
| Transport.SendLog | src/pino-transport.ts:61-80 | A missing or empty API key is reported first. Then a missing or empty URL is reported. Otherwise the result is a POST to the URL with `Content-Type: application/json`, `Authorization: Basic <key>` and the record's JSON as body. A failure of `JSON.stringify` throws. |
| Transport.PostOnlyWhenConfigured | src/pino-transport.ts:61-80 | A request is built exactly when the key and the URL are both present and the record serialises. |
| Transport.SendToConsole | src/pino-transport.ts:87-103 | The method computes the line `sendToConsol` logs. It throws exactly for a `null` or `undefined` record. |
| Transport.SingleLineSuffix | src/pino-transport.ts:101 | A context without newlines is appended after a newline and two spaces. |
| Transport.UncolouredLine | src/pino-transport.ts:88-100 | With colouring off, the line is the headline followed by the indented context. |
| Transport.ColouredLine | src/pino-transport.ts:90-100 | With colouring on, the `msg` of an object record is wrapped in its level's colour and the reset code. |
| Transport.NoContextNoSuffix | src/pino-transport.ts:101 | When every field is skipped, the line is the coloured headline alone. |
| Transport.ConsoleExample | src/pino-transport.ts:87-103 | With default options, `{level: 30, time, msg: "start", userId: "u1"}` prints `"start"` in green and then `userId: u1` on an indented line. |
| Transport.Normalize | src/pino-transport.ts:43-48 | A string chunk is replaced by its parsed JSON and kept as it is when it does not parse. Any other chunk is used as it is. |
| Transport.UnparsableChunkPassedOn | src/pino-transport.ts:43-50 | Text that is not JSON reaches the console unchanged, as its own headline with no context. With colouring on it sits between the default colour and the reset code, and with colouring off it is printed alone. |
| Transport.ConsoleBeforeRemote | src/pino-transport.ts:49-52 | A record produces at most two effects. It prints at most one line, and that line comes first. There is at most one remote effect (a report of a missing key or URL, or a send), and it comes after the line. |
| Transport.PrintedIff | src/pino-transport.ts:50 | A line is printed exactly when console output is on and the formatting succeeds, and it is the line `sendToConsol` computes. |
| Transport.SentIff | src/pino-transport.ts:49-52 | A request is sent exactly when remote delivery is on, the console step did not throw, and `sendLog` builds that request. |
| Transport.RemoteStepIff | src/pino-transport.ts:49-52 | The remote step runs exactly when `logToTimber` is not `false` and the console step, if on, did not throw. |
| Transport.ConsoleFailureSkipsRemote | src/pino-transport.ts:49-56 | A console exception is reported and passed to the callback, and nothing else happens. |
| Transport.CallbackErrorIff | src/pino-transport.ts:49-56 | The callback receives an error exactly when the console step or the serialisation of the body throws. A missing key or URL is not an error. |
| Transport.HttpTransport.constructor | src/pino-transport.ts:33-38 | The transport keeps its options and computes the skip list from them once. |
| Transport.HttpTransport.Write | src/pino-transport.ts:42-57 | One call to `write` produces exactly the effects and the callback error that `Dispatch` describes. |
| JsValues.GetProperty | src/pino-transport.ts:91 | Reading a property throws exactly on `null` and `undefined`. It yields `undefined` on a primitive, and the field of that name on an object (`undefined` when the object has none). |
| JsValues.DecimalRoundTrip | src/pino-transport.ts:91 | A number's decimal text reads back as the same number, so a numeric level finds exactly the colour key that spells it. |

## Left out

- The network call is not modelled. The `fetch` call itself, its promise, and the handling of a response that is not ok (`src/pino-transport.ts:73-84`) are outside the model. The model stops at the request it would send, and a rejected `fetch` is not represented.
- The `Writable` machinery, `objectMode`, the `encoding` argument and the asynchronous scheduling of `write` are not modelled. Each record is handled on its own, and its outcome is the list of effects plus the error handed to the callback.
- `console.log` and `console.error` are effects in the returned list; the text of the `console.error` messages is not modelled.
- The internals of `JSON.parse`, `JSON.stringify`, `toISOString` and `String(date)` are not modelled. They are parameters of type `Runtime`, and every result holds for every choice of them.
- JavaScript numbers are modelled as integers, printed in plain decimal. Fractions, `NaN`, infinities and exponent notation from 10^21 up are not modelled.
- Arrays, functions, symbols and bigints are not separate values. A plain object stands for every value of object type other than dates and `null`.
- Prototype properties are not modelled: reading `level` or `msg` from a primitive gives `undefined`.
- `JSON.stringify` returning `undefined` instead of a string is not modelled. In the model, `stringify` either gives a string or throws.
  - The case that can arise is `JSON.stringify(undefined)`.
  - With console output off, an `undefined` record reaches `sendLog` (`src/pino-transport.ts:71-80`). The source then POSTs with no body, and the model has no request without a body.
  - Because of this, the guard in `indent` for a non-string argument (`src/pino-transport.ts:129`) is not modelled either.
- Options are read once, at construction: `HttpTransport` holds its options as an immutable value.
  - The source fixes only `logToTimber`, `logToConsole` (`src/pino-transport.ts:34`) and the skip list (`:35-38`) at construction.
  - It reads `colorConsole`, `apiKey` and `url` from the captured options object on every call (`:90`, `:62-72`).
  - So if the caller mutates the options object after construction, the source sees the change and the model does not.
- The logger setup in `src/logger.ts` is not part of this model. Only its custom `notify` level 45 matters here, and it appears in the colour table.

## Findings

| source | as written | input that shows it | evidently intended | confidence | as-written member | corrected member |
|---|---|---|---|---|---|---|
| src/pino-transport.ts:113-114 | From the second surviving field on, the reduce returns `\n${keyValueStr}` and drops the accumulated `str`. The context block therefore shows only the last surviving field, preceded by a newline. | A record with custom fields `{a: "1", b: "2"}` gives the context `"\nb: 2"`. | `` `${str}\n${keyValueStr}` ``: every surviving field on its own line, `"a: 1\nb: 2"` | high (not executed) | Format.ContextDropsEarlierFields | Format.ContextBlockJoinsSurvivors |

`Format.ContextFoldOutcome` proves the as-written behaviour for every input, and `Format.AgreeUpToOneSurvivor` proves that the two versions differ only from two surviving fields on. The console line (`Transport.ConsoleLine`, `Transport.SendToConsole`) keeps the code as written, because that is what the transport prints today. `Format.ContextBlock` is the intended definition, ready to take its place.
