/**
 * The pino HTTP transport: a writable stream that, for each record, prints
 * a formatted line to the console and builds an authenticated POST of the
 * record for the remote ingestion endpoint.
 *
 * Output is returned instead of performed: the console line, the
 * diagnostics written to standard error, and the request handed to
 * `fetch`, in the order the transport produces them.
 */
module Transport {
  import opened JsValues
  import opened Text
  import opened Format

  /** `LoggerOptions`; `None` is a property left undefined. */
  datatype LoggerOptions = LoggerOptions(
    apiKey: Option<string>,
    url: Option<string>,
    logToTimber: Option<bool>,
    logToConsole: Option<bool>,
    colorConsole: Option<bool>,
    staticLogValues: Option<seq<(string, Value)>>
  )

  /** `flag === undefined || !!flag`: on unless explicitly false. */
  predicate OnUnlessFalse(flag: Option<bool>) {
    flag != Some(false)
  }

  /** `!value` for an optional string: undefined or empty. */
  predicate Blank(value: Option<string>) {
    value.None? || value.value == ""
  }

  // ---------------------------------------------------------------------
  // fields left out of the context block

  const StandardFields: seq<string> := ["level", "time", "pid", "hostname", "msg"]

  function Keys(fields: seq<(string, Value)>): (keys: seq<string>)
    ensures |keys| == |fields|
    ensures forall i :: 0 <= i < |fields| ==> keys[i] == fields[i].0
  {
    seq(|fields|, i requires 0 <= i < |fields| => fields[i].0)
  }

  function StaticKeys(options: LoggerOptions): seq<string> {
    match options.staticLogValues
    case Some(values) => Keys(values)
    case None => []
  }

  /** `skipFields`: the five fields pino writes itself, then the keys of
      `staticLogValues` in order. */
  function SkipFields(options: LoggerOptions): (skip: seq<string>)
    ensures |skip| == 5 + |StaticKeys(options)|
    ensures skip[..5] == StandardFields && skip[5..] == StaticKeys(options)
  {
    StandardFields + StaticKeys(options)
  }

  /** Neither a field pino writes itself nor a static field ever reaches
      the context block; every other field does. */
  lemma SkippedFieldsNotRendered(options: LoggerOptions, fields: seq<(string, Value)>, f: (string, Value))
    requires f in fields
    ensures f in Survivors(fields, SkipFields(options))
        <==> f.0 !in StandardFields && f.0 !in StaticKeys(options)
  {
    SurvivorsMembership(fields, SkipFields(options), f);
    var skip := SkipFields(options);
    assert f.0 in skip <==> f.0 in skip[..5] || f.0 in skip[5..] by {
      assert skip == skip[..5] + skip[5..];
    }
  }

  // ---------------------------------------------------------------------
  // remote delivery

  datatype Request = Request(
    httpMethod: string,
    url: string,
    headers: seq<(string, string)>,
    body: string
  )

  /** What `sendLog` does before the network: give up for want of an API key
      or a URL, or post the request. */
  datatype Delivery = NoApiKey | NoUrl | Post(request: Request)

  /** `sendLog` up to the `fetch` call.  The API key is checked before the
      URL, so a missing key is reported even when the URL is missing too; an
      empty string counts as missing.  The body is `JSON.stringify(record)`,
      and when that throws the rejection reaches the caller. */
  function SendLog(rt: Runtime, record: Value, options: LoggerOptions): (r: Result<Delivery>)
    ensures Blank(options.apiKey) ==> r == Ok(NoApiKey)
    ensures !Blank(options.apiKey) && Blank(options.url) ==> r == Ok(NoUrl)
    ensures r.Throw? <==> !Blank(options.apiKey) && !Blank(options.url) && rt.stringify(record, 0).None?
    ensures r.Throw? ==> r.error == SerializationFailed
    ensures r.Ok? && r.value.Post? ==>
      var request := r.value.request;
      request.httpMethod == "POST" &&
      request.url == options.url.value &&
      request.headers == [("Content-Type", "application/json"),
                          ("Authorization", "Basic " + options.apiKey.value)] &&
      Some(request.body) == rt.stringify(record, 0)
  {
    if Blank(options.apiKey) then Ok(NoApiKey)
    else if Blank(options.url) then Ok(NoUrl)
    else match rt.stringify(record, 0)
      case None => Throw(SerializationFailed)
      case Some(body) =>
        Ok(Post(Request("POST", options.url.value,
                        [("Content-Type", "application/json"),
                         ("Authorization", "Basic " + options.apiKey.value)],
                        body)))
  }

  /** A request is built exactly when both the key and the URL are present
      and the record serialises. */
  lemma PostOnlyWhenConfigured(rt: Runtime, record: Value, options: LoggerOptions)
    ensures var r := SendLog(rt, record, options);
      (r.Ok? && r.value.Post?)
        <==> !Blank(options.apiKey) && !Blank(options.url) && rt.stringify(record, 0).Some?
  {
  }

  // ---------------------------------------------------------------------
  // console output

  /** The headline: `msg` of a record of object type, the record itself
      otherwise, as a template literal prints it (a missing `msg` prints
      as "undefined"). */
  function Headline(rt: Runtime, record: Value): string
    requires !record.Null? && !record.Undefined?
  {
    if IsObjectType(record) then ToJsString(rt, GetProperty(record, "msg").value)
    else ToJsString(rt, record)
  }

  /** The colour that opens the line and the code that resets it: both
      empty when colouring is off. */
  function Colors(rt: Runtime, record: Value, options: LoggerOptions): (string, string)
    requires !record.Null? && !record.Undefined?
  {
    if OnUnlessFalse(options.colorConsole)
    then (LevelColor(rt, GetProperty(record, "level").value), Default)
    else ("", "")
  }

  /** Newline and the context indented by two spaces, when there is any. */
  function ContextSuffix(context: string): string {
    if context == "" then "" else "\n" + Indent(context, false)
  }

  /** A one-line context goes on its own line, indented by two spaces. */
  lemma SingleLineSuffix(context: string)
    requires context != "" && '\n' !in context
    ensures ContextSuffix(context) == "\n  " + context
  {
    IndentSingleLine(context, false);
  }

  /** The exception `sendToConsol` raises for a `null` or `undefined`
      record: the first property read (`level` when colouring is on, `msg`
      otherwise) or, for `null` without colour, `Object.keys`. */
  function ConsoleError(record: Value, options: LoggerOptions): Exception
    requires record.Null? || record.Undefined?
  {
    if OnUnlessFalse(options.colorConsole) then CannotReadProperty("level")
    else if record.Null? then CannotConvertToObject
    else CannotReadProperty("msg")
  }

  /** The line `sendToConsol` prints, or the exception it raises. */
  function ConsoleLine(rt: Runtime, record: Value, options: LoggerOptions, skip: seq<string>): Result<string> {
    if record.Null? || record.Undefined? then Throw(ConsoleError(record, options))
    else
      var (color, reset) := Colors(rt, record, options);
      Ok(color + Headline(rt, record) + reset
           + ContextSuffix(ContextAsString(rt, record, skip).value))
  }

  /** `sendToConsol`, with the line it logs returned. */
  method SendToConsole(rt: Runtime, record: Value, options: LoggerOptions, skip: seq<string>)
    returns (r: Result<string>)
    ensures r == ConsoleLine(rt, record, options, skip)
    ensures r.Throw? <==> record.Null? || record.Undefined?
  {
    var messageColor := "";
    var resetColor := "";
    if OnUnlessFalse(options.colorConsole) {
      var level := GetProperty(record, "level");
      if level.Throw? {
        return Throw(level.error);
      }
      messageColor := LevelColor(rt, level.value);
      resetColor := Default;
    }

    var contextStr := ContextAsString(rt, record, skip);
    if contextStr.Throw? {
      return Throw(contextStr.error);
    }
    var msg := GetProperty(record, "msg");
    if msg.Throw? {
      return Throw(msg.error);
    }
    var message := msg.value;
    if !IsObjectType(record) {
      message := record;
    }
    var consoleLog := messageColor + ToJsString(rt, message) + resetColor;
    if contextStr.value != "" {
      consoleLog := consoleLog + "\n" + Indent(contextStr.value, false);
    }
    assert consoleLog == messageColor + ToJsString(rt, message) + resetColor + ContextSuffix(contextStr.value);
    return Ok(consoleLog);
  }

  /** With colouring off the line is the headline and the context alone. */
  lemma UncolouredLine(rt: Runtime, record: Value, options: LoggerOptions, skip: seq<string>)
    requires options.colorConsole == Some(false)
    requires !record.Null? && !record.Undefined?
    ensures ConsoleLine(rt, record, options, skip)
         == Ok(Headline(rt, record) + ContextSuffix(ContextAsString(rt, record, skip).value))
  {
    var h, c := Headline(rt, record), ContextSuffix(ContextAsString(rt, record, skip).value);
    assert Colors(rt, record, options) == ("", "");
    assert "" + h == h;
    assert h + "" == h;
    assert ConsoleLine(rt, record, options, skip) == Ok("" + h + "" + c);
  }

  /** With colouring on, the headline is wrapped in the level's colour and
      the reset code. */
  lemma ColouredLine(rt: Runtime, record: Value, options: LoggerOptions, skip: seq<string>)
    requires OnUnlessFalse(options.colorConsole)
    requires record.Obj?
    ensures ConsoleLine(rt, record, options, skip)
         == Ok(LevelColor(rt, Lookup(record.fields, "level")) + ToJsString(rt, Lookup(record.fields, "msg"))
               + Default + ContextSuffix(ContextAsString(rt, record, skip).value))
  {
  }

  /** A record whose every field is skipped prints its headline only. */
  lemma NoContextNoSuffix(rt: Runtime, fields: seq<(string, Value)>, options: LoggerOptions, skip: seq<string>)
    requires forall i :: 0 <= i < |fields| ==> fields[i].0 in skip
    ensures var (color, reset) := Colors(rt, Obj(fields), options);
      ConsoleLine(rt, Obj(fields), options, skip) == Ok(color + Headline(rt, Obj(fields)) + reset)
  {
    AllSkipped(fields, skip);
    ContextAsWritten(rt, Obj(fields), skip);
    var (color, reset) := Colors(rt, Obj(fields), options);
    var h := Headline(rt, Obj(fields));
    assert color + h + reset + "" == color + h + reset;
  }

  lemma {:induction false} AllSkipped(fields: seq<(string, Value)>, skip: seq<string>)
    requires forall i :: 0 <= i < |fields| ==> fields[i].0 in skip
    ensures Survivors(fields, skip) == []
  {
    if fields != [] {
      AllSkipped(fields[1..], skip);
    }
  }

  /** A record of pino's standard fields and one custom field, printed with
      the default options: green "start", then the field indented below. */
  lemma ConsoleExample(rt: Runtime, options: LoggerOptions, fields: seq<(string, Value)>)
    requires options == LoggerOptions(None, None, None, None, None, None)
    requires fields == [("level", Num(30)), ("time", Num(1700000000000)),
                        ("msg", Str("start")), ("userId", Str("u1"))]
    ensures ConsoleLine(rt, Obj(fields), options, SkipFields(options))
         == Ok(Green + "start" + Default + ("\n  " + "userId: u1"))
  {
    var skip := SkipFields(options);
    assert skip == StandardFields;
    ExampleContext(rt, fields, skip);
    ExampleHeadline(rt, fields);
    ColouredSingleLineContext(rt, Obj(fields), options, skip, "userId: u1");
  }

  /** A record whose context is one line prints it below the headline,
      indented by two spaces. */
  lemma ColouredSingleLineContext(rt: Runtime, record: Value, options: LoggerOptions, skip: seq<string>, context: string)
    requires OnUnlessFalse(options.colorConsole) && record.Obj?
    requires ContextAsString(rt, record, skip) == Ok(context)
    requires context != "" && '\n' !in context
    ensures ConsoleLine(rt, record, options, skip)
         == Ok(LevelColor(rt, Lookup(record.fields, "level")) + ToJsString(rt, Lookup(record.fields, "msg"))
               + Default + ("\n  " + context))
  {
    ColouredLine(rt, record, options, skip);
    SingleLineSuffix(context);
  }

  lemma ExampleHeadline(rt: Runtime, fields: seq<(string, Value)>)
    requires fields == [("level", Num(30)), ("time", Num(1700000000000)),
                        ("msg", Str("start")), ("userId", Str("u1"))]
    ensures LevelColor(rt, Lookup(fields, "level")) == Green
    ensures ToJsString(rt, Lookup(fields, "msg")) == "start"
  {
    NumericLevelColor(rt, 30);
    assert Lookup(fields, "level") == Num(30);
    assert Lookup(fields, "msg") == Str("start") by {
      assert fields[0].0 != "msg" && fields[1..][0].0 != "msg";
      assert fields[1..][1..][0] == ("msg", Str("start"));
      assert Lookup(fields, "msg") == Lookup(fields[1..], "msg") == Lookup(fields[1..][1..], "msg");
    }
  }

  lemma ExampleContext(rt: Runtime, fields: seq<(string, Value)>, skip: seq<string>)
    requires skip == StandardFields
    requires fields == [("level", Num(30)), ("time", Num(1700000000000)),
                        ("msg", Str("start")), ("userId", Str("u1"))]
    ensures ContextAsString(rt, Obj(fields), skip) == Ok("userId: u1")
  {
    assert Survivors(fields, skip) == [("userId", Str("u1"))] by {
      var f1 := fields[1..];
      var f2 := f1[1..];
      var f3 := f2[1..];
      assert f3 == [("userId", Str("u1"))] && f3[1..] == [];
      assert Survivors(f3, skip) == [("userId", Str("u1"))];
      assert Survivors(f2, skip) == Survivors(f3, skip);
      assert Survivors(f1, skip) == Survivors(f2, skip);
      assert Survivors(fields, skip) == Survivors(f1, skip);
    }
    ContextAsWritten(rt, Obj(fields), skip);
    IndentSingleLine("u1", true);
    assert ContextEntry(rt, "userId", Str("u1")) == "userId: u1";
  }

  // ---------------------------------------------------------------------
  // the write callback

  /** What the transport does, in order. */
  datatype Effect =
    | Print(line: string)              // console.log
    | Report(diagnostic: Diagnostic)   // console.error
    | Send(request: Request)           // fetch

  datatype Diagnostic = MissingApiKey | MissingUrl | TransportFailed(error: Exception)

  /** The effects of one `write` and the error passed to its callback. */
  datatype WriteOutcome = WriteOutcome(effects: seq<Effect>, error: Option<Exception>)

  /** The record a chunk stands for: a string is parsed as JSON and kept as
      it is when it does not parse; anything else is used as it is. */
  function Normalize(rt: Runtime, chunk: Value): (record: Value)
    ensures !chunk.Str? ==> record == chunk
    ensures chunk.Str? ==> record == match rt.parse(chunk.s) case Some(v) => v case None => chunk
  {
    match chunk
    case Str(text) => (match rt.parse(text) case Some(v) => v case None => chunk)
    case _ => chunk
  }

  function RemoteEffects(delivery: Delivery): seq<Effect> {
    match delivery
    case NoApiKey => [Report(MissingApiKey)]
    case NoUrl => [Report(MissingUrl)]
    case Post(request) => [Send(request)]
  }

  /** The `write` callback: both sinks run inside one `try`, console first;
      an exception from either is reported, passed to the callback, and
      stops whatever would have come after it. */
  function Dispatch(rt: Runtime, chunk: Value, options: LoggerOptions, skip: seq<string>): WriteOutcome {
    var record := Normalize(rt, chunk);
    var console := if OnUnlessFalse(options.logToConsole)
                   then ConsoleLine(rt, record, options, skip) else Ok("");
    if console.Throw? then
      WriteOutcome([Report(TransportFailed(console.error))], Some(console.error))
    else
      var printed := if OnUnlessFalse(options.logToConsole) then [Print(console.value)] else [];
      if !OnUnlessFalse(options.logToTimber) then WriteOutcome(printed, None)
      else match SendLog(rt, record, options)
        case Throw(e) => WriteOutcome(printed + [Report(TransportFailed(e))], Some(e))
        case Ok(delivery) => WriteOutcome(printed + RemoteEffects(delivery), None)
  }

  predicate IsRemote(effect: Effect) {
    effect.Send? || effect == Report(MissingApiKey) || effect == Report(MissingUrl)
  }

  /** The console line always comes before anything the remote sink does,
      and each sink acts at most once. */
  lemma ConsoleBeforeRemote(rt: Runtime, chunk: Value, options: LoggerOptions, skip: seq<string>)
    ensures var effects := Dispatch(rt, chunk, options, skip).effects;
      |effects| <= 2 &&
      (forall i, j :: 0 <= i < |effects| && 0 <= j < |effects| && effects[i].Print? && IsRemote(effects[j])
         ==> i < j) &&
      (forall i :: 0 <= i < |effects| && effects[i].Print? ==> i == 0) &&
      (forall i, j :: 0 <= i < j < |effects| ==> !(IsRemote(effects[i]) && IsRemote(effects[j])))
  {
  }

  /** The line is printed exactly when console output is on and formatting
      succeeds. */
  lemma PrintedIff(rt: Runtime, chunk: Value, options: LoggerOptions, skip: seq<string>, line: string)
    ensures var record := Normalize(rt, chunk);
      (Print(line) in Dispatch(rt, chunk, options, skip).effects)
        <==> OnUnlessFalse(options.logToConsole) && ConsoleLine(rt, record, options, skip) == Ok(line)
  {
  }

  /** A request is sent exactly when remote delivery is on, the console step
      (if on) did not throw, the key and the URL are present and the record
      serialises; it is the request `sendLog` builds. */
  lemma SentIff(rt: Runtime, chunk: Value, options: LoggerOptions, skip: seq<string>, request: Request)
    ensures var record := Normalize(rt, chunk);
      (Send(request) in Dispatch(rt, chunk, options, skip).effects)
        <==> OnUnlessFalse(options.logToTimber)
             && (!OnUnlessFalse(options.logToConsole) || ConsoleLine(rt, record, options, skip).Ok?)
             && SendLog(rt, record, options) == Ok(Post(request))
  {
    var record := Normalize(rt, chunk);
    var effects := Dispatch(rt, chunk, options, skip).effects;
    if Send(request) in effects {
      var i :| 0 <= i < |effects| && effects[i] == Send(request);
    }
  }

  /** The remote step runs (it reports a missing key or URL, sends, or
      fails to serialise) exactly when remote delivery is on and the console
      step, if on, did not throw. */
  lemma RemoteStepIff(rt: Runtime, chunk: Value, options: LoggerOptions, skip: seq<string>)
    ensures var record := Normalize(rt, chunk);
      var effects := Dispatch(rt, chunk, options, skip).effects;
      (exists i :: 0 <= i < |effects|
         && (IsRemote(effects[i]) || effects[i] == Report(TransportFailed(SerializationFailed))))
        <==> OnUnlessFalse(options.logToTimber)
             && (!OnUnlessFalse(options.logToConsole) || ConsoleLine(rt, record, options, skip).Ok?)
  {
    var record := Normalize(rt, chunk);
    var effects := Dispatch(rt, chunk, options, skip).effects;
    var console := OnUnlessFalse(options.logToConsole);
    if console && ConsoleLine(rt, record, options, skip).Throw? {
      assert ConsoleLine(rt, record, options, skip).error != SerializationFailed;
    } else if OnUnlessFalse(options.logToTimber) {
      var last := |effects| - 1;
      assert IsRemote(effects[last]) || effects[last] == Report(TransportFailed(SerializationFailed));
    }
  }

  /** An exception in the console step skips the remote step: the only
      effect is the report, and the callback receives the exception. */
  lemma ConsoleFailureSkipsRemote(rt: Runtime, chunk: Value, options: LoggerOptions, skip: seq<string>)
    requires OnUnlessFalse(options.logToConsole)
    requires ConsoleLine(rt, Normalize(rt, chunk), options, skip).Throw?
    ensures var e := ConsoleLine(rt, Normalize(rt, chunk), options, skip).error;
      Dispatch(rt, chunk, options, skip) == WriteOutcome([Report(TransportFailed(e))], Some(e))
  {
  }

  /** The callback receives an error exactly when the console step or the
      serialisation of the request body throws; a missing key or URL is
      reported but is not an error. */
  lemma CallbackErrorIff(rt: Runtime, chunk: Value, options: LoggerOptions, skip: seq<string>)
    ensures var record := Normalize(rt, chunk);
      var consoleFails := OnUnlessFalse(options.logToConsole)
                          && ConsoleLine(rt, record, options, skip).Throw?;
      (Dispatch(rt, chunk, options, skip).error.Some?)
        <==> consoleFails
             || (OnUnlessFalse(options.logToTimber) && SendLog(rt, record, options).Throw?)
  {
  }

  /** A string chunk that is not JSON reaches the console unchanged: it is
      printed as its own headline with no context, between the default
      colour and the reset code when colouring is on (a string has no
      `level`, so no level colour applies). */
  lemma UnparsableChunkPassedOn(rt: Runtime, text: string, options: LoggerOptions, skip: seq<string>)
    requires rt.parse(text).None?
    ensures Normalize(rt, Str(text)) == Str(text)
    ensures ConsoleLine(rt, Str(text), options, skip)
         == if OnUnlessFalse(options.colorConsole) then Ok(Default + text + Default) else Ok(text)
  {
    assert ContextAsString(rt, Str(text), skip) == Ok("");
    if OnUnlessFalse(options.colorConsole) {
      assert "undefined" !in ColorMap;
      assert Colors(rt, Str(text), options) == (Default, Default);
      assert Default + text + Default + "" == Default + text + Default;
    } else {
      assert "" + text + "" + "" == text;
    }
  }

  /** The writable stream `pinoHttpTransport(options)` returns: the options
      and the skip list it derives from them once, and `write`. */
  class HttpTransport {
    const options: LoggerOptions
    const skipFields: seq<string>

    constructor (options: LoggerOptions)
      ensures this.options == options
      ensures skipFields == SkipFields(options)
    {
      this.options := options;
      skipFields := SkipFields(options);
    }

    /** One record through the transport: the effects in the order they
        happen, and the error the callback receives (`None` for
        `callback()`). */
    method Write(rt: Runtime, logObject: Value) returns (effects: seq<Effect>, error: Option<Exception>)
      ensures WriteOutcome(effects, error) == Dispatch(rt, logObject, options, skipFields)
    {
      var record := logObject;
      if logObject.Str? {
        var parsed := rt.parse(logObject.s);
        if parsed.Some? {
          record := parsed.value;
        }
      }
      assert record == Normalize(rt, logObject);

      effects := [];
      if OnUnlessFalse(options.logToConsole) {
        var line := SendToConsole(rt, record, options, skipFields);
        if line.Throw? {
          effects := effects + [Report(TransportFailed(line.error))];
          return effects, Some(line.error);
        }
        effects := effects + [Print(line.value)];
      }
      assert effects == if OnUnlessFalse(options.logToConsole)
                        then [Print(ConsoleLine(rt, record, options, skipFields).value)] else [];
      if OnUnlessFalse(options.logToTimber) {
        var delivery := SendLog(rt, record, options);
        if delivery.Throw? {
          effects := effects + [Report(TransportFailed(delivery.error))];
          return effects, Some(delivery.error);
        }
        effects := effects + RemoteEffects(delivery.value);
      }
      error := None;
    }
  }
}
