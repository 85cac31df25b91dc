/**
 * Console formatting in the transport: the ANSI colour table keyed by pino
 * level, the conversion of a field value to text, and the context block
 * built from the fields that are not skipped.
 */
module Format {
  import opened JsValues
  import opened Text

  // ---------------------------------------------------------------------
  // colours

  const Default: string := "\U{1B}[0m"
  const White: string := "\U{1B}[0m"
  const Grey: string := "\U{1B}[90m"
  const Red: string := "\U{1B}[31m"
  const Yellow: string := "\U{1B}[33m"
  const Green: string := "\U{1B}[32m"
  const Blue: string := "\U{1B}[34m"
  const Cyan: string := "\U{1B}[36m"

  /** `colorMap`, keyed as JavaScript stores it: by the property-key string
      of each level.  45 is the custom `notify` level. */
  const ColorMap: map<string, string> := map[
    "60" := Red, "50" := Red, "45" := Cyan, "40" := Yellow,
    "30" := Green, "20" := Blue, "10" := Grey
  ]

  /** `colorMap[level] || colors.default`: the level is turned into a
      property key first, so a level given as the string "30" finds green as
      well as the number 30 does. */
  function LevelColor(rt: Runtime, level: Value): string {
    var key := ToJsString(rt, level);
    if key in ColorMap then ColorMap[key] else Default
  }

  /** The colour of each numeric level: the seven levels of the table, and
      the default colour for every other number. */
  lemma NumericLevelColor(rt: Runtime, n: int)
    ensures LevelColor(rt, Num(n)) ==
      if n == 60 || n == 50 then Red
      else if n == 45 then Cyan
      else if n == 40 then Yellow
      else if n == 30 then Green
      else if n == 20 then Blue
      else if n == 10 then Grey
      else Default
  {
    var key := Decimal(n);
    if key in ColorMap {
      ColorKeyNumbers(key);
      DecimalRoundTrip(n);
    } else {
      LevelKeys();
    }
  }

  /** The table's keys are the decimal names of the levels 10 to 60. */
  lemma LevelKeys()
    ensures Decimal(60) == "60" && Decimal(50) == "50" && Decimal(45) == "45"
         && Decimal(40) == "40" && Decimal(30) == "30" && Decimal(20) == "20"
         && Decimal(10) == "10"
  {
  }

  lemma ColorKeyNumbers(key: string)
    requires key in ColorMap
    ensures DecimalValue(key) in {60, 50, 45, 40, 30, 20, 10}
    ensures ColorMap[key] == if DecimalValue(key) == 60 || DecimalValue(key) == 50 then Red
      else if DecimalValue(key) == 45 then Cyan
      else if DecimalValue(key) == 40 then Yellow
      else if DecimalValue(key) == 30 then Green
      else if DecimalValue(key) == 20 then Blue
      else Grey
  {
    assert ColorMap.Keys == {"60", "50", "45", "40", "30", "20", "10"};
    assert DigitsValue("6") == 6 && DigitsValue("5") == 5 && DigitsValue("4") == 4
        && DigitsValue("3") == 3 && DigitsValue("2") == 2 && DigitsValue("1") == 1;
  }

  // ---------------------------------------------------------------------
  // field values

  const Placeholder: string := "[value]"

  /** `getValueAsString`: a date gives its ISO string, anything else of
      object type (`null` included) its JSON with two-space indentation, and
      any other value its `toString()`; when any of these throws (an invalid
      date, JSON that cannot be produced, `undefined.toString()`) the result
      is the placeholder instead.  The conversion itself never throws. */
  function ValueString(rt: Runtime, v: Value): (r: string)
    ensures v.Date? ==> r == match rt.isoString(v.time) case Some(iso) => iso case None => Placeholder
    ensures IsObjectType(v) && !v.Date? ==>
      r == match rt.stringify(v, 2) case Some(json) => json case None => Placeholder
    ensures v.Undefined? ==> r == Placeholder
    ensures v.Str? || v.Num? || v.Bool? ==> r == ToJsString(rt, v)
  {
    match v
    case Date(time) =>
      (match rt.isoString(time) case Some(iso) => iso case None => Placeholder)
    case Obj(_) =>
      (match rt.stringify(v, 2) case Some(json) => json case None => Placeholder)
    case Null =>
      (match rt.stringify(v, 2) case Some(json) => json case None => Placeholder)
    case Str(s) => s
    case Num(n) => Decimal(n)
    case Bool(b) => if b then "true" else "false"
    case Undefined => Placeholder
  }

  /** The text of one context line: `key: value`, where the lines of a
      multi-line value after the first are indented by two spaces. */
  function ContextEntry(rt: Runtime, key: string, v: Value): (r: string)
    ensures |r| >= |key| + 2 && r[..|key| + 2] == key + ": "
  {
    key + ": " + Indent(ValueString(rt, v), true)
  }

  /** The lines of an entry: the key and the value's first line, then the
      value's other lines indented by two spaces. */
  lemma EntryLines(rt: Runtime, key: string, v: Value)
    requires '\n' !in key
    ensures var value := Split(ValueString(rt, v));
      Split(ContextEntry(rt, key, v)) == [key + ": " + value[0]] + Prefixed(value[1..])
  {
    var s := ValueString(rt, v);
    SplitPrefix(key + ": ", Indent(s, true));
    if s == "" {
      assert Split(s) == [""];
    } else {
      IndentLines(s, true);
    }
    assert key + ": " + Indent(s, true) == (key + ": ") + Indent(s, true);
  }

  // ---------------------------------------------------------------------
  // the context block

  /** The fields whose key is not skipped, in their original order. */
  function Survivors(fields: seq<(string, Value)>, skip: seq<string>): seq<(string, Value)> {
    if fields == [] then []
    else (if fields[0].0 in skip then [] else [fields[0]]) + Survivors(fields[1..], skip)
  }

  /** The `reduce` callback of `getContextAsString` as written: a skipped
      key leaves the accumulator alone; otherwise the entry replaces it, on
      its own when the accumulator is empty and after a newline when it is
      not, and the accumulator itself is dropped. */
  function ContextStep(rt: Runtime, skip: seq<string>, acc: string, field: (string, Value)): string {
    if field.0 in skip then acc
    else
      var entry := ContextEntry(rt, field.0, field.1);
      if acc == "" then entry else "\n" + entry
  }

  /** `Object.keys(obj).reduce(ContextStep, acc)`. */
  function ContextFold(rt: Runtime, fields: seq<(string, Value)>, skip: seq<string>, acc: string): string
  {
    if fields == [] then acc
    else ContextFold(rt, fields[1..], skip, ContextStep(rt, skip, acc, fields[0]))
  }

  /** `getContextAsString`: nothing for a value that is not of object type;
      the fold over `Object.keys` for one that is, where a date has no keys
      and `Object.keys(null)` throws. */
  function ContextAsString(rt: Runtime, record: Value, skip: seq<string>): (r: Result<string>)
    ensures r.Throw? <==> record.Null?
    ensures r.Throw? ==> r.error == CannotConvertToObject
    ensures !record.Obj? && r.Ok? ==> r.value == ""
  {
    match record
    case Obj(fields) => Ok(ContextFold(rt, fields, skip, ""))
    case Null => Throw(CannotConvertToObject)
    case _ => Ok("")
  }

  /** What the fold as written computes, from any accumulator: the
      accumulator when no field survives; otherwise a newline and the last
      survivor's entry, except that a single survivor over an empty
      accumulator is its entry alone. */
  lemma {:induction false} ContextFoldOutcome(rt: Runtime, fields: seq<(string, Value)>, skip: seq<string>, acc: string)
    ensures var kept := Survivors(fields, skip);
      ContextFold(rt, fields, skip, acc) ==
        if kept == [] then acc
        else if acc == "" && |kept| == 1 then ContextEntry(rt, kept[0].0, kept[0].1)
        else "\n" + ContextEntry(rt, kept[|kept| - 1].0, kept[|kept| - 1].1)
  {
    if fields != [] {
      var f := fields[0];
      var next := ContextStep(rt, skip, acc, f);
      assert ContextFold(rt, fields, skip, acc) == ContextFold(rt, fields[1..], skip, next);
      ContextFoldOutcome(rt, fields[1..], skip, next);
      var rest := Survivors(fields[1..], skip);
      if f.0 in skip {
        assert Survivors(fields, skip) == rest;
        assert next == acc;
      } else {
        assert Survivors(fields, skip) == [f] + rest;
        var entry := ContextEntry(rt, f.0, f.1);
        assert next == entry || next == "\n" + entry;
        assert next != "";
      }
    }
  }

  /** The context of a record with one surviving field is that field's
      entry; with two or more it is a newline and the last survivor's entry
      only; with none, or for a value that is not an object, it is empty. */
  lemma ContextAsWritten(rt: Runtime, record: Value, skip: seq<string>)
    requires !record.Null?
    ensures var r := ContextAsString(rt, record, skip);
      r.Ok? &&
      (!record.Obj? ==> r.value == "") &&
      (record.Obj? ==>
        var kept := Survivors(record.fields, skip);
        r.value ==
          if kept == [] then ""
          else if |kept| == 1 then ContextEntry(rt, kept[0].0, kept[0].1)
          else "\n" + ContextEntry(rt, kept[|kept| - 1].0, kept[|kept| - 1].1))
  {
    if record.Obj? {
      ContextFoldOutcome(rt, record.fields, skip, "");
    }
  }

  /** A skipped key never contributes: the context of a record is the
      context of the same record with its skipped fields removed. */
  lemma {:induction false} SkippedFieldsIgnored(rt: Runtime, fields: seq<(string, Value)>, skip: seq<string>)
    ensures ContextAsString(rt, Obj(fields), skip)
         == ContextAsString(rt, Obj(Survivors(fields, skip)), skip)
  {
    var kept := Survivors(fields, skip);
    ContextFoldOutcome(rt, fields, skip, "");
    ContextFoldOutcome(rt, kept, skip, "");
    SurvivorsIdempotent(fields, skip);
  }

  lemma {:induction false} SurvivorsIdempotent(fields: seq<(string, Value)>, skip: seq<string>)
    ensures Survivors(Survivors(fields, skip), skip) == Survivors(fields, skip)
  {
    if fields != [] {
      SurvivorsIdempotent(fields[1..], skip);
      var rest := Survivors(fields[1..], skip);
      if fields[0].0 in skip {
        assert Survivors(fields, skip) == rest;
      } else {
        assert Survivors(fields, skip) == [fields[0]] + rest;
        assert ([fields[0]] + rest)[1..] == rest;
      }
    }
  }

  /** A field survives exactly when it is one of the record's fields and
      its key is not skipped. */
  lemma {:induction false} SurvivorsMembership(fields: seq<(string, Value)>, skip: seq<string>, f: (string, Value))
    ensures f in Survivors(fields, skip) <==> f in fields && f.0 !in skip
  {
    if fields != [] {
      SurvivorsMembership(fields[1..], skip, f);
      assert f in fields <==> f == fields[0] || f in fields[1..];
    }
  }

  // ---------------------------------------------------------------------
  // the context block as evidently intended

  /** The callback with the accumulator kept: `${str}\n${keyValueStr}`. */
  function JoinedStep(rt: Runtime, skip: seq<string>, acc: string, field: (string, Value)): string {
    if field.0 in skip then acc
    else
      var entry := ContextEntry(rt, field.0, field.1);
      if acc == "" then entry else acc + "\n" + entry
  }

  function JoinedFold(rt: Runtime, fields: seq<(string, Value)>, skip: seq<string>, acc: string): string
  {
    if fields == [] then acc
    else JoinedFold(rt, fields[1..], skip, JoinedStep(rt, skip, acc, fields[0]))
  }

  /** The entry of each field, in order. */
  function Entries(rt: Runtime, fields: seq<(string, Value)>): (r: seq<string>)
    ensures |r| == |fields|
  {
    if fields == [] then [] else [ContextEntry(rt, fields[0].0, fields[0].1)] + Entries(rt, fields[1..])
  }

  /** The intended context block: the entries of all surviving fields, in
      order, one after another on separate lines. */
  function ContextBlock(rt: Runtime, fields: seq<(string, Value)>, skip: seq<string>): string {
    JoinedFold(rt, fields, skip, "")
  }

  lemma JoinCons(line: string, lines: seq<string>, sep: string)
    ensures Join([line] + lines, sep) == if lines == [] then line else line + sep + Join(lines, sep)
  {
    if lines != [] {
      assert ([line] + lines)[1..] == lines;
    }
  }

  lemma {:induction false} JoinedFoldOutcome(rt: Runtime, fields: seq<(string, Value)>, skip: seq<string>, acc: string)
    ensures var kept := Entries(rt, Survivors(fields, skip));
      JoinedFold(rt, fields, skip, acc) ==
        if acc == "" then Join(kept, "\n")
        else if kept == [] then acc
        else acc + "\n" + Join(kept, "\n")
  {
    if fields != [] {
      var f := fields[0];
      var rest := Survivors(fields[1..], skip);
      var restEntries := Entries(rt, rest);
      var next := JoinedStep(rt, skip, acc, f);
      assert JoinedFold(rt, fields, skip, acc) == JoinedFold(rt, fields[1..], skip, next);
      JoinedFoldOutcome(rt, fields[1..], skip, next);
      if f.0 in skip {
        assert Survivors(fields, skip) == rest;
        assert next == acc;
      } else {
        var entry := ContextEntry(rt, f.0, f.1);
        assert Survivors(fields, skip) == [f] + rest;
        assert ([f] + rest)[1..] == rest;
        assert Entries(rt, [f] + rest) == [entry] + restEntries;
        JoinedStepOutcome(acc, entry, restEntries);
      }
    }
  }

  /** One step of the intended fold, in terms of the joined lines. */
  lemma JoinedStepOutcome(acc: string, entry: string, rest: seq<string>)
    requires entry != ""
    ensures var next := if acc == "" then entry else acc + "\n" + entry;
      (if next == "" then Join(rest, "\n") else if rest == [] then next else next + "\n" + Join(rest, "\n"))
        == (if acc == "" then Join([entry] + rest, "\n") else acc + "\n" + Join([entry] + rest, "\n"))
  {
    JoinCons(entry, rest, "\n");
    if acc != "" && rest != [] {
      assert acc + "\n" + entry + "\n" + Join(rest, "\n")
          == acc + "\n" + (entry + "\n" + Join(rest, "\n"));
    }
  }

  /** Every field that is not skipped is rendered, exactly once and in
      order, and no skipped field is. */
  lemma ContextBlockJoinsSurvivors(rt: Runtime, fields: seq<(string, Value)>, skip: seq<string>)
    ensures ContextBlock(rt, fields, skip) == Join(Entries(rt, Survivors(fields, skip)), "\n")
  {
    JoinedFoldOutcome(rt, fields, skip, "");
  }

  /** The fold as written and the intended one agree on records with at
      most one surviving field, so the loss shows only from two on. */
  lemma AgreeUpToOneSurvivor(rt: Runtime, fields: seq<(string, Value)>, skip: seq<string>)
    requires |Survivors(fields, skip)| <= 1
    ensures ContextFold(rt, fields, skip, "") == ContextBlock(rt, fields, skip)
  {
    var kept := Survivors(fields, skip);
    ContextFoldOutcome(rt, fields, skip, "");
    ContextBlockJoinsSurvivors(rt, fields, skip);
    if kept != [] {
      assert kept[1..] == [];
      assert Entries(rt, kept) == [ContextEntry(rt, kept[0].0, kept[0].1)];
    }
  }

  /** The fold as written loses the first of two surviving fields; the
      intended fold keeps both. */
  lemma {:induction false} ContextDropsEarlierFields(rt: Runtime)
    ensures var fields := [("a", Str("1")), ("b", Str("2"))];
      ContextAsString(rt, Obj(fields), []) == Ok("\nb: 2") &&
      ContextBlock(rt, fields, []) == "a: 1\nb: 2"
  {
    var fields := [("a", Str("1")), ("b", Str("2"))];
    IndentSingleLine("1", true);
    IndentSingleLine("2", true);
    assert ContextEntry(rt, "a", Str("1")) == "a: 1";
    assert ContextEntry(rt, "b", Str("2")) == "b: 2";
    assert Survivors(fields, []) == fields by {
      assert fields[1..][1..] == [];
    }
    ContextFoldOutcome(rt, fields, [], "");
    assert ContextFold(rt, fields, [], "") == "\n" + ContextEntry(rt, "b", Str("2"));
    assert "\n" + "b: 2" == "\nb: 2";
    assert ContextAsString(rt, Obj(fields), []) == Ok(ContextFold(rt, fields, [], ""));
    ContextBlockJoinsSurvivors(rt, fields, []);
    assert fields[1..][1..] == [];
    assert Entries(rt, fields) == ["a: 1", "b: 2"];
    assert Join(["a: 1", "b: 2"], "\n") == "a: 1" + "\n" + Join(["b: 2"], "\n");
  }
}
