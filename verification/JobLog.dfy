/**
 * A migration's own log lines as rows of its job's log (src/bullmq/processor.js:100-198,
 * src/utils/sanitize.js:17-37): JSON written only as far as the row shows it, always on one line.
 */
module JobLog {
  import opened Wrappers
  import opened Text

  /** A value to log: a leaf has its JSON text, unless it has none and throws; a key has its own. */
  datatype Value = Leaf(json: Option<string>) | Arr(items: seq<Value>) | Obj(entries: seq<Entry>)

  /** An entry without an item (undefined, a function, a symbol) is not written. */
  datatype Entry = Entry(key: string, item: Option<Value>)

  /** The JSON up to the first leaf that throws, and whether there is none. */
  datatype Rendering = Rendering(text: string, ok: bool)

  function Then(r: Rendering, more: Rendering): Rendering {
    if r.ok then Rendering(r.text + more.text, more.ok) else r
  }

  /** The full rendering. */
  function Render(v: Value): Rendering
    decreases v, 1, 0
  {
    match v
    case Leaf(json) => if json.Some? then Rendering(json.value, true) else Rendering("", false)
    case Arr(items) => Then(Then(Rendering("[", true), RenderItems(v, |items|)), Rendering("]", true))
    case Obj(entries) => Then(Then(Rendering("{", true), RenderEntries(v, |entries|)), Rendering("}", true))
  }

  /** The first n items of an array, commas in between. */
  function RenderItems(v: Value, n: nat): Rendering
    requires v.Arr? && n <= |v.items|
    decreases v, 0, n
  {
    if n == 0 then Rendering("", true)
    else Then(Then(RenderItems(v, n - 1), Rendering(if n > 1 then "," else "", true)), Render(v.items[n - 1]))
  }

  predicate AnyWritten(entries: seq<Entry>, n: nat)
    requires n <= |entries|
  {
    exists i | 0 <= i < n :: entries[i].item.Some?
  }

  /** The first n entries of an object, those without an item left out. */
  function RenderEntries(v: Value, n: nat): Rendering
    requires v.Obj? && n <= |v.entries|
    decreases v, 0, n
  {
    if n == 0 then Rendering("", true)
    else if v.entries[n - 1].item.None? then RenderEntries(v, n - 1)
    else
      var key := (if AnyWritten(v.entries, n - 1) then "," else "") + v.entries[n - 1].key + ":";
      Then(Then(RenderEntries(v, n - 1), Rendering(key, true)), Render(v.entries[n - 1].item.value))
  }

  /** How writing stands: it goes on, the row is full, or a leaf threw. */
  datatype Standing = GoesOn | RowFull | Threw

  /** What is left in `out` once `r` was written to what stood there before. */
  ghost predicate Wrote(before: string, r: Rendering, max: nat, out: string, standing: Standing) {
    var whole := before + r.text;
    && (standing == RowFull <==> |whole| > max)
    && (standing == GoesOn <==> |whole| <= max && r.ok)
    && out == if |whole| > max then whole[..max + 1] else whole
  }

  lemma WroteBoth(before: string, r: Rendering, mid: string, more: Rendering, max: nat, out: string, standing: Standing)
    requires Wrote(before, r, max, mid, GoesOn) && Wrote(mid, more, max, out, standing)
    ensures Wrote(before, Then(r, more), max, out, standing)
  {
    assert before + (r.text + more.text) == before + r.text + more.text;
  }

  lemma WroteEnough(before: string, r: Rendering, max: nat, out: string, standing: Standing, more: Rendering)
    requires Wrote(before, r, max, out, standing) && standing != GoesOn
    ensures Wrote(before, Then(r, more), max, out, standing)
  {
    if r.ok {
      assert before + (r.text + more.text) == before + r.text + more.text;
      assert (before + r.text + more.text)[..max + 1] == (before + r.text)[..max + 1];
    }
  }

  class RowWriter {
    const max: nat
    var out: string

    constructor (max: nat)
      ensures this.max == max && out == ""
    {
      this.max := max;
      out := "";
    }

    method Push(text: string) returns (standing: Standing)
      requires |out| <= max
      modifies this
      ensures Wrote(old(out), Rendering(text, true), max, out, standing)
    {
      if |out| + |text| > max {
        out := out + text[..max - |out| + 1];
        return RowFull;
      }
      out := out + text;
      return GoesOn;
    }

    method Write(v: Value) returns (standing: Standing)
      requires |out| <= max
      modifies this
      ensures Wrote(old(out), Render(v), max, out, standing)
      decreases v, 3
    {
      match v
      case Leaf(json) =>
        if json.None? {
          return Threw;
        }
        standing := Push(json.value);
      case Arr(_) => standing := WriteItems(v);
      case Obj(_) => standing := WriteEntries(v);
    }

    /** One item more, after a comma unless it is the first. */
    method WriteItem(v: Value, index: nat, ghost start: string) returns (standing: Standing)
      requires v.Arr? && index < |v.items| && |out| <= max && Wrote(start, ItemsSoFar(v, index), max, out, GoesOn)
      modifies this
      ensures Wrote(start, ItemsSoFar(v, index + 1), max, out, standing)
      decreases v, 0
    {
      ghost var comma := Rendering(if index > 0 then "," else "", true);
      ghost var mid := out;
      standing := GoesOn;
      if index > 0 { standing := Push(","); }
      WroteBoth(start, ItemsSoFar(v, index), mid, comma, max, out, standing);
      ItemStep(v, index);
      if standing != GoesOn {
        WroteEnough(start, Then(ItemsSoFar(v, index), comma), max, out, standing, Render(v.items[index]));
        return;
      }
      mid := out;
      standing := Write(v.items[index]);
      WroteBoth(start, Then(ItemsSoFar(v, index), comma), mid, Render(v.items[index]), max, out, standing);
    }

    /** The opening bracket and all that is inside. */
    method WriteInsideItems(v: Value) returns (standing: Standing)
      requires v.Arr? && |out| <= max
      modifies this
      ensures Wrote(old(out), ItemsSoFar(v, |v.items|), max, out, standing)
      decreases v, 1
    {
      ghost var start := out;
      standing := Push("[");
      var index := 0;
      while index < |v.items| && standing == GoesOn
        invariant index <= |v.items| && Wrote(start, ItemsSoFar(v, index), max, out, standing)
      {
        standing := WriteItem(v, index, start);
        index := index + 1;
      }
      if standing != GoesOn { ItemsGoOn(start, v, index, max, out, standing); }
    }

    method WriteItems(v: Value) returns (standing: Standing)
      requires v.Arr? && |out| <= max
      modifies this
      ensures Wrote(old(out), Render(v), max, out, standing)
      decreases v, 2
    {
      ghost var start := out;
      ghost var inside, close := ItemsSoFar(v, |v.items|), Rendering("]", true);
      ArrayIsItsItems(v);
      standing := WriteInsideItems(v);
      if standing != GoesOn {
        WroteEnough(start, inside, max, out, standing, close);
        return;
      }
      ghost var mid := out;
      standing := Push("]");
      WroteBoth(start, inside, mid, close, max, out, standing);
    }

    /** One entry more, after a comma unless it is the first that is written. */
    method WriteEntry(v: Value, index: nat, first: bool, ghost start: string) returns (standing: Standing)
      requires v.Obj? && index < |v.entries| && v.entries[index].item.Some? && |out| <= max
      requires first <==> !AnyWritten(v.entries, index)
      requires Wrote(start, EntriesSoFar(v, index), max, out, GoesOn)
      modifies this
      ensures Wrote(start, EntriesSoFar(v, index + 1), max, out, standing)
      decreases v, 0
    {
      var entry := v.entries[index];
      ghost var mid := out;
      var key := (if first then "" else ",") + entry.key + ":";
      standing := Push(key);
      WroteBoth(start, EntriesSoFar(v, index), mid, Rendering(key, true), max, out, standing);
      EntryStep(v, index, key);
      if standing != GoesOn {
        WroteEnough(start, Then(EntriesSoFar(v, index), Rendering(key, true)), max, out, standing, Render(entry.item.value));
        return;
      }
      mid := out;
      standing := Write(entry.item.value);
      WroteBoth(start, Then(EntriesSoFar(v, index), Rendering(key, true)), mid, Render(entry.item.value), max, out, standing);
    }

    /** The opening bracket and all that is inside. */
    method WriteInsideEntries(v: Value) returns (standing: Standing)
      requires v.Obj? && |out| <= max
      modifies this
      ensures Wrote(old(out), EntriesSoFar(v, |v.entries|), max, out, standing)
      decreases v, 1
    {
      ghost var start := out;
      standing := Push("{");
      var index, first := 0, true;
      while index < |v.entries| && standing == GoesOn
        invariant index <= |v.entries| && Wrote(start, EntriesSoFar(v, index), max, out, standing)
        invariant first <==> !AnyWritten(v.entries, index)
      {
        if v.entries[index].item.Some? {
          standing := WriteEntry(v, index, first, start);
          first := false;
        }
        index := index + 1;
      }
      if standing != GoesOn { EntriesGoOn(start, v, index, max, out, standing); }
    }

    method WriteEntries(v: Value) returns (standing: Standing)
      requires v.Obj? && |out| <= max
      modifies this
      ensures Wrote(old(out), Render(v), max, out, standing)
      decreases v, 2
    {
      ghost var start := out;
      ghost var inside, close := EntriesSoFar(v, |v.entries|), Rendering("}", true);
      ObjectIsItsEntries(v);
      standing := WriteInsideEntries(v);
      if standing != GoesOn {
        WroteEnough(start, inside, max, out, standing, close);
        return;
      }
      ghost var mid := out;
      standing := Push("}");
      WroteBoth(start, inside, mid, close, max, out, standing);
    }
  }

  function ItemsSoFar(v: Value, n: nat): Rendering
    requires v.Arr? && n <= |v.items|
  {
    Then(Rendering("[", true), RenderItems(v, n))
  }

  lemma ArrayIsItsItems(v: Value)
    requires v.Arr?
    ensures Render(v) == Then(ItemsSoFar(v, |v.items|), Rendering("]", true))
  {
  }

  lemma ObjectIsItsEntries(v: Value)
    requires v.Obj?
    ensures Render(v) == Then(EntriesSoFar(v, |v.entries|), Rendering("}", true))
  {
  }

  function EntriesSoFar(v: Value, n: nat): Rendering
    requires v.Obj? && n <= |v.entries|
  {
    Then(Rendering("{", true), RenderEntries(v, n))
  }

  lemma ThenIsAssociative(a: Rendering, b: Rendering, c: Rendering)
    ensures Then(Then(a, b), c) == Then(a, Then(b, c))
  {
    assert a.text + b.text + c.text == a.text + (b.text + c.text);
  }

  lemma ItemStep(v: Value, n: nat)
    requires v.Arr? && n < |v.items|
    ensures
      var comma := Rendering(if n > 0 then "," else "", true);
      ItemsSoFar(v, n + 1) == Then(Then(ItemsSoFar(v, n), comma), Render(v.items[n]))
  {
    var open, comma := Rendering("[", true), Rendering(if n > 0 then "," else "", true);
    ThenIsAssociative(open, RenderItems(v, n), comma);
    ThenIsAssociative(open, Then(RenderItems(v, n), comma), Render(v.items[n]));
  }

  lemma {:induction false} ItemsGoOn(start: string, v: Value, n: nat, max: nat, out: string, standing: Standing)
    requires v.Arr? && n <= |v.items| && standing != GoesOn
    requires Wrote(start, ItemsSoFar(v, n), max, out, standing)
    ensures Wrote(start, ItemsSoFar(v, |v.items|), max, out, standing)
    decreases |v.items| - n
  {
    if n < |v.items| {
      ItemStep(v, n);
      var comma := Rendering(if n > 0 then "," else "", true);
      var so := ItemsSoFar(v, n);
      WroteEnough(start, so, max, out, standing, comma);
      WroteEnough(start, Then(so, comma), max, out, standing, Render(v.items[n]));
      ItemsGoOn(start, v, n + 1, max, out, standing);
    }
  }

  lemma EntryStep(v: Value, n: nat, key: string)
    requires v.Obj? && n < |v.entries| && v.entries[n].item.Some?
    requires key == (if AnyWritten(v.entries, n) then "," else "") + v.entries[n].key + ":"
    ensures EntriesSoFar(v, n + 1) == Then(Then(EntriesSoFar(v, n), Rendering(key, true)), Render(v.entries[n].item.value))
  {
    var open := Rendering("{", true);
    ThenIsAssociative(open, RenderEntries(v, n), Rendering(key, true));
    ThenIsAssociative(open, Then(RenderEntries(v, n), Rendering(key, true)), Render(v.entries[n].item.value));
  }

  lemma {:induction false} EntriesGoOn(start: string, v: Value, n: nat, max: nat, out: string, standing: Standing)
    requires v.Obj? && n <= |v.entries| && standing != GoesOn
    requires Wrote(start, EntriesSoFar(v, n), max, out, standing)
    ensures Wrote(start, EntriesSoFar(v, |v.entries|), max, out, standing)
    decreases |v.entries| - n
  {
    if n < |v.entries| {
      if v.entries[n].item.Some? {
        var key := (if AnyWritten(v.entries, n) then "," else "") + v.entries[n].key + ":";
        EntryStep(v, n, key);
        var so := EntriesSoFar(v, n);
        WroteEnough(start, so, max, out, standing, Rendering(key, true));
        WroteEnough(start, Then(so, Rendering(key, true)), max, out, standing, Render(v.entries[n].item.value));
      }
      EntriesGoOn(start, v, n + 1, max, out, standing);
    }
  }

  /** The first max + 1 characters of the full rendering, or all of it; `None` if a leaf before that throws. */
  function Bounded(v: Value, max: nat): Option<string> {
    var r := Render(v);
    if |r.text| > max then Some(r.text[..max + 1]) else if r.ok then Some(r.text) else None
  }

  /** The bounded writer refines the unbounded one. */
  method BoundedJson(data: Value, max: nat) returns (out: Option<string>)
    ensures out == Bounded(data, max)
  {
    var writer := new RowWriter(max);
    var standing := writer.Write(data);
    assert "" + Render(data).text == Render(data).text;
    return if standing == Threw then None else Some(writer.out);
  }

  // ---- One line

  const USERLAND_ROW_MAX: nat := 1024
  const RETURN: char := '\U{23CE}'
  const ELLIPSIS: char := '\U{2026}'
  const PEN: char := '\U{270E}'

  predicate IsBreak(c: char) {
    c == '\n' || c == '\r' || c == '\U{2028}' || c == '\U{2029}'
  }

  /** Control characters, both blocks; tab and line feed are not among those dropped. */
  predicate IsControl(c: char) {
    c <= '\U{8}' || '\U{b}' <= c <= '\U{1f}' || '\U{7f}' <= c <= '\U{9f}'
  }

  /** Every line break, `\r\n` being one, shown as ⏎. */
  function BreaksShown(text: string): string {
    if text == "" then ""
    else if text[0] == '\r' && |text| > 1 && text[1] == '\n' then [RETURN] + BreaksShown(text[2..])
    else [if IsBreak(text[0]) then RETURN else text[0]] + BreaksShown(text[1..])
  }

  lemma {:induction false} BreaksShownIsOneLine(text: string)
    ensures |BreaksShown(text)| <= |text| && forall c <- BreaksShown(text) :: !IsBreak(c)
    ensures (forall c <- text :: !IsBreak(c)) ==> BreaksShown(text) == text
  {
    if text != "" {
      assert text[0] in text && text == [text[0]] + text[1..];
      if text[0] == '\r' && |text| > 1 && text[1] == '\n' {
        BreaksShownIsOneLine(text[2..]);
      } else {
        BreaksShownIsOneLine(text[1..]);
      }
    }
  }

  function Sanitized(text: string): string {
    if text == "" then ""
    else if IsControl(text[0]) then Sanitized(text[1..])
    else [text[0]] + Sanitized(text[1..])
  }

  lemma {:induction false} SanitizedIsClean(text: string)
    ensures |Sanitized(text)| <= |text| && forall c <- Sanitized(text) :: !IsControl(c) && c in text
    ensures (forall c <- text :: !IsControl(c)) ==> Sanitized(text) == text
  {
    if text != "" {
      SanitizedIsClean(text[1..]);
      assert text == [text[0]] + text[1..];
    }
  }

  function OneLine(text: string): string {
    Sanitized(BreaksShown(text))
  }

  predicate Clean(text: string) {
    forall c <- text :: !IsBreak(c) && !IsControl(c)
  }

  /** Whatever goes in, what comes out is one clean line, no longer than it was; a clean line stays as it is. */
  lemma OneLineIsClean(text: string)
    ensures Clean(OneLine(text)) && |OneLine(text)| <= |text|
    ensures OneLine(text) == text <==> Clean(text)
    ensures OneLine(OneLine(text)) == OneLine(text)
  {
    BreaksShownIsOneLine(text);
    SanitizedIsClean(BreaksShown(text));
    BreaksShownIsOneLine(OneLine(text));
    SanitizedIsClean(BreaksShown(OneLine(text)));
  }

  /** A line feed between the two belongs to the return before it. */
  predicate SplitsABreak(a: string, b: string) {
    a != "" && b != "" && a[|a| - 1] == '\r' && b[0] == '\n'
  }

  lemma Joined(a: string, b: string, c: string)
    ensures a + b + c == a + (b + c)
  {
  }

  lemma BreaksStep(c: char, rest: string)
    requires !SplitsABreak([c], rest)
    ensures BreaksShown([c] + rest) == [if IsBreak(c) then RETURN else c] + BreaksShown(rest)
  {
    assert ([c] + rest)[0] == c && ([c] + rest)[1..] == rest;
  }

  lemma BreakPairStep(rest: string)
    ensures BreaksShown("\r\n" + rest) == [RETURN] + BreaksShown(rest)
  {
    assert ("\r\n" + rest)[0] == '\r' && ("\r\n" + rest)[1] == '\n' && ("\r\n" + rest)[2..] == rest;
  }

  lemma {:induction false} BreaksOfBoth(a: string, b: string)
    requires !SplitsABreak(a, b)
    ensures BreaksShown(a + b) == BreaksShown(a) + BreaksShown(b)
    decreases |a|
  {
    if a == "" {
      assert a + b == b;
    } else if SplitsABreak([a[0]], a[1..]) {
      var rest := a[2..];
      BreaksOfBoth(rest, b);
      assert a == "\r\n" + rest;
      Joined("\r\n", rest, b);
      BreakPairStep(rest);
      BreakPairStep(rest + b);
      Joined([RETURN], BreaksShown(rest), BreaksShown(b));
    } else {
      var c, rest := a[0], a[1..];
      BreaksOfBoth(rest, b);
      assert a == [c] + rest;
      Joined([c], rest, b);
      BreaksStep(c, rest);
      NotSplitLater(c, rest, b);
      BreaksStep(c, rest + b);
      Joined([if IsBreak(c) then RETURN else c], BreaksShown(rest), BreaksShown(b));
    }
  }

  lemma NotSplitLater(c: char, rest: string, b: string)
    requires !SplitsABreak([c], rest) && !SplitsABreak([c] + rest, b)
    ensures !SplitsABreak([c], rest + b)
  {
    if rest == "" {
      assert rest + b == b && [c] + rest == [c];
    } else {
      assert (rest + b)[0] == rest[0];
    }
  }

  lemma SanitizedStep(c: char, rest: string)
    ensures Sanitized([c] + rest) == if IsControl(c) then Sanitized(rest) else [c] + Sanitized(rest)
  {
    assert ([c] + rest)[1..] == rest;
  }

  lemma {:induction false} SanitizedOfBoth(a: string, b: string)
    ensures Sanitized(a + b) == Sanitized(a) + Sanitized(b)
    decreases |a|
  {
    if a == "" {
      assert a + b == b;
    } else {
      var c, rest := a[0], a[1..];
      SanitizedOfBoth(rest, b);
      assert a == [c] + rest;
      Joined([c], rest, b);
      SanitizedStep(c, rest);
      SanitizedStep(c, rest + b);
      Joined([c], Sanitized(rest), Sanitized(b));
    }
  }

  /**
   * Character by character: a break is shown as one sign, a control character dropped, and every other
   * character kept where it is.
   */
  lemma OneLineGoesByCharacter(a: string, b: string, c: char)
    ensures !SplitsABreak(a, b) ==> OneLine(a + b) == OneLine(a) + OneLine(b)
    ensures OneLine([c]) == if IsBreak(c) then "\U{23CE}" else if IsControl(c) then "" else [c]
    ensures OneLine("\r\n") == "\U{23CE}"
  {
    if !SplitsABreak(a, b) {
      BreaksOfBoth(a, b);
      SanitizedOfBoth(BreaksShown(a), BreaksShown(b));
    }
    assert [c][1..] == "" && [RETURN][1..] == "";
    assert BreaksShown([c]) == [if IsBreak(c) then RETURN else c];
    assert "\r\n"[2..] == "";
    assert BreaksShown("\r\n") == [RETURN] + BreaksShown("") == [RETURN];
    assert Sanitized([RETURN]) == [RETURN];
  }

  function Cut(row: string): (r: string)
    ensures |r| <= USERLAND_ROW_MAX
  {
    if |row| > USERLAND_ROW_MAX then row[..USERLAND_ROW_MAX - 1] + [ELLIPSIS] else row
  }

  datatype Event = Event(level: string, msg: string, data: Option<Value>, attempt: nat, partition: Option<string>)

  function Head(e: Event): string {
    [PEN] + " " + (if e.level == "info" then "" else e.level + ": ") + e.msg
  }

  function Tail(e: Event): string {
    (if e.attempt > 1 then " (attempt " + Dec(e.attempt) + ")" else "")
    + (if e.partition.Some? then " [partition " + e.partition.value + "]" else "")
  }

  const NOT_SERIALIZABLE := " [data not serializable]"

  /** The row, as far as it is built: only what it can show of the data is written. */
  method UserlandRow(e: Event) returns (row: string)
    ensures |row| <= USERLAND_ROW_MAX && Clean(row)
    ensures row == Cut(OneLine(Head(e) + DataShown(e) + Tail(e)))
  {
    var head, data := Head(e), "";
    if e.data.Some? && |head| < USERLAND_ROW_MAX {
      var json := BoundedJson(e.data.value, USERLAND_ROW_MAX - |head|);
      data := if json.Some? then " " + json.value else NOT_SERIALIZABLE;
    }
    row := OneLine(head + data + Tail(e));
    OneLineIsClean(head + data + Tail(e));
    if |row| > USERLAND_ROW_MAX { row := row[..USERLAND_ROW_MAX - 1] + [ELLIPSIS]; }
  }

  /**
   * All there is to show: the level unless it is info, the message, the data, the attempt from the second
   * on, and the partition.
   */
  function Everything(e: Event): string {
    var level := if e.level == "info" then "" else e.level + ": ";
    var attempt := if e.attempt > 1 then " (attempt " + Dec(e.attempt) + ")" else "";
    var partition := if e.partition.Some? then " [partition " + e.partition.value + "]" else "";
    "\U{270E} " + level + e.msg + AllData(e) + attempt + partition
  }

  function AllData(e: Event): string {
    if e.data.Some? then " " + Render(e.data.value).text else ""
  }

  lemma HeadAndTailAreThere(e: Event)
    ensures Head(e) + AllData(e) + Tail(e) == Everything(e)
  {
    var attempt := if e.attempt > 1 then " (attempt " + Dec(e.attempt) + ")" else "";
    var partition := if e.partition.Some? then " [partition " + e.partition.value + "]" else "";
    assert [PEN] + " " == "\U{270E} ";
    Joined(Head(e) + AllData(e), attempt, partition);
  }

  lemma ShortDataIsThere(e: Event)
    requires |Head(e)| + |AllData(e)| <= USERLAND_ROW_MAX && (e.data.Some? ==> Render(e.data.value).ok)
    ensures DataShown(e) == AllData(e)
  {
  }

  /** If that is one clean line that fits the row, it is the row. */
  lemma WhatFitsIsShown(e: Event)
    requires Clean(Everything(e)) && |Everything(e)| <= USERLAND_ROW_MAX && (e.data.Some? ==> Render(e.data.value).ok)
    ensures Cut(OneLine(Head(e) + DataShown(e) + Tail(e))) == Everything(e)
  {
    HeadAndTailAreThere(e);
    ShortDataIsThere(e);
    OneLineIsClean(Everything(e));
  }

  function DataShown(e: Event): string {
    if e.data.None? || |Head(e)| >= USERLAND_ROW_MAX then ""
    else
      var json := Bounded(e.data.value, USERLAND_ROW_MAX - |Head(e)|);
      if json.Some? then " " + json.value else NOT_SERIALIZABLE
  }

  /** The row of an event whose data is written out in full. */
  function FullRow(e: Event): string
    requires e.data.Some?
  {
    Cut(OneLine(Head(e) + " " + Render(e.data.value).text + Tail(e)))
  }

  lemma CutSeesOnlyTheStart(a: string, b: string, n: nat)
    requires USERLAND_ROW_MAX < n <= |a| && n <= |b| && a[..n] == b[..n]
    ensures Cut(a) == Cut(b)
  {
    assert a[..USERLAND_ROW_MAX - 1] == a[..n][..USERLAND_ROW_MAX - 1];
    assert b[..USERLAND_ROW_MAX - 1] == b[..n][..USERLAND_ROW_MAX - 1];
  }

  /** The message alone fills the row to the last character: the one row that says nothing of its data. */
  predicate JustFits(e: Event) {
    |Head(e)| == USERLAND_ROW_MAX && Tail(e) == "" && Head(e)[USERLAND_ROW_MAX - 1] != ELLIPSIS
  }

  lemma ShortHeadRow(e: Event)
    requires e.data.Some? && Render(e.data.value).ok && |Head(e)| < USERLAND_ROW_MAX
    requires Clean(Head(e)) && Clean(Render(e.data.value).text) && Clean(Tail(e))
    ensures Cut(OneLine(Head(e) + DataShown(e) + Tail(e))) == FullRow(e)
  {
    var head, json, tail := Head(e), Render(e.data.value).text, Tail(e);
    var full, shown := head + " " + json + tail, head + DataShown(e) + tail;
    var max := USERLAND_ROW_MAX - |head|;
    if |json| > max {
      var bounded := json[..max + 1];
      assert DataShown(e) == " " + bounded;
      assert shown == head + " " + bounded + tail;
      assert Clean(full) && Clean(shown);
      OneLineIsClean(full);
      OneLineIsClean(shown);
      var n := |head| + 1 + |bounded|;
      assert full[..n] == head + " " + bounded && shown[..n] == head + " " + bounded;
      CutSeesOnlyTheStart(full, shown, n);
    } else {
      assert DataShown(e) == " " + json;
      assert head + (" " + json) == head + " " + json;
    }
  }

  /** What follows is cut off anyway, but for a row that ends exactly at the limit. */
  lemma CutAfterHead(head: string, rest: string, more: string)
    requires |head| >= USERLAND_ROW_MAX && more != ""
    ensures Cut(head + more) == Cut(head + rest) <==>
            !(|head| == USERLAND_ROW_MAX && rest == "" && head[USERLAND_ROW_MAX - 1] != ELLIPSIS)
  {
    var n := USERLAND_ROW_MAX - 1;
    assert (head + more)[..n] == head[..n] && (head + rest)[..n] == head[..n];
    if |head + rest| == USERLAND_ROW_MAX {
      assert head + rest == head && head == head[..n] + [head[n]];
    }
  }

  lemma LongHeadRow(e: Event)
    requires e.data.Some? && |Head(e)| >= USERLAND_ROW_MAX
    requires Clean(Head(e)) && Clean(Render(e.data.value).text) && Clean(Tail(e))
    ensures Cut(OneLine(Head(e) + DataShown(e) + Tail(e))) == FullRow(e) <==> !JustFits(e)
  {
    var head, json, tail := Head(e), Render(e.data.value).text, Tail(e);
    var more := " " + json + tail;
    assert head + DataShown(e) + tail == head + tail;
    assert head + " " + json + tail == head + more;
    OneLineIsClean(head + more);
    OneLineIsClean(head + tail);
    CutAfterHead(head, tail, more);
  }

  /**
   * Writing only a part of the data shows the very row that writing all of it would, where no character
   * of the line is one to drop — but for a message that fills the row to its last character.
   */
  lemma BoundedRowIsTheFullRowIff(e: Event)
    requires e.data.Some? && Render(e.data.value).ok
    requires Clean(Head(e)) && Clean(Render(e.data.value).text) && Clean(Tail(e))
    ensures Cut(OneLine(Head(e) + DataShown(e) + Tail(e))) == FullRow(e) <==> !JustFits(e)
  {
    if |Head(e)| < USERLAND_ROW_MAX {
      ShortHeadRow(e);
    } else {
      LongHeadRow(e);
    }
  }
}
