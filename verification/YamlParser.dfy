/** The indentation parser: mutually recursive loops over lexed lines. The functions are the
    specification; the methods are the loops, and each is proved equal to its function. */
module YamlParser {
  import opened Options
  import opened YamlText

  type Parsed<+T> = Result<(T, nat), SeedError>

  predicate IsDash(text: string) {
    |text| >= 2 && text[0] == '-' && text[1] == ' '
  }

  /** `result[key] = value`: overwriting keeps the position of the first insertion. */
  function Put(entries: seq<Entry>, key: string, value: Value): seq<Entry> {
    if entries == [] then [Entry(key, value)]
    else if entries[0].key == key then [Entry(key, value)] + entries[1..]
    else [entries[0]] + Put(entries[1..], key, value)
  }

  /** `item.update(nested)`. */
  function PutAll(entries: seq<Entry>, more: seq<Entry>): seq<Entry> {
    if more == [] then entries
    else Put(PutAll(entries, more[..|more| - 1]), more[|more| - 1].key, more[|more| - 1].value)
  }

  predicate Deeper(lines: seq<YamlLine>, index: nat, indent: nat) {
    index < |lines| && lines[index].indent > indent
  }

  function ParseBlock(lines: seq<YamlLine>, index: nat, indent: nat): (r: Parsed<Value>)
    requires index <= |lines|
    ensures r.Ok? ==> index <= r.value.1 <= |lines| && (r.value.0.Map? || r.value.0.List?)
    ensures r.Ok? && index < |lines| && lines[index].indent == indent ==> index < r.value.1
    decreases |lines| - index, 3
  {
    if index >= |lines| || lines[index].indent < indent then Ok((Map([]), index))
    else if IsDash(lines[index].text) then AsList(ParseList(lines, index, indent, []))
    else AsMap(ParseMap(lines, index, indent, []))
  }

  function AsList(r: Parsed<seq<Value>>): Parsed<Value> {
    match r
    case Err(e) => Err(e)
    case Ok((items, end)) => Ok((List(items), end))
  }

  function AsMap(r: Parsed<seq<Entry>>): Parsed<Value> {
    match r
    case Err(e) => Err(e)
    case Ok((entries, end)) => Ok((Map(entries), end))
  }

  /** Whether the map (or list) loop at `indent` takes the line at `index`. */
  predicate Continues(lines: seq<YamlLine>, index: nat, indent: nat, dash: bool) {
    index < |lines| && lines[index].indent == indent && IsDash(lines[index].text) == dash
  }

  function ParseMap(lines: seq<YamlLine>, index: nat, indent: nat, acc: seq<Entry>): (r: Parsed<seq<Entry>>)
    requires index <= |lines|
    ensures r.Ok? ==> index <= r.value.1 <= |lines|
    ensures r.Ok? && Continues(lines, index, indent, false) ==> index < r.value.1
    decreases |lines| - index, 2
  {
    if !Continues(lines, index, indent, false) then Ok((acc, index))
    else
      match ParseEntry(lines, index, indent)
      case Err(e) => Err(e)
      case Ok((entry, next)) => ParseMap(lines, next, indent, Put(acc, entry.key, entry.value))
  }

  /** One round of the map loop: a key, and its scalar, nested block or empty object. */
  function ParseEntry(lines: seq<YamlLine>, index: nat, indent: nat): (r: Parsed<Entry>)
    requires index < |lines|
    ensures r.Ok? ==> index < r.value.1 <= |lines|
    decreases |lines| - index, 1
  {
    match SplitKeyValue(lines[index].text)
    case Err(e) => Err(e)
    case Ok((key, raw)) =>
      if raw != "" then Ok((Entry(key, ParseScalar(raw)), index + 1))
      else if Deeper(lines, index + 1, indent) then
        match ParseBlock(lines, index + 1, lines[index + 1].indent)
        case Err(e) => Err(e)
        case Ok((value, end)) => Ok((Entry(key, value), end))
      else Ok((Entry(key, Map([])), index + 1))
  }

  function ParseList(lines: seq<YamlLine>, index: nat, indent: nat, acc: seq<Value>): (r: Parsed<seq<Value>>)
    requires index <= |lines|
    ensures r.Ok? ==> index <= r.value.1 <= |lines|
    ensures r.Ok? && Continues(lines, index, indent, true) ==> index < r.value.1
    decreases |lines| - index, 2
  {
    if !Continues(lines, index, indent, true) then Ok((acc, index))
    else
      match ParseItem(lines, index, indent)
      case Err(e) => Err(e)
      case Ok((item, next)) => ParseList(lines, next, indent, acc + [item])
  }

  /** One round of the list loop: a nested block, an inline object, or a scalar. */
  function ParseItem(lines: seq<YamlLine>, index: nat, indent: nat): (r: Parsed<Value>)
    requires index < |lines| && IsDash(lines[index].text)
    ensures r.Ok? ==> index < r.value.1 <= |lines|
    decreases |lines| - index, 1
  {
    var text := Strip(lines[index].text[2..]);
    if text == "" then
      if Deeper(lines, index + 1, indent) then ParseBlock(lines, index + 1, lines[index + 1].indent)
      else Ok((Null, index + 1))
    else if LooksLikeInlineMapping(text) then
      match SplitKeyValue(text)
      case Err(e) => Err(e)
      case Ok((key, raw)) =>
        var head := [Entry(key, if raw != "" then ParseScalar(raw) else Map([]))];
        if Deeper(lines, index + 1, indent) then
          match ParseBlock(lines, index + 1, lines[index + 1].indent)
          case Err(e) => Err(e)
          case Ok((nested, end)) =>
            if nested.Map? then Ok((Map(PutAll(head, nested.entries)), end)) else Err(ContinuationNotObject)
        else Ok((Map(head), index + 1))
    else Ok((ParseScalar(text), index + 1))
  }

  function ParseLines(lines: seq<YamlLine>): Result<Value, SeedError> {
    if lines == [] then Ok(Map([]))
    else
      match ParseBlock(lines, 0, lines[0].indent)
      case Err(e) => Err(e)
      case Ok((value, end)) => if end == |lines| then Ok(value) else Err(Unparsed(lines[end].text))
  }

  function ParseText(text: string): Result<Value, SeedError> {
    match LexLines(SplitLines(text))
    case Err(e) => Err(e)
    case Ok(lines) => ParseLines(lines)
  }

  // ------------------------------------------------------------- the loops

  /** `_parse_simple_yaml`. */
  method ParseSimpleYaml(text: string) returns (r: Result<Value, SeedError>)
    ensures r == ParseText(text)
  {
    var lexed := YamlLines(text);
    if lexed.Err? {
      return Err(lexed.error);
    }
    var lines := lexed.value;
    if lines == [] {
      return Ok(Map([]));
    }
    var parsed := ParseYamlBlock(lines, 0, lines[0].indent);
    if parsed.Err? {
      return Err(parsed.error);
    }
    var (value, index) := parsed.value;
    if index != |lines| {
      return Err(Unparsed(lines[index].text));
    }
    return Ok(value);
  }

  method ParseYamlBlock(lines: seq<YamlLine>, index: nat, indent: nat) returns (r: Parsed<Value>)
    requires index <= |lines|
    ensures r == ParseBlock(lines, index, indent)
    decreases |lines| - index, 3
  {
    if index >= |lines| {
      return Ok((Map([]), index));
    }
    if lines[index].indent < indent {
      return Ok((Map([]), index));
    }
    if IsDash(lines[index].text) {
      var list := ParseYamlList(lines, index, indent);
      if list.Err? {
        return Err(list.error);
      }
      return Ok((List(list.value.0), list.value.1));
    }
    var entries := ParseYamlMap(lines, index, indent);
    if entries.Err? {
      return Err(entries.error);
    }
    return Ok((Map(entries.value.0), entries.value.1));
  }

  method ParseYamlMap(lines: seq<YamlLine>, start: nat, indent: nat) returns (r: Parsed<seq<Entry>>)
    requires start <= |lines|
    ensures r == ParseMap(lines, start, indent, [])
    decreases |lines| - start, 2
  {
    hide SplitKeyValue, ParseScalar, ParseBlock, Put;
    var result: seq<Entry> := [];
    var index := start;
    while index < |lines|
      invariant start <= index <= |lines|
      invariant ParseMap(lines, start, indent, []) == ParseMap(lines, index, indent, result)
      decreases |lines| - index
    {
      var line := lines[index];
      if line.indent < indent {
        break;
      }
      if line.indent != indent || IsDash(line.text) {
        break;
      }
      var split := SplitKeyValue(line.text);
      if split.Err? {
        return Err(split.error);
      }
      var (key, rawValue) := split.value;
      index := index + 1;
      var value;
      if rawValue == "" {
        if index < |lines| && lines[index].indent > indent {
          var block := ParseYamlBlock(lines, index, lines[index].indent);
          if block.Err? {
            return Err(block.error);
          }
          value, index := block.value.0, block.value.1;
        } else {
          value := Map([]);
        }
      } else {
        value := ParseScalar(rawValue);
      }
      result := Put(result, key, value);
    }
    return Ok((result, index));
  }

  method ParseYamlList(lines: seq<YamlLine>, start: nat, indent: nat) returns (r: Parsed<seq<Value>>)
    requires start <= |lines|
    ensures r == ParseList(lines, start, indent, [])
    decreases |lines| - start, 2
  {
    hide SplitKeyValue, ParseScalar, ParseBlock, PutAll, Strip, LooksLikeInlineMapping;
    var result: seq<Value> := [];
    var index := start;
    while index < |lines|
      invariant start <= index <= |lines|
      invariant ParseList(lines, start, indent, []) == ParseList(lines, index, indent, result)
      decreases |lines| - index
    {
      var line := lines[index];
      if line.indent < indent {
        break;
      }
      if line.indent != indent || !IsDash(line.text) {
        break;
      }
      var itemText := Strip(line.text[2..]);
      index := index + 1;
      var item;
      if itemText == "" {
        if index < |lines| && lines[index].indent > indent {
          var block := ParseYamlBlock(lines, index, lines[index].indent);
          if block.Err? {
            return Err(block.error);
          }
          item, index := block.value.0, block.value.1;
        } else {
          item := Null;
        }
      } else if LooksLikeInlineMapping(itemText) {
        var split := SplitKeyValue(itemText);
        if split.Err? {
          return Err(split.error);
        }
        var (key, rawValue) := split.value;
        var entries := [Entry(key, if rawValue != "" then ParseScalar(rawValue) else Map([]))];
        if index < |lines| && lines[index].indent > indent {
          var block := ParseYamlBlock(lines, index, lines[index].indent);
          if block.Err? {
            return Err(block.error);
          }
          index := block.value.1;
          if !block.value.0.Map? {
            return Err(ContinuationNotObject);
          }
          entries := PutAll(entries, block.value.0.entries);
        }
        item := Map(entries);
      } else {
        item := ParseScalar(itemText);
      }
      result := result + [item];
    }
    return Ok((result, index));
  }

  // ------------------------------------------------------------- what a call consumes

  /** A block call made as the code makes them, at the indent of its first line, strictly
      advances and takes only lines at or deeper than that indent. */
  lemma {:induction false} BlockConsumes(lines: seq<YamlLine>, index: nat, indent: nat)
    requires index < |lines| && lines[index].indent == indent && ParseBlock(lines, index, indent).Ok?
    ensures index < ParseBlock(lines, index, indent).value.1 <= |lines|
    ensures forall k :: index <= k < ParseBlock(lines, index, indent).value.1 ==> lines[k].indent >= indent
    decreases |lines| - index, 3
  {
    if IsDash(lines[index].text) {
      ListConsumes(lines, index, indent, []);
    } else {
      MapConsumes(lines, index, indent, []);
    }
  }

  lemma {:induction false} MapConsumes(lines: seq<YamlLine>, index: nat, indent: nat, acc: seq<Entry>)
    requires index <= |lines| && ParseMap(lines, index, indent, acc).Ok?
    ensures forall k :: index <= k < ParseMap(lines, index, indent, acc).value.1 ==> lines[k].indent >= indent
    decreases |lines| - index, 2
  {
    if Continues(lines, index, indent, false) {
      EntryConsumes(lines, index, indent);
      hide ParseEntry, Put;
      var (entry, next) := ParseEntry(lines, index, indent).value;
      MapConsumes(lines, next, indent, Put(acc, entry.key, entry.value));
    }
  }

  lemma {:induction false} EntryConsumes(lines: seq<YamlLine>, index: nat, indent: nat)
    requires index < |lines| && lines[index].indent >= indent && ParseEntry(lines, index, indent).Ok?
    ensures forall k :: index <= k < ParseEntry(lines, index, indent).value.1 ==> lines[k].indent >= indent
    decreases |lines| - index, 1
  {
    hide SplitKeyValue, ParseScalar, ParseBlock;
    if ParseEntry(lines, index, indent).value.1 > index + 1 {
      BlockConsumes(lines, index + 1, lines[index + 1].indent);
    }
  }

  lemma {:induction false} ItemConsumes(lines: seq<YamlLine>, index: nat, indent: nat)
    requires index < |lines| && lines[index].indent >= indent && IsDash(lines[index].text)
    requires ParseItem(lines, index, indent).Ok?
    ensures forall k :: index <= k < ParseItem(lines, index, indent).value.1 ==> lines[k].indent >= indent
    decreases |lines| - index, 1
  {
    hide Strip, LooksLikeInlineMapping, SplitKeyValue, ParseScalar, ParseBlock, PutAll;
    if ParseItem(lines, index, indent).value.1 > index + 1 {
      BlockConsumes(lines, index + 1, lines[index + 1].indent);
    }
  }

  lemma {:induction false} ListConsumes(lines: seq<YamlLine>, index: nat, indent: nat, acc: seq<Value>)
    requires index <= |lines| && ParseList(lines, index, indent, acc).Ok?
    ensures forall k :: index <= k < ParseList(lines, index, indent, acc).value.1 ==> lines[k].indent >= indent
    decreases |lines| - index, 2
  {
    if Continues(lines, index, indent, true) {
      ItemConsumes(lines, index, indent);
      hide ParseItem;
      var (item, next) := ParseItem(lines, index, indent).value;
      ListConsumes(lines, next, indent, acc + [item]);
    }
  }

  /** The lines of a window, reparsed on their own. */
  ghost predicate Window(lines: seq<YamlLine>, a: nat, b: nat, part: seq<YamlLine>) {
    a <= b <= |lines| && part == lines[a..b]
  }

  /** The same result, with the end index counted from the window's start. */
  function Shifted<T>(r: Parsed<T>, a: nat): Parsed<T>
    requires r.Ok? ==> r.value.1 >= a
  {
    match r
    case Err(e) => Err(e)
    case Ok((value, end)) => Ok((value, end - a))
  }

  /** The result depends only on the consumed lines: cutting away everything before the call and
      anything after its last line changes nothing but the offset. */
  lemma {:induction false} BlockWindow(lines: seq<YamlLine>, index: nat, indent: nat, a: nat, b: nat, part: seq<YamlLine>)
    requires Window(lines, a, b, part) && a <= index <= b
    requires ParseBlock(lines, index, indent).Ok? && ParseBlock(lines, index, indent).value.1 <= b
    requires index < |lines| && lines[index].indent == indent
    ensures ParseBlock(part, index - a, indent) == Shifted(ParseBlock(lines, index, indent), a)
    decreases |lines| - index, 3
  {
    hide ParseList, ParseMap;
    assert part[index - a] == lines[index];
    assert index - a < |part|;
    if IsDash(lines[index].text) {
      assert ParseBlock(lines, index, indent) == AsList(ParseList(lines, index, indent, []));
      ListWindow(lines, index, indent, [], a, b, part);
      assert ParseBlock(part, index - a, indent) == AsList(ParseList(part, index - a, indent, []));
    } else {
      assert ParseBlock(lines, index, indent) == AsMap(ParseMap(lines, index, indent, []));
      MapWindow(lines, index, indent, [], a, b, part);
      assert ParseBlock(part, index - a, indent) == AsMap(ParseMap(part, index - a, indent, []));
    }
  }

  lemma {:induction false} MapWindow(lines: seq<YamlLine>, index: nat, indent: nat, acc: seq<Entry>, a: nat, b: nat, part: seq<YamlLine>)
    requires Window(lines, a, b, part) && a <= index <= b
    requires ParseMap(lines, index, indent, acc).Ok? && ParseMap(lines, index, indent, acc).value.1 <= b
    ensures ParseMap(part, index - a, indent, acc) == Shifted(ParseMap(lines, index, indent, acc), a)
    decreases |lines| - index, 2
  {
    if Continues(lines, index, indent, false) {
      var (entry, next) := ParseEntry(lines, index, indent).value;
      assert part[index - a] == lines[index];
      EntryWindow(lines, index, indent, a, b, part);
      MapWindow(lines, next, indent, Put(acc, entry.key, entry.value), a, b, part);
    } else if index < b {
      assert part[index - a] == lines[index];
    }
  }

  lemma {:induction false} EntryWindow(lines: seq<YamlLine>, index: nat, indent: nat, a: nat, b: nat, part: seq<YamlLine>)
    requires Window(lines, a, b, part) && a <= index < b
    requires ParseEntry(lines, index, indent).Ok? && ParseEntry(lines, index, indent).value.1 <= b
    ensures ParseEntry(part, index - a, indent) == Shifted(ParseEntry(lines, index, indent), a)
    decreases |lines| - index, 1
  {
    hide SplitKeyValue, ParseScalar, ParseBlock;
    assert part[index - a] == lines[index];
    var (key, raw) := SplitKeyValue(lines[index].text).value;
    if index + 1 < b {
      assert part[index + 1 - a] == lines[index + 1];
    }
    if raw == "" && Deeper(lines, index + 1, indent) {
      BlockConsumes(lines, index + 1, lines[index + 1].indent);
      BlockWindow(lines, index + 1, lines[index + 1].indent, a, b, part);
    }
  }

  lemma {:induction false} ListWindow(lines: seq<YamlLine>, index: nat, indent: nat, acc: seq<Value>, a: nat, b: nat, part: seq<YamlLine>)
    requires Window(lines, a, b, part) && a <= index <= b
    requires ParseList(lines, index, indent, acc).Ok? && ParseList(lines, index, indent, acc).value.1 <= b
    ensures ParseList(part, index - a, indent, acc) == Shifted(ParseList(lines, index, indent, acc), a)
    decreases |lines| - index, 2
  {
    if Continues(lines, index, indent, true) {
      var (item, next) := ParseItem(lines, index, indent).value;
      assert part[index - a] == lines[index];
      ItemWindow(lines, index, indent, a, b, part);
      ListWindow(lines, next, indent, acc + [item], a, b, part);
    } else if index < b {
      assert part[index - a] == lines[index];
    }
  }

  lemma {:induction false} ItemWindow(lines: seq<YamlLine>, index: nat, indent: nat, a: nat, b: nat, part: seq<YamlLine>)
    requires Window(lines, a, b, part) && a <= index < b && IsDash(lines[index].text)
    requires part[index - a] == lines[index]
    requires ParseItem(lines, index, indent).Ok? && ParseItem(lines, index, indent).value.1 <= b
    ensures ParseItem(part, index - a, indent) == Shifted(ParseItem(lines, index, indent), a)
    decreases |lines| - index, 1
  {
    hide Strip, LooksLikeInlineMapping, SplitKeyValue, ParseScalar, ParseBlock, PutAll;
    var text := Strip(lines[index].text[2..]);
    if index + 1 < b {
      assert part[index + 1 - a] == lines[index + 1];
    }
    if Deeper(lines, index + 1, indent) && (text == "" || LooksLikeInlineMapping(text)) {
      BlockConsumes(lines, index + 1, lines[index + 1].indent);
      BlockWindow(lines, index + 1, lines[index + 1].indent, a, b, part);
    }
  }

  /** The consumed lines alone give the same value. */
  lemma BlockDependsOnConsumedLines(lines: seq<YamlLine>, index: nat, indent: nat)
    requires index < |lines| && lines[index].indent == indent && ParseBlock(lines, index, indent).Ok?
    ensures var (value, end) := ParseBlock(lines, index, indent).value;
            ParseBlock(lines[index..end], 0, indent) == Ok((value, end - index))
  {
    var end := ParseBlock(lines, index, indent).value.1;
    BlockWindow(lines, index, indent, index, end, lines[index..end]);
  }

  /** The branch for an item without text is never taken on lexed lines: their text is trimmed,
      so a dash is always followed by something. A list directly inside a list is therefore an
      invalid mapping line, not a nested list. */
  lemma NoEmptyItems(text: string)
    requires Trim(text) && IsDash(text)
    ensures Strip(text[2..]) != ""
  {
    var rest := text[2..];
    assert rest != "" && rest[|rest| - 1] == text[|text| - 1];
    assert RStrip(rest) == rest;
    LStripEnds(rest);
  }

  lemma BareDashIsNotAList(indent: nat, rest: seq<YamlLine>)
    ensures ParseBlock([YamlLine(indent, "-")] + rest, 0, indent) == Err(InvalidMapping("-"))
  {
    var lines := [YamlLine(indent, "-")] + rest;
    assert lines[0].text == "-";
    assert ParseEntry(lines, 0, indent).Err?;
  }
}
