/** The canonical printer, and the proof that parsing undoes it. */
module YamlRoundTrip {
  import opened Options
  import opened YamlText
  import opened YamlParser

  // ------------------------------------------------------------- printable trees

  predicate IsScalar(v: Value) {
    v.Null? || v.Bool? || v.Int? || v.Str?
  }

  predicate PrintableScalar(v: Value) {
    IsScalar(v) && (v.Str? ==> forall i :: 0 <= i < |v.s| ==> !IsBreak(v.s[i]))
  }

  /** A key that survives the line as it stands: trimmed, no colon, quote or line break, no
      comment opener, and not a list dash. */
  predicate PrintableKey(k: string) {
    && Trim(k) && !IsDash(k)
    && (forall i :: 0 <= i < |k| ==> k[i] != ':' && !IsQuote(k[i]) && !IsBreak(k[i]))
    && (forall i :: 0 <= i < |k| ==> !OpensComment(k, i))
  }

  predicate PrintableEntries(entries: seq<Entry>) {
    && (forall i :: 0 <= i < |entries| ==> PrintableEntry(entries[i]))
    && (forall i, j :: 0 <= i < j < |entries| ==> entries[i].key != entries[j].key)
  }

  predicate PrintableEntry(e: Entry) {
    PrintableKey(e.key) && PrintableValue(e.value)
  }

  predicate PrintableValue(v: Value) {
    match v
    case Map(entries) => PrintableEntries(entries)
    case List(items) => items != [] && forall i :: 0 <= i < |items| ==> PrintableItem(items[i])
    case _ => PrintableScalar(v)
  }

  /** A list item is a scalar, or an object led by a scalar (or empty-object) entry. */
  predicate PrintableItem(v: Value) {
    match v
    case Map(entries) =>
      entries != [] && PrintableEntries(entries) && (IsScalar(entries[0].value) || entries[0].value == Map([]))
    case List(_) => false
    case _ => PrintableScalar(v)
  }

  // ------------------------------------------------------------- printer

  function PrintNat(n: nat): string {
    var last := [('0' as int + n % 10) as char];
    if n < 10 then last else PrintNat(n / 10) + last
  }

  function PrintInt(i: int): string {
    if i < 0 then "-" + PrintNat(-i) else PrintNat(i)
  }

  function Escape(s: string): string {
    if s == "" then "" else (if s[0] == '\'' then "''" else [s[0]]) + Escape(s[1..])
  }

  function PrintScalar(v: Value): string
    requires IsScalar(v)
  {
    match v
    case Null => "null"
    case Bool(b) => if b then "true" else "false"
    case Int(i) => PrintInt(i)
    case Str(s) => "'" + Escape(s) + "'"
  }

  /** The text of an entry up to the end of its line. */
  function PrintHead(e: Entry): string {
    if IsScalar(e.value) then e.key + ": " + PrintScalar(e.value) else e.key + ":"
  }

  function PrintEntries(entries: seq<Entry>, indent: nat): seq<YamlLine>
    decreases entries, 0
  {
    if entries == [] then [] else PrintEntry(entries[0], indent) + PrintEntries(entries[1..], indent)
  }

  function PrintEntry(e: Entry, indent: nat): seq<YamlLine>
    decreases e, 1
  {
    [YamlLine(indent, PrintHead(e))] + PrintNested(e.value, indent + 2)
  }

  function PrintNested(v: Value, indent: nat): seq<YamlLine>
    decreases v, 0
  {
    match v
    case Map(entries) => PrintEntries(entries, indent)
    case List(items) => PrintItems(items, indent)
    case _ => []
  }

  function PrintItems(items: seq<Value>, indent: nat): seq<YamlLine>
    decreases items, 0
  {
    if items == [] then [] else PrintItem(items[0], indent) + PrintItems(items[1..], indent)
  }

  function PrintItem(v: Value, indent: nat): seq<YamlLine>
    decreases v, 1
  {
    match v
    case Map(entries) =>
      if entries == [] then []
      else [YamlLine(indent, "- " + PrintHead(entries[0]))] + PrintEntries(entries[1..], indent + 2)
    case _ => if IsScalar(v) then [YamlLine(indent, "- " + PrintScalar(v))] else []
  }

  function Spaces(n: nat): (s: string)
    ensures |s| == n && forall i :: 0 <= i < n ==> s[i] == ' '
  {
    if n == 0 then "" else " " + Spaces(n - 1)
  }

  function Render(lines: seq<YamlLine>): string {
    if lines == [] then ""
    else if |lines| == 1 then Spaces(lines[0].indent) + lines[0].text
    else Spaces(lines[0].indent) + lines[0].text + "\n" + Render(lines[1..])
  }

  // ------------------------------------------------------------- scalars

  lemma {:induction false} PrintNatDigits(n: nat)
    ensures PrintNat(n) != "" && forall i :: 0 <= i < |PrintNat(n)| ==> IsDigit(PrintNat(n)[i])
    ensures NatValue(PrintNat(n)) == n
  {
    var last := [('0' as int + n % 10) as char];
    if n < 10 {
      assert NatValue(last) == n by { assert last[..0] == ""; }
    } else {
      PrintNatDigits(n / 10);
      var s := PrintNat(n);
      assert s[..|s| - 1] == PrintNat(n / 10);
    }
  }

  lemma IntRoundTrip(i: int)
    ensures IsIntLiteral(PrintInt(i)) && IntValue(PrintInt(i)) == i
    ensures PrintInt(i) != "" && (IsDigit(PrintInt(i)[0]) || PrintInt(i)[0] == '-')
    ensures IsDigit(PrintInt(i)[|PrintInt(i)| - 1])
    ensures forall k :: 0 <= k < |PrintInt(i)| ==> IsDigit(PrintInt(i)[k]) || PrintInt(i)[k] == '-'
  {
    if i < 0 {
      PrintNatDigits(-i);
      assert Unsigned(PrintInt(i)) == PrintNat(-i);
    } else {
      PrintNatDigits(i);
      assert Unsigned(PrintInt(i)) == PrintNat(i);
    }
  }

  lemma {:induction false} UnescapeEscape(s: string)
    ensures Unescape(Escape(s)) == s
  {
    if s != "" {
      UnescapeEscape(s[1..]);
      if s[0] == '\'' {
        assert Escape(s)[2..] == Escape(s[1..]);
      } else {
        assert Escape(s)[1..] == Escape(s[1..]);
      }
      assert s == [s[0]] + s[1..];
    }
  }

  lemma LowerIsNot(value: string, word: string)
    requires value != "" && word != "" && LowerChar(value[0]) != word[0]
    ensures Lower(value) != word
  {
    assert Lower(value)[0] != word[0];
  }

  /** Text that opens with a digit, a sign or a quote is none of the reserved words. */
  lemma NotReserved(p: string)
    requires p != "" && (IsDigit(p[0]) || p[0] == '-' || p[0] == '\'')
    ensures Lower(p) != "null" && Lower(p) != "none" && Lower(p) != "~" && Lower(p) != "true" && Lower(p) != "false"
  {
    LowerIsNot(p, "null");
    LowerIsNot(p, "none");
    LowerIsNot(p, "~");
    LowerIsNot(p, "true");
    LowerIsNot(p, "false");
  }

  lemma IntScalar(i: int)
    ensures ParseScalar(PrintInt(i)) == Int(i) && Trim(PrintInt(i))
  {
    hide NatValue, Lower, PrintInt, IntValue;
    IntRoundTrip(i);
    NotReserved(PrintInt(i));
  }

  lemma QuotedScalar(s: string)
    ensures ParseScalar("'" + Escape(s) + "'") == Str(s) && Trim("'" + Escape(s) + "'")
  {
    var p := "'" + Escape(s) + "'";
    UnescapeEscape(s);
    NotReserved(p);
    assert p[1..|p| - 1] == Escape(s);
  }

  lemma ScalarRoundTrip(v: Value)
    requires PrintableScalar(v)
    ensures ParseScalar(PrintScalar(v)) == v && Trim(PrintScalar(v))
  {
    var p := PrintScalar(v);
    if v.Int? {
      IntScalar(v.i);
    } else if v.Str? {
      QuotedScalar(v.s);
    } else {
      assert Lower(p) == p;
      if v.Bool? {
        assert p[0] == 't' || p[0] == 'f';
      }
    }
  }

  // ------------------------------------------------------------- one line

  /** A scalar's text opens with no colon outside quotes that could be taken for a key. */
  lemma ScalarIsNotInline(v: Value)
    requires PrintableScalar(v)
    ensures !LooksLikeInlineMapping(PrintScalar(v))
  {
    if v.Int? {
      IntRoundTrip(v.i);
    }
  }

  lemma KeyEnds(k: string, text: string)
    requires PrintableKey(k) && |text| > |k| && text[..|k|] == k && text[|k|] == ':'
    ensures IndexOf(text, ':') == |k|
  {
    forall i | 0 <= i < |k| ensures text[i] != ':' {
      assert text[i] == text[..|k|][i] == k[i];
    }
  }

  lemma HeadText(e: Entry)
    requires PrintableEntry(e)
    ensures var text := PrintHead(e);
            && IndexOf(text, ':') == |e.key| < |text| && text[..|e.key|] == e.key
            && text[|e.key| + 1..] == if IsScalar(e.value) then " " + PrintScalar(e.value) else ""
  {
    var text := PrintHead(e);
    assert text[..|e.key|] == e.key && text[|e.key|] == ':';
    KeyEnds(e.key, text);
  }

  lemma HeadSplits(e: Entry)
    requires PrintableEntry(e)
    ensures SplitKeyValue(PrintHead(e)) == Ok((e.key, if IsScalar(e.value) then PrintScalar(e.value) else ""))
    ensures LooksLikeInlineMapping(PrintHead(e))
  {
    HeadText(e);
    StripTrim(e.key);
    var text := PrintHead(e);
    assert text[|e.key|] in text;
    assert text[0] == text[..|e.key|][0];
    if IsScalar(e.value) {
      ScalarRoundTrip(e.value);
      StripPadded(PrintScalar(e.value));
    }
  }

  lemma HeadTrims(e: Entry)
    requires PrintableEntry(e)
    ensures Trim(PrintHead(e)) && !IsDash(PrintHead(e))
  {
    HeadText(e);
    var text := PrintHead(e);
    assert text[0] == text[..|e.key|][0];
    if |e.key| > 1 {
      assert text[1] == text[..|e.key|][1];
    }
    if IsScalar(e.value) {
      ScalarRoundTrip(e.value);
      assert text[|text| - 1] == text[|e.key| + 1..][|PrintScalar(e.value)|];
    }
  }

  lemma StripPadded(p: string)
    requires Trim(p)
    ensures Strip(" " + p) == p
  {
    var s := " " + p;
    assert s[|s| - 1] == p[|p| - 1];
    assert RStrip(s) == s;
    assert s[1..] == p;
    StripTrim(p);
  }

  /** The text of a list item is what follows the dash. */
  lemma DashText(text: string)
    requires Trim(text)
    ensures IsDash("- " + text) && Strip(("- " + text)[2..]) == text && Trim("- " + text)
  {
    assert ("- " + text)[2..] == text;
    StripTrim(text);
    assert ("- " + text)[|text| + 1] == text[|text| - 1];
  }

  // ------------------------------------------------------------- lines

  ghost predicate At(lines: seq<YamlLine>, i: nat, part: seq<YamlLine>) {
    i + |part| <= |lines| && lines[i..i + |part|] == part
  }

  lemma AtSplit(lines: seq<YamlLine>, i: nat, a: seq<YamlLine>, b: seq<YamlLine>)
    requires At(lines, i, a + b)
    ensures At(lines, i, a) && At(lines, i + |a|, b)
    ensures a != [] ==> lines[i] == a[0]
  {
    assert lines[i..i + |a|] == (a + b)[..|a|];
    assert lines[i + |a|..i + |a| + |b|] == (a + b)[|a|..];
    if a != [] {
      assert lines[i..i + |a + b|][0] == (a + b)[0];
    }
  }

  /** Nothing deeper follows. */
  ghost predicate Ends(lines: seq<YamlLine>, end: nat, indent: nat) {
    end <= |lines| && !Deeper(lines, end, indent)
  }

  ghost predicate FreshKeys(acc: seq<Entry>, entries: seq<Entry>) {
    forall i, j :: 0 <= i < |acc| && 0 <= j < |entries| ==> acc[i].key != entries[j].key
  }

  lemma {:induction false} PutFresh(acc: seq<Entry>, e: Entry)
    requires forall i :: 0 <= i < |acc| ==> acc[i].key != e.key
    ensures Put(acc, e.key, e.value) == acc + [e]
  {
    if acc != [] {
      PutFresh(acc[1..], e);
      assert acc == [acc[0]] + acc[1..];
    }
  }

  lemma {:induction false} PutAllFresh(acc: seq<Entry>, more: seq<Entry>)
    requires FreshKeys(acc, more)
    requires forall i, j :: 0 <= i < j < |more| ==> more[i].key != more[j].key
    ensures PutAll(acc, more) == acc + more
  {
    if more != [] {
      var n := |more| - 1;
      PutAllFresh(acc, more[..n]);
      forall i | 0 <= i < |acc + more[..n]| ensures (acc + more[..n])[i].key != more[n].key {
      }
      PutFresh(acc + more[..n], more[n]);
      assert more == more[..n] + [more[n]];
    }
  }

  /** Printed entries start at their indent, with a line that is not a list dash. */
  lemma EntriesStart(entries: seq<Entry>, indent: nat)
    requires PrintableEntries(entries) && entries != []
    ensures PrintEntries(entries, indent) != []
    ensures PrintEntries(entries, indent)[0].indent == indent && !IsDash(PrintEntries(entries, indent)[0].text)
  {
    HeadTrims(entries[0]);
  }

  lemma ItemsStart(items: seq<Value>, indent: nat)
    requires items != [] && PrintableItem(items[0])
    ensures PrintItems(items, indent) != []
    ensures PrintItems(items, indent)[0].indent == indent && IsDash(PrintItems(items, indent)[0].text)
  {
  }

  // ------------------------------------------------------------- single parser steps

  lemma MapStep(lines: seq<YamlLine>, i: nat, indent: nat, acc: seq<Entry>, e: Entry, next: nat)
    requires Continues(lines, i, indent, false) && ParseEntry(lines, i, indent) == Ok((e, next))
    ensures next <= |lines| && ParseMap(lines, i, indent, acc) == ParseMap(lines, next, indent, Put(acc, e.key, e.value))
  {
  }

  lemma ListStep(lines: seq<YamlLine>, i: nat, indent: nat, acc: seq<Value>, item: Value, next: nat)
    requires Continues(lines, i, indent, true) && ParseItem(lines, i, indent) == Ok((item, next))
    ensures next <= |lines| && ParseList(lines, i, indent, acc) == ParseList(lines, next, indent, acc + [item])
  {
  }

  lemma BlockOfMap(lines: seq<YamlLine>, i: nat, indent: nat, entries: seq<Entry>, end: nat)
    requires i < |lines| && Continues(lines, i, indent, false) && end <= |lines|
    requires ParseMap(lines, i, indent, []) == ParseMap(lines, end, indent, entries)
    requires !Continues(lines, end, indent, false)
    ensures ParseBlock(lines, i, indent) == Ok((Map(entries), end))
  {
    assert ParseBlock(lines, i, indent) == AsMap(ParseMap(lines, i, indent, []));
  }

  lemma BlockOfList(lines: seq<YamlLine>, i: nat, indent: nat, items: seq<Value>, end: nat)
    requires i < |lines| && Continues(lines, i, indent, true) && end <= |lines|
    requires ParseList(lines, i, indent, []) == ParseList(lines, end, indent, items)
    requires !Continues(lines, end, indent, true)
    ensures ParseBlock(lines, i, indent) == Ok((List(items), end))
  {
    assert ParseBlock(lines, i, indent) == AsList(ParseList(lines, i, indent, []));
  }

  lemma EntryNested(lines: seq<YamlLine>, i: nat, indent: nat, e: Entry, end: nat)
    requires i + 1 < |lines| && lines[i + 1].indent > indent
    requires SplitKeyValue(lines[i].text) == Ok((e.key, ""))
    requires ParseBlock(lines, i + 1, lines[i + 1].indent) == Ok((e.value, end))
    ensures ParseEntry(lines, i, indent) == Ok((e, end))
  {
  }

  lemma EntryFlat(lines: seq<YamlLine>, i: nat, indent: nat, e: Entry, raw: string)
    requires i < |lines| && SplitKeyValue(lines[i].text) == Ok((e.key, raw))
    requires raw == "" ==> e.value == Map([]) && !Deeper(lines, i + 1, indent)
    requires raw != "" ==> e.value == ParseScalar(raw)
    ensures ParseEntry(lines, i, indent) == Ok((e, i + 1))
  {
  }

  lemma ItemScalar(lines: seq<YamlLine>, i: nat, indent: nat, text: string)
    requires i < |lines| && IsDash(lines[i].text) && Strip(lines[i].text[2..]) == text
    requires text != "" && !LooksLikeInlineMapping(text)
    ensures ParseItem(lines, i, indent) == Ok((ParseScalar(text), i + 1))
  {
  }

  lemma ItemObject(lines: seq<YamlLine>, i: nat, indent: nat, text: string, head: Entry, raw: string)
    requires i < |lines| && IsDash(lines[i].text) && Strip(lines[i].text[2..]) == text
    requires text != "" && LooksLikeInlineMapping(text) && SplitKeyValue(text) == Ok((head.key, raw))
    requires head.value == if raw != "" then ParseScalar(raw) else Map([])
    ensures !Deeper(lines, i + 1, indent) ==> ParseItem(lines, i, indent) == Ok((Map([head]), i + 1))
    ensures Deeper(lines, i + 1, indent) ==>
      var block := ParseBlock(lines, i + 1, lines[i + 1].indent);
      block.Ok? && block.value.0.Map? ==>
        ParseItem(lines, i, indent) == Ok((Map(PutAll([head], block.value.0.entries)), block.value.1))
  {
  }

  // ------------------------------------------------------------- blocks

  /** After a printed part comes either the end or a line no deeper than `indent`: the next
      printed sibling also starts no deeper. */
  lemma SiblingEnds(lines: seq<YamlLine>, next: nat, rest: seq<YamlLine>, indent: nat)
    requires At(lines, next, rest) && Ends(lines, next + |rest|, indent)
    requires rest != [] ==> rest[0].indent == indent
    ensures Ends(lines, next, indent)
  {
    if rest != [] {
      assert lines[next..next + |rest|][0] == lines[next];
    }
  }

  lemma EntriesTail(entries: seq<Entry>, acc: seq<Entry>)
    requires entries != [] && PrintableEntries(entries) && FreshKeys(acc, entries)
    ensures PrintableEntry(entries[0]) && PrintableEntries(entries[1..])
    ensures FreshKeys(acc + [entries[0]], entries[1..])
    ensures Put(acc, entries[0].key, entries[0].value) == acc + [entries[0]]
  {
    PutFresh(acc, entries[0]);
  }

  /** The first of several printed parts, and where it ends. */
  lemma FirstEntry(lines: seq<YamlLine>, i: nat, entries: seq<Entry>, indent: nat, end: nat) returns (next: nat)
    requires entries != [] && PrintableEntries(entries)
    requires At(lines, i, PrintEntries(entries, indent)) && end == i + |PrintEntries(entries, indent)|
    requires Ends(lines, end, indent)
    ensures next == i + |PrintEntry(entries[0], indent)| && At(lines, i, PrintEntry(entries[0], indent))
    ensures At(lines, next, PrintEntries(entries[1..], indent)) && end == next + |PrintEntries(entries[1..], indent)|
    ensures Ends(lines, next, indent) && Continues(lines, i, indent, false)
  {
    var first, rest := PrintEntry(entries[0], indent), PrintEntries(entries[1..], indent);
    next := i + |first|;
    assert PrintEntries(entries, indent) == first + rest;
    AtSplit(lines, i, first, rest);
    if entries[1..] != [] {
      EntriesStart(entries[1..], indent);
    }
    SiblingEnds(lines, next, rest, indent);
    HeadTrims(entries[0]);
  }

  /** One round of the map loop over printed entries. */
  lemma {:induction false} EntryThenRest(lines: seq<YamlLine>, i: nat, entries: seq<Entry>, indent: nat, acc: seq<Entry>, end: nat)
    returns (next: nat)
    requires entries != [] && PrintableEntries(entries)
    requires Put(acc, entries[0].key, entries[0].value) == acc + [entries[0]]
    requires At(lines, i, PrintEntries(entries, indent)) && end == i + |PrintEntries(entries, indent)|
    requires Ends(lines, end, indent)
    ensures At(lines, next, PrintEntries(entries[1..], indent)) && end == next + |PrintEntries(entries[1..], indent)|
    ensures ParseMap(lines, i, indent, acc) == ParseMap(lines, next, indent, acc + [entries[0]])
    decreases entries, 1
  {
    next := FirstEntry(lines, i, entries, indent, end);
    EntryRoundTrip(lines, i, entries[0], indent, next);
    MapStep(lines, i, indent, acc, entries[0], next);
  }

  /** Parsing a printed run of entries moves them onto the accumulator. */
  lemma {:induction false} EntriesRoundTrip(lines: seq<YamlLine>, i: nat, entries: seq<Entry>, indent: nat, acc: seq<Entry>, end: nat)
    requires PrintableEntries(entries) && FreshKeys(acc, entries)
    requires At(lines, i, PrintEntries(entries, indent)) && end == i + |PrintEntries(entries, indent)|
    requires Ends(lines, end, indent)
    ensures ParseMap(lines, i, indent, acc) == ParseMap(lines, end, indent, acc + entries)
    decreases entries, 2
  {
    hide ParseEntry, Put, PrintEntry, PrintableEntry;
    if entries == [] {
      assert acc + entries == acc;
    } else {
      EntriesTail(entries, acc);
      var next := EntryThenRest(lines, i, entries, indent, acc, end);
      EntriesRoundTrip(lines, next, entries[1..], indent, acc + [entries[0]], end);
      assert acc + [entries[0]] + entries[1..] == acc + entries;
    }
  }

  lemma {:induction false} EntryRoundTrip(lines: seq<YamlLine>, i: nat, e: Entry, indent: nat, end: nat)
    requires PrintableEntry(e)
    requires At(lines, i, PrintEntry(e, indent)) && end == i + |PrintEntry(e, indent)| && Ends(lines, end, indent)
    ensures i < |lines| && ParseEntry(lines, i, indent) == Ok((e, end))
    decreases e, 1
  {
    HeadSplits(e);
    AtSplit(lines, i, [YamlLine(indent, PrintHead(e))], PrintNested(e.value, indent + 2));
    if IsScalar(e.value) {
      ScalarRoundTrip(e.value);
      EntryFlat(lines, i, indent, e, PrintScalar(e.value));
    } else if e.value == Map([]) {
      EntryFlat(lines, i, indent, e, "");
    } else {
      NestedRoundTrip(lines, i + 1, e.value, indent + 2, end);
      EntryNested(lines, i, indent, e, end);
    }
  }

  /** A nested block, printed deeper than whatever follows it, parses back to its value. */
  lemma {:induction false} NestedRoundTrip(lines: seq<YamlLine>, i: nat, v: Value, indent: nat, end: nat)
    requires PrintableValue(v) && !IsScalar(v) && v != Map([])
    requires At(lines, i, PrintNested(v, indent)) && end == i + |PrintNested(v, indent)|
    requires end < |lines| ==> lines[end].indent < indent
    ensures i < |lines| && lines[i].indent == indent
    ensures ParseBlock(lines, i, indent) == Ok((v, end))
    decreases v, 0
  {
    match v
    case Map(entries) =>
      RestRoundTrip(lines, i, entries, indent, end);
    case List(items) =>
      var part := PrintItems(items, indent);
      ItemsStart(items, indent);
      assert lines[i..i + |part|][0] == lines[i];
      ItemsRoundTrip(lines, i, items, indent, [], end);
      assert [] + items == items;
      BlockOfList(lines, i, indent, items, end);
  }

  lemma {:induction false} ItemsRoundTrip(lines: seq<YamlLine>, i: nat, items: seq<Value>, indent: nat, acc: seq<Value>, end: nat)
    requires forall k :: 0 <= k < |items| ==> PrintableItem(items[k])
    requires At(lines, i, PrintItems(items, indent)) && end == i + |PrintItems(items, indent)|
    requires Ends(lines, end, indent)
    ensures ParseList(lines, i, indent, acc) == ParseList(lines, end, indent, acc + items)
    decreases items, 0
  {
    hide PrintableItem, PrintItem, ParseItem, ParseList;
    if items == [] {
      assert acc + items == acc;
    } else {
      var v, first, rest := items[0], PrintItem(items[0], indent), PrintItems(items[1..], indent);
      var next := i + |first|;
      assert PrintItems(items, indent) == first + rest;
      AtSplit(lines, i, first, rest);
      if items[1..] != [] {
        ItemsStart(items[1..], indent);
      }
      SiblingEnds(lines, next, rest, indent);
      ItemRoundTrip(lines, i, v, indent, next);
      ListStep(lines, i, indent, acc, v, next);
      ItemsRoundTrip(lines, next, items[1..], indent, acc + [v], end);
      assert acc + [v] + items[1..] == acc + items;
    }
  }

  lemma {:induction false} ItemRoundTrip(lines: seq<YamlLine>, i: nat, v: Value, indent: nat, end: nat)
    requires PrintableItem(v)
    requires At(lines, i, PrintItem(v, indent)) && end == i + |PrintItem(v, indent)| && Ends(lines, end, indent)
    ensures Continues(lines, i, indent, true)
    ensures ParseItem(lines, i, indent) == Ok((v, end))
    decreases v, 1
  {
    if v.Map? {
      ObjectItemRoundTrip(lines, i, v.entries, indent, end);
    } else {
      ScalarRoundTrip(v);
      ScalarIsNotInline(v);
      var text := PrintScalar(v);
      assert lines[i..i + 1][0] == YamlLine(indent, "- " + text);
      DashText(text);
      ItemScalar(lines, i, indent, text);
    }
  }

  lemma {:induction false} ObjectItemRoundTrip(lines: seq<YamlLine>, i: nat, entries: seq<Entry>, indent: nat, end: nat)
    requires PrintableItem(Map(entries))
    requires At(lines, i, PrintItem(Map(entries), indent)) && end == i + |PrintItem(Map(entries), indent)|
    requires Ends(lines, end, indent)
    ensures Continues(lines, i, indent, true)
    ensures ParseItem(lines, i, indent) == Ok((Map(entries), end))
    decreases entries, 3
  {
    hide ParseItem, ParseBlock, PutAll, PrintHead;
    var head, rest := entries[0], entries[1..];
    assert PrintableEntry(head);
    assert entries == [head] + rest;
    AtSplit(lines, i, [YamlLine(indent, "- " + PrintHead(head))], PrintEntries(rest, indent + 2));
    ItemHead(lines, i, head, indent);
    if rest != [] {
      EntriesTail(entries, []);
      RestRoundTrip(lines, i + 1, rest, indent + 2, end);
      PutAllFresh([head], rest);
      assert Deeper(lines, i + 1, indent);
    } else {
      assert entries == [head];
      assert end == i + 1;
    }
  }

  /** An item whose first line carries an entry is that entry, updated with the nested block. */
  lemma ItemHead(lines: seq<YamlLine>, i: nat, head: Entry, indent: nat)
    requires i < |lines| && lines[i] == YamlLine(indent, "- " + PrintHead(head))
    requires PrintableEntry(head) && (IsScalar(head.value) || head.value == Map([]))
    ensures IsDash(lines[i].text)
    ensures !Deeper(lines, i + 1, indent) ==> ParseItem(lines, i, indent) == Ok((Map([head]), i + 1))
    ensures Deeper(lines, i + 1, indent) ==>
      var block := ParseBlock(lines, i + 1, lines[i + 1].indent);
      block.Ok? && block.value.0.Map? ==>
        ParseItem(lines, i, indent) == Ok((Map(PutAll([head], block.value.0.entries)), block.value.1))
  {
    var text := PrintHead(head);
    HeadSplits(head);
    HeadTrims(head);
    DashText(text);
    if IsScalar(head.value) {
      ScalarRoundTrip(head.value);
      ItemObject(lines, i, indent, text, head, PrintScalar(head.value));
    } else {
      ItemObject(lines, i, indent, text, head, "");
    }
  }

  lemma {:induction false} RestRoundTrip(lines: seq<YamlLine>, i: nat, rest: seq<Entry>, indent: nat, end: nat)
    requires PrintableEntries(rest) && rest != []
    requires At(lines, i, PrintEntries(rest, indent)) && end == i + |PrintEntries(rest, indent)|
    requires end < |lines| ==> lines[end].indent < indent
    ensures i < |lines| && lines[i].indent == indent
    ensures ParseBlock(lines, i, indent) == Ok((Map(rest), end))
    decreases rest, 3
  {
    var part := PrintEntries(rest, indent);
    EntriesStart(rest, indent);
    assert lines[i..i + |part|][0] == lines[i];
    EntriesRoundTrip(lines, i, rest, indent, [], end);
    assert [] + rest == rest;
    BlockOfMap(lines, i, indent, rest, end);
  }
}
