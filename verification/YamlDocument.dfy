/** The character level of the round trip: a rendered document lexes back to its printed lines. */
module YamlDocument {
  import opened Options
  import opened YamlText
  import opened YamlParser
  import opened YamlRoundTrip

  /** Text that a line can carry unharmed: trimmed, unbroken, and without a comment. */
  predicate SafeText(text: string) {
    Trim(text) && (forall i :: 0 <= i < |text| ==> !IsBreak(text[i])) && CommentAt(text, 0, None) == |text|
  }

  // ------------------------------------------------------------- comments

  lemma {:induction false} SkipPlain(text: string, i: nat, j: nat)
    requires i <= j <= |text|
    requires forall k :: i <= k < j ==> !IsQuote(text[k]) && !OpensComment(text, k)
    ensures CommentAt(text, i, None) == CommentAt(text, j, None)
    decreases j - i
  {
    if i < j {
      assert !IsQuote(text[i]) && !OpensComment(text, i);
      SkipPlain(text, i + 1, j);
    }
  }

  /** Scanning a suffix that starts after whitespace is scanning it on its own. */
  lemma {:induction false} CommentShift(pre: string, text: string, i: nat, q: Option<char>)
    requires i <= |text| && (pre == "" || IsSpace(pre[|pre| - 1]))
    ensures CommentAt(pre + text, |pre| + i, q) == |pre| + CommentAt(text, i, q)
    decreases |text| - i
  {
    if i < |text| {
      var all := pre + text;
      assert all[|pre| + i] == text[i];
      assert i > 0 ==> all[|pre| + i - 1] == text[i - 1];
      assert i == 0 && pre != "" ==> all[|pre| + i - 1] == pre[|pre| - 1];
      var next := if q.Some? then (if text[i] == q.value then None else q)
                  else if IsQuote(text[i]) then Some(text[i]) else None;
      CommentShift(pre, text, i + 1, next);
    }
  }

  /** A plain prefix that ends in a space adds no comment. */
  lemma PrefixSafe(pre: string, text: string)
    requires pre == "" || IsSpace(pre[|pre| - 1])
    requires forall k :: 0 <= k < |pre| ==> !IsQuote(pre[k]) && !OpensComment(pre, k)
    requires CommentAt(text, 0, None) == |text|
    ensures CommentAt(pre + text, 0, None) == |pre + text|
  {
    var all := pre + text;
    forall k | 0 <= k < |pre| ensures !IsQuote(all[k]) && !OpensComment(all, k) {
      assert !IsQuote(pre[k]) && !OpensComment(pre, k);
      assert all[k] == pre[k] && (k > 0 ==> all[k - 1] == pre[k - 1]);
    }
    SkipPlain(all, 0, |pre|);
    CommentShift(pre, text, 0, None);
  }

  /** Inside the quotes every doubled quote closes and reopens at once, so a `#` is never seen
      from outside. */
  lemma {:induction false} SkipQuoted(text: string, i: nat, s: string)
    requires i + |Escape(s)| < |text|
    requires text[i..i + |Escape(s)|] == Escape(s) && text[i + |Escape(s)|] == '\''
    ensures CommentAt(text, i, Some('\'')) == CommentAt(text, i + |Escape(s)| + 1, None)
    decreases |s|
  {
    var e := Escape(s);
    if s != "" {
      var head := if s[0] == '\'' then 2 else 1;
      assert e[head..] == Escape(s[1..]);
      assert text[i + head..i + |e|] == text[i..i + |e|][head..];
      assert text[i] == e[0];
      if s[0] == '\'' {
        assert text[i + 1] == e[1];
      }
      SkipQuoted(text, i + head, s[1..]);
    }
  }

  lemma QuotedUncommented(s: string)
    ensures var p := "'" + Escape(s) + "'"; CommentAt(p, 0, None) == |p|
  {
    hide Escape;
    var p := "'" + Escape(s) + "'";
    var n := |Escape(s)|;
    assert p[1..1 + n] == Escape(s) && p[1 + n] == '\'';
    SkipQuoted(p, 1, s);
    assert CommentAt(p, 0, None) == CommentAt(p, 1, Some('\''));
  }

  lemma QuotedSafe(s: string)
    requires forall i :: 0 <= i < |s| ==> !IsBreak(s[i])
    ensures SafeText("'" + Escape(s) + "'")
  {
    QuotedUncommented(s);
    EscapeUnbroken(s);
    QuoteIsText();
    hide Escape, CommentAt, IsBreak, IsSpace;
    QuotedUnbroken(Escape(s));
    QuotedTrims(Escape(s));
    hide Trim;
  }

  lemma QuotedTrims(e: string)
    ensures Trim("'" + e + "'")
  {
    QuoteIsText();
    hide IsSpace;
  }

  lemma QuoteIsText()
    ensures !IsBreak('\'') && !IsSpace('\'')
  {
  }

  lemma QuotedUnbroken(e: string)
    requires forall i :: 0 <= i < |e| ==> !IsBreak(e[i])
    ensures forall i :: 0 <= i < |"'" + e + "'"| ==> !IsBreak(("'" + e + "'")[i])
  {
    QuoteIsText();
    hide IsBreak;
  }

  lemma PlainSafe(p: string)
    requires Trim(p) && forall i :: 0 <= i < |p| ==> !IsQuote(p[i]) && p[i] != '#' && !IsBreak(p[i])
    ensures SafeText(p)
  {
    SkipPlain(p, 0, |p|);
  }

  lemma ScalarSafe(v: Value)
    requires PrintableScalar(v)
    ensures SafeText(PrintScalar(v))
  {
    if v.Str? {
      QuotedSafe(v.s);
    } else if v.Int? {
      IntRoundTrip(v.i);
      PlainSafe(PrintInt(v.i));
    } else {
      PlainSafe(PrintScalar(v));
    }
  }

  lemma {:induction false} EscapeUnbroken(s: string)
    requires forall i :: 0 <= i < |s| ==> !IsBreak(s[i])
    ensures forall i :: 0 <= i < |Escape(s)| ==> !IsBreak(Escape(s)[i])
  {
    if s != "" {
      EscapeUnbroken(s[1..]);
    }
  }

  lemma HeadSafe(e: Entry)
    requires PrintableEntry(e)
    ensures SafeText(PrintHead(e))
  {
    HeadTrims(e);
    var text := PrintHead(e);
    var pre := e.key + (if IsScalar(e.value) then ": " else ":");
    forall k | 0 <= k < |pre| ensures !IsQuote(pre[k]) && !OpensComment(pre, k) && !IsBreak(pre[k]) {
      if k < |e.key| {
        assert pre[k] == e.key[k] && (k > 0 ==> pre[k - 1] == e.key[k - 1]);
        assert !OpensComment(e.key, k);
      }
    }
    if IsScalar(e.value) {
      var p := PrintScalar(e.value);
      ScalarSafe(e.value);
      assert text == pre + p;
      PrefixSafe(pre, p);
    } else {
      assert text == pre;
      SkipPlain(text, 0, |text|);
    }
  }

  lemma DashSafe(text: string)
    requires SafeText(text)
    ensures SafeText("- " + text)
  {
    DashText(text);
    PrefixSafe("- ", text);
  }

  // ------------------------------------------------------------- printed lines

  ghost predicate AllSafe(lines: seq<YamlLine>) {
    forall i :: 0 <= i < |lines| ==> SafeText(lines[i].text)
  }

  lemma {:induction false} EntriesSafe(entries: seq<Entry>, indent: nat)
    requires PrintableEntries(entries)
    ensures AllSafe(PrintEntries(entries, indent))
    decreases entries, 1
  {
    hide SafeText;
    if entries != [] {
      EntriesTail(entries, []);
      HeadSafe(entries[0]);
      NestedSafe(entries[0].value, indent + 2);
      EntriesSafe(entries[1..], indent);
    }
  }

  lemma {:induction false} NestedSafe(v: Value, indent: nat)
    requires PrintableValue(v)
    ensures AllSafe(PrintNested(v, indent))
    decreases v, 0
  {
    match v
    case Map(entries) => EntriesSafe(entries, indent);
    case List(items) => ItemsSafe(items, indent);
    case _ =>
  }

  lemma {:induction false} ItemsSafe(items: seq<Value>, indent: nat)
    requires forall k :: 0 <= k < |items| ==> PrintableItem(items[k])
    ensures AllSafe(PrintItems(items, indent))
    decreases items, 1
  {
    hide SafeText;
    if items != [] {
      ItemSafe(items[0], indent);
      ItemsSafe(items[1..], indent);
    }
  }

  lemma {:induction false} ItemSafe(v: Value, indent: nat)
    requires PrintableItem(v)
    ensures AllSafe(PrintItem(v, indent))
    decreases v, 0
  {
    hide SafeText;
    if v.Map? {
      EntriesTail(v.entries, []);
      HeadSafe(v.entries[0]);
      DashSafe(PrintHead(v.entries[0]));
      EntriesSafe(v.entries[1..], indent + 2);
    } else {
      ScalarSafe(v);
      DashSafe(PrintScalar(v));
    }
  }

  // ------------------------------------------------------------- lexing one line

  function Raw(line: YamlLine): string {
    Spaces(line.indent) + line.text
  }

  lemma {:induction false} SpacesLex(n: nat, text: string)
    requires Trim(text)
    ensures LStrip(Spaces(n) + text) == text && Indent(Spaces(n) + text) == n
    decreases n
  {
    if n == 0 {
      assert Spaces(0) + text == text;
    } else {
      SpacesLex(n - 1, text);
      var all := Spaces(n) + text;
      assert all[0] == ' ';
      assert all[1..] == Spaces(n - 1) + text by {
        assert Spaces(n) == " " + Spaces(n - 1);
      }
    }
  }

  lemma LexRaw(line: YamlLine)
    requires SafeText(line.text)
    ensures LexLine(Raw(line)) == Ok(Some(line))
  {
    var raw, text := Raw(line), line.text;
    SpacesLex(line.indent, text);
    assert raw[|raw| - 1] == text[|text| - 1];
    assert RStrip(raw) == raw;
    PrefixSafe(Spaces(line.indent), text);
    assert '\t' !in raw[..line.indent];
  }

  // ------------------------------------------------------------- splitting the document

  function Raws(lines: seq<YamlLine>): (raws: seq<string>)
    ensures |raws| == |lines| && forall i :: 0 <= i < |lines| ==> raws[i] == Raw(lines[i])
  {
    if lines == [] then [] else [Raw(lines[0])] + Raws(lines[1..])
  }

  lemma FirstBreakAt(text: string, n: nat)
    requires n < |text| && IsBreak(text[n]) && forall i :: 0 <= i < n ==> !IsBreak(text[i])
    ensures FirstBreak(text) == n
  {
  }

  lemma RawUnbroken(line: YamlLine)
    requires SafeText(line.text)
    ensures Raw(line) != "" && forall i :: 0 <= i < |Raw(line)| ==> !IsBreak(Raw(line)[i])
  {
    hide CommentAt;
    var raw := Raw(line);
    forall i | 0 <= i < |raw| ensures !IsBreak(raw[i]) {
      assert i < line.indent || raw[i] == line.text[i - line.indent];
    }
  }

  /** A line break ends the first line; the rest splits on its own. */
  lemma SplitFirst(raw: string, rest: string)
    requires forall i :: 0 <= i < |raw| ==> !IsBreak(raw[i])
    ensures SplitLines(raw + "\n" + rest) == [raw] + SplitLines(rest)
    ensures raw != "" ==> SplitLines(raw) == [raw]
  {
    var all := raw + "\n" + rest;
    assert forall i :: 0 <= i < |raw| ==> all[i] == raw[i];
    FirstBreakAt(all, |raw|);
    assert all[..|raw|] == raw && all[|raw| + 1..] == rest;
    assert FirstBreak(raw) == |raw|;
  }

  lemma {:induction false} SplitRendered(lines: seq<YamlLine>)
    requires AllSafe(lines)
    ensures SplitLines(Render(lines)) == Raws(lines)
  {
    hide SplitLines, SafeText, Raw;
    if lines == [] {
      SplitNothing();
    } else {
      assert SafeText(lines[0].text);
      RawUnbroken(lines[0]);
      SplitRendered(lines[1..]);
      SplitFirst(Raw(lines[0]), Render(lines[1..]));
      RenderFirst(lines);
    }
  }

  lemma SplitNothing()
    ensures SplitLines("") == []
  {
  }

  lemma RenderFirst(lines: seq<YamlLine>)
    requires lines != []
    ensures Render(lines) == if |lines| == 1 then Raw(lines[0]) else Raw(lines[0]) + "\n" + Render(lines[1..])
    ensures Raws(lines) == [Raw(lines[0])] + Raws(lines[1..])
    ensures |lines| == 1 ==> lines[1..] == []
  {
  }

  lemma {:induction false} LexRaws(lines: seq<YamlLine>)
    requires AllSafe(lines)
    ensures LexLines(Raws(lines)) == Ok(lines)
  {
    hide SafeText, LexLine, LexLines, Raw;
    if lines == [] {
      LexNothing();
    } else {
      var n := |lines| - 1;
      LexRaws(lines[..n]);
      assert SafeText(lines[n].text);
      LexRaw(lines[n]);
      RawsSnoc(lines);
      hide Raws;
      LexOneMore(Raws(lines[..n]), lines[..n], Raw(lines[n]), lines[n]);
      assert lines == lines[..n] + [lines[n]];
    }
  }

  lemma RawsSnoc(lines: seq<YamlLine>)
    requires lines != []
    ensures Raws(lines) == Raws(lines[..|lines| - 1]) + [Raw(lines[|lines| - 1])]
  {
    hide Raw;
  }

  lemma LexNothing()
    ensures LexLines([]) == Ok([])
  {
  }

  lemma LexOneMore(raws: seq<string>, lines: seq<YamlLine>, raw: string, line: YamlLine)
    requires LexLines(raws) == Ok(lines) && LexLine(raw) == Ok(Some(line))
    ensures LexLines(raws + [raw]) == Ok(lines + [line])
  {
    hide LexLine;
    assert (raws + [raw])[..|raws|] == raws;
  }

  // ------------------------------------------------------------- the theorem

  /** The documents of the canonical printer: an object, or a non-empty list. */
  predicate PrintableDocument(v: Value) {
    PrintableValue(v) && (v.Map? || v.List?)
  }

  function PrintDocument(v: Value): string {
    Render(PrintNested(v, 0))
  }

  /** Lexing, comment stripping and parsing a printed document give back exactly the tree, with
      every line consumed (a line left over would be an error). */
  lemma DocumentRoundTrip(v: Value)
    requires PrintableDocument(v)
    ensures ParseText(PrintDocument(v)) == Ok(v)
  {
    var lines := PrintNested(v, 0);
    NestedSafe(v, 0);
    SplitRendered(lines);
    LexRaws(lines);
    hide Raws, Render, AllSafe, LexLines, SplitLines, ParseBlock;
    if v == Map([]) {
      assert lines == [];
    } else {
      assert lines[0..|lines|] == lines;
      NestedRoundTrip(lines, 0, v, 0, |lines|);
    }
  }

  /** Hence the printer is injective: two documents with the same text are the same tree. */
  lemma PrintInjective(v: Value, w: Value)
    requires PrintableDocument(v) && PrintableDocument(w) && PrintDocument(v) == PrintDocument(w)
    ensures v == w
  {
    DocumentRoundTrip(v);
    DocumentRoundTrip(w);
  }
}
