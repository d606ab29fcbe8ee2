/** The character level of the seed parser: whitespace, line splitting, comment stripping,
    key/value splitting and scalars. */
module YamlText {
  import opened Options

  datatype YamlLine = YamlLine(indent: nat, text: string)

  datatype Entry = Entry(key: string, value: Value)

  /** `Float` and `Json` keep the source text: converting it is the job of `float()` and the
      JSON decoder, which are not part of this model. A map keeps its keys in insertion order. */
  datatype Value =
    | Null
    | Bool(b: bool)
    | Int(i: int)
    | Float(text: string)
    | Json(text: string)
    | Str(s: string)
    | Map(entries: seq<Entry>)
    | List(items: seq<Value>)

  datatype SeedError =
    | TabsInIndentation
    | InvalidMapping(text: string)
    | ContinuationNotObject
    | Unparsed(text: string)

  // ------------------------------------------------------------- whitespace

  /** `str.isspace` on one character. */
  predicate IsSpace(c: char) {
    var n := c as int;
    || 9 <= n <= 13 || 28 <= n <= 32 || n == 0x85 || n == 0xA0 || n == 0x1680
    || 0x2000 <= n <= 0x200A || n == 0x2028 || n == 0x2029 || n == 0x202F || n == 0x205F || n == 0x3000
  }

  /** The characters at which `str.splitlines` breaks. */
  predicate IsBreak(c: char) {
    var n := c as int;
    10 <= n <= 13 || 28 <= n <= 30 || n == 0x85 || n == 0x2028 || n == 0x2029
  }

  function LStrip(s: string): string {
    if s != "" && IsSpace(s[0]) then LStrip(s[1..]) else s
  }

  function RStrip(s: string): string {
    if s != "" && IsSpace(s[|s| - 1]) then RStrip(s[..|s| - 1]) else s
  }

  function Strip(s: string): string {
    LStrip(RStrip(s))
  }

  /** Neither end is whitespace, and there is something in between. */
  predicate Trim(s: string) {
    s != "" && !IsSpace(s[0]) && !IsSpace(s[|s| - 1])
  }

  lemma StripTrim(s: string)
    requires Trim(s)
    ensures Strip(s) == s && RStrip(s) == s && LStrip(s) == s
  {
  }

  lemma {:induction false} LStripEnds(s: string)
    ensures LStrip(s) != "" ==> !IsSpace(LStrip(s)[0])
    ensures exists k :: 0 <= k <= |s| && LStrip(s) == s[k..] && forall i :: 0 <= i < k ==> IsSpace(s[i])
  {
    if s != "" && IsSpace(s[0]) {
      LStripEnds(s[1..]);
      var k :| 0 <= k <= |s[1..]| && LStrip(s[1..]) == s[1..][k..] && forall i :: 0 <= i < k ==> IsSpace(s[1..][i]);
      assert s[1..][k..] == s[k + 1..];
      forall i | 0 <= i < k + 1 ensures IsSpace(s[i]) {
        assert i > 0 ==> IsSpace(s[1..][i - 1]);
      }
    } else {
      assert s[0..] == s;
    }
  }

  lemma {:induction false} RStripEnds(s: string)
    ensures RStrip(s) != "" ==> !IsSpace(RStrip(s)[|RStrip(s)| - 1])
    ensures exists k :: 0 <= k <= |s| && RStrip(s) == s[..k] && forall i :: k <= i < |s| ==> IsSpace(s[i])
  {
    if s != "" && IsSpace(s[|s| - 1]) {
      var t := s[..|s| - 1];
      RStripEnds(t);
      var k :| 0 <= k <= |t| && RStrip(t) == t[..k] && forall i :: k <= i < |t| ==> IsSpace(t[i]);
      assert t[..k] == s[..k];
      forall i | k <= i < |s| ensures IsSpace(s[i]) {
        assert i < |t| ==> IsSpace(t[i]);
      }
    } else {
      assert s[..|s|] == s;
    }
  }

  /** `strip` leaves either nothing or text that is trimmed on both sides. */
  lemma StripIsTrim(s: string)
    ensures Strip(s) == "" || Trim(Strip(s))
  {
    RStripEnds(s);
    LStripEnds(RStrip(s));
    var r := RStrip(s);
    var k :| 0 <= k <= |r| && LStrip(r) == r[k..] && forall i :: 0 <= i < k ==> IsSpace(r[i]);
  }

  // ------------------------------------------------------------- lines

  function FirstBreak(text: string): (n: nat)
    ensures n <= |text|
    ensures n < |text| ==> IsBreak(text[n])
    ensures forall i :: 0 <= i < n ==> !IsBreak(text[i])
  {
    if text == "" || IsBreak(text[0]) then 0 else 1 + FirstBreak(text[1..])
  }

  function SplitLines(text: string): seq<string>
    decreases |text|
  {
    if text == "" then []
    else
      var n := FirstBreak(text);
      if n == |text| then [text]
      else
        var skip := if text[n] == '\r' && n + 1 < |text| && text[n + 1] == '\n' then 2 else 1;
        [text[..n]] + SplitLines(text[n + skip..])
  }

  // ------------------------------------------------------------- comments

  predicate IsQuote(c: char) {
    c == '\'' || c == '"'
  }

  /** A `#` opens a comment at the start of a line or after whitespace. */
  predicate OpensComment(line: string, i: nat)
    requires i < |line|
  {
    line[i] == '#' && (i == 0 || IsSpace(line[i - 1]))
  }

  /** Where the comment starts when scanning resumes at `i` inside quote `q`, or the length. */
  function CommentAt(line: string, i: nat, q: Option<char>): (n: nat)
    requires i <= |line|
    ensures i <= n <= |line|
    decreases |line| - i
  {
    if i == |line| then i
    else if q.Some? then CommentAt(line, i + 1, if line[i] == q.value then None else q)
    else if IsQuote(line[i]) then CommentAt(line, i + 1, Some(line[i]))
    else if OpensComment(line, i) then i
    else CommentAt(line, i + 1, None)
  }

  function StripComment(line: string): string {
    var n := CommentAt(line, 0, None);
    if n == |line| then line else RStrip(line[..n])
  }

  /** `_strip_yaml_comment`. */
  method StripYamlComment(line: string) returns (r: string)
    ensures r == StripComment(line)
  {
    var quote: Option<char> := None;
    for index := 0 to |line|
      invariant CommentAt(line, 0, None) == CommentAt(line, index, quote)
    {
      var c := line[index];
      if quote.Some? {
        if c == quote.value {
          quote := None;
        }
      } else if c == '\'' || c == '"' {
        quote := Some(c);
      } else if c == '#' && (index == 0 || IsSpace(line[index - 1])) {
        return RStrip(line[..index]);
      }
    }
    return line;
  }

  // ------------------------------------------------------------- lexing

  /** The number of leading spaces; only the space character counts. */
  function Indent(line: string): (n: nat)
    ensures n <= |line|
    ensures forall i :: 0 <= i < n ==> line[i] == ' '
    ensures n < |line| ==> line[n] != ' '
  {
    if line != "" && line[0] == ' ' then 1 + Indent(line[1..]) else 0
  }

  function LexLine(raw: string): Result<Option<YamlLine>, SeedError> {
    var line := StripComment(RStrip(raw));
    if Strip(line) == "" then Ok(None)
    else if '\t' in line[..Indent(line)] then Err(TabsInIndentation)
    else Ok(Some(YamlLine(Indent(line), Strip(line))))
  }

  function LexLines(raws: seq<string>): Result<seq<YamlLine>, SeedError> {
    if raws == [] then Ok([])
    else
      match LexLines(raws[..|raws| - 1])
      case Err(e) => Err(e)
      case Ok(before) =>
        match LexLine(raws[|raws| - 1])
        case Err(e) => Err(e)
        case Ok(None) => Ok(before)
        case Ok(Some(line)) => Ok(before + [line])
  }

  /** `_yaml_lines`. */
  method YamlLines(text: string) returns (r: Result<seq<YamlLine>, SeedError>)
    ensures r == LexLines(SplitLines(text))
  {
    var lines: seq<YamlLine> := [];
    var raws := SplitLines(text);
    for i := 0 to |raws|
      invariant LexLines(raws[..i]) == Ok(lines)
    {
      assert raws[..i + 1][..i] == raws[..i];
      var line := StripYamlComment(RStrip(raws[i]));
      if Strip(line) == "" {
        continue;
      }
      var indent := Indent(line);
      if '\t' in line[..indent] {
        return Err(TabsInIndentation);
      }
      lines := lines + [YamlLine(indent, Strip(line))];
    }
    assert raws[..|raws|] == raws;
    return Ok(lines);
  }

  /** The tab check looks only at the leading spaces, where no tab can be: it never fires, and a
      line indented with a tab is lexed at indent zero. */
  lemma {:induction false} TabCheckNeverFires(raws: seq<string>)
    ensures LexLines(raws).Ok?
  {
    if raws != [] {
      TabCheckNeverFires(raws[..|raws| - 1]);
      var line := StripComment(RStrip(raws[|raws| - 1]));
      assert '\t' !in line[..Indent(line)];
    }
  }

  lemma TabIndentedLine()
    ensures LexLine("\tkey: 1") == Ok(Some(YamlLine(0, "key: 1")))
  {
    var raw := "\tkey: 1";
    assert RStrip(raw) == raw;
    assert CommentAt(raw, 0, None) == CommentAt(raw, 4, None) == |raw|;
    assert LStrip(raw) == raw[1..];
  }

  /** Every lexed line carries trimmed, non-empty text. */
  lemma {:induction false} LexedLinesTrim(raws: seq<string>)
    ensures LexLines(raws).Ok? ==> forall line :: line in LexLines(raws).value ==> Trim(line.text)
  {
    if raws != [] {
      LexedLinesTrim(raws[..|raws| - 1]);
      StripIsTrim(StripComment(RStrip(raws[|raws| - 1])));
    }
  }

  // ------------------------------------------------------------- keys and scalars

  function IndexOf(text: string, c: char): (n: nat)
    ensures n <= |text|
    ensures n < |text| ==> text[n] == c
    ensures c !in text[..n]
  {
    if text == "" || text[0] == c then 0 else 1 + IndexOf(text[1..], c)
  }

  /** `_split_yaml_key_value`. */
  function SplitKeyValue(text: string): Result<(string, string), SeedError> {
    var n := IndexOf(text, ':');
    if n == |text| || Strip(text[..n]) == "" then Err(InvalidMapping(text))
    else Ok((Strip(text[..n]), Strip(text[n + 1..])))
  }

  /** `_looks_like_inline_mapping`. */
  predicate LooksLikeInlineMapping(text: string) {
    && ':' in text
    && !IsQuote(text[0])
    && Strip(text[..IndexOf(text, ':')]) != ""
  }

  function LowerChar(c: char): char {
    if 'A' <= c <= 'Z' then (c as int + 32) as char else c
  }

  function Lower(s: string): (r: string)
    ensures |r| == |s|
    ensures forall i :: 0 <= i < |s| ==> r[i] == LowerChar(s[i])
  {
    if s == "" then "" else [LowerChar(s[0])] + Lower(s[1..])
  }

  predicate IsDigit(c: char) {
    '0' <= c <= '9'
  }

  /** Digits, with single underscores allowed between digits. */
  predicate IsDigits(s: string) {
    && s != "" && IsDigit(s[0]) && IsDigit(s[|s| - 1])
    && (forall i :: 0 <= i < |s| ==> IsDigit(s[i]) || s[i] == '_')
    && (forall i :: 0 < i < |s| && s[i] == '_' ==> s[i - 1] != '_')
  }

  function Unsigned(s: string): string {
    if s != "" && (s[0] == '-' || s[0] == '+') then s[1..] else s
  }

  function NatValue(digits: string): nat {
    if digits == "" then 0
    else
      var last, rest := digits[|digits| - 1], digits[..|digits| - 1];
      if IsDigit(last) then 10 * NatValue(rest) + (last as int - '0' as int) else NatValue(rest)
  }

  predicate IsIntLiteral(s: string) {
    IsDigits(Unsigned(s))
  }

  function IntValue(s: string): int {
    var n: int := NatValue(Unsigned(s));
    if s != "" && s[0] == '-' then -n else n
  }

  /** What `float()` accepts, apart from non-ASCII digits. */
  predicate IsFloatLiteral(s: string) {
    var body := Lower(Unsigned(s));
    || body == "inf" || body == "infinity" || body == "nan"
    || (var e := IndexOf(body, 'e');
        && IsMantissa(body[..e])
        && (e < |body| ==> IsDigits(Unsigned(body[e + 1..]))))
  }

  predicate IsMantissa(s: string) {
    var p := IndexOf(s, '.');
    if p == |s| then IsDigits(s)
    else
      && (s[..p] == "" || IsDigits(s[..p]))
      && (s[p + 1..] == "" || IsDigits(s[p + 1..]))
      && |s| > 1
  }

  /** `.replace("''", "'")`, scanning from the left. */
  function Unescape(s: string): string {
    if |s| >= 2 && s[0] == '\'' && s[1] == '\'' then "'" + Unescape(s[2..])
    else if s == "" then ""
    else [s[0]] + Unescape(s[1..])
  }

  /** `_parse_yaml_scalar`. */
  function ParseScalar(value: string): Value {
    if value == "" then Str("")
    else
      var lowered := Lower(value);
      var first, last := value[0], value[|value| - 1];
      if lowered == "null" || lowered == "none" || lowered == "~" then Null
      else if lowered == "true" then Bool(true)
      else if lowered == "false" then Bool(false)
      else if first == last && first == '"' then Json(value)
      else if first == last && first == '\'' then
        Str(if |value| == 1 then "" else Unescape(value[1..|value| - 1]))
      else if first == '[' || first == '{' then Json(value)
      else if IsIntLiteral(value) then Int(IntValue(value))
      else if IsFloatLiteral(value) then Float(value)
      else Str(value)
  }
}
