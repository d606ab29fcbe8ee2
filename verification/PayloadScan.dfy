/** The pre-spend payload scan: a traversal that redacts a JSON tree while it records findings up
    to a limit and decisions without one. */
module PayloadScan {
  import opened Options
  import opened Sorting
  import opened OrderedSets

  datatype Json =
    | Str(text: string)
    | Obj(entries: seq<Entry>)
    | Arr(items: seq<Json>)
    | Scalar(repr: string)

  datatype Entry = Entry(key: string, value: Json)

  datatype Decision = Allow | Redact | Block

  datatype Kind = Secret | Pii

  datatype Step = Field(key: string) | Index(position: nat)

  /** A finding exposes the hash of what matched, not the text. */
  datatype Fingerprint = Sha256(of: string)

  datatype Finding = Finding(kind: Kind, rule: string, path: seq<Step>, action: Decision, preview: string, fingerprint: Fingerprint)

  /** A regular expression, seen as the way it cuts a text into matches and what lies between. */
  datatype Piece = Plain(text: string) | Match(text: string)

  datatype Pattern = Pattern(rule: string, replacement: string, cut: string -> seq<Piece>)

  datatype Rules = Rules(secrets: seq<Pattern>, email: Pattern, secretField: string -> bool, blank: string -> bool)

  const REDACTED_SECRET := "[REDACTED:secret]"

  const PREVIEW_CHARS := 96

  function Preview(s: string): (p: string)
    ensures |p| <= PREVIEW_CHARS
  {
    if |s| <= PREVIEW_CHARS then s else s[..PREVIEW_CHARS - 3] + "..."
  }

  // ------------------------------------------------------------- sorted keys

  predicate EntryLe(a: Entry, b: Entry) {
    StringLe(a.key, b.key)
  }

  function SortedEntries(es: seq<Entry>): seq<Entry> {
    Sort(es, EntryLe)
  }

  function Size(v: Json): nat {
    match v
    case Str(_) => 1
    case Obj(entries) => 1 + EntriesSize(entries)
    case Arr(items) => 1 + ItemsSize(items)
    case Scalar(_) => 1
  }

  function EntriesSize(es: seq<Entry>): nat {
    if es == [] then 0 else Size(es[0].value) + EntriesSize(es[1..])
  }

  function ItemsSize(items: seq<Json>): nat {
    if items == [] then 0 else Size(items[0]) + ItemsSize(items[1..])
  }

  lemma {:induction false} InsertSize(x: Entry, ys: seq<Entry>)
    ensures EntriesSize(Insert(x, ys, EntryLe)) == Size(x.value) + EntriesSize(ys)
  {
    if ys == [] || EntryLe(x, ys[0]) {
      assert ([x] + ys)[1..] == ys;
    } else {
      InsertSize(x, ys[1..]);
      assert ([ys[0]] + Insert(x, ys[1..], EntryLe))[1..] == Insert(x, ys[1..], EntryLe);
    }
  }

  lemma {:induction false} SortSize(es: seq<Entry>)
    ensures EntriesSize(SortedEntries(es)) == EntriesSize(es)
  {
    if es != [] {
      SortSize(es[1..]);
      InsertSize(es[0], Sort(es[1..], EntryLe));
    }
  }

  lemma {:induction false} EntrySmaller(es: seq<Entry>, i: nat)
    requires i < |es|
    ensures Size(es[i].value) <= EntriesSize(es)
  {
    if i > 0 {
      EntrySmaller(es[1..], i - 1);
    }
  }

  lemma {:induction false} ItemSmaller(items: seq<Json>, i: nat)
    requires i < |items|
    ensures Size(items[i]) <= ItemsSize(items)
  {
    if i > 0 {
      ItemSmaller(items[1..], i - 1);
    }
  }

  // ------------------------------------------------------------- the fold

  /** A string of the tree with where it stands and the key it stands under, if any. */
  datatype Leaf = Leaf(path: seq<Step>, field: Option<string>, text: string)

  /** The strings of the tree, objects taken in the order of their sorted keys. */
  function Leaves(v: Json, path: seq<Step>, field: Option<string>): seq<Leaf>
    decreases Size(v), 0
  {
    match v
    case Str(text) => [Leaf(path, field, text)]
    case Obj(entries) =>
      SortSize(entries);
      EntryLeaves(SortedEntries(entries), path)
    case Arr(items) => ItemLeaves(items, path)
    case Scalar(_) => []
  }

  function EntryLeaves(es: seq<Entry>, path: seq<Step>): seq<Leaf>
    decreases EntriesSize(es), |es| + 1
  {
    if es == [] then []
    else
      var n := |es| - 1;
      EntryLast(es);
      EntryLeaves(es[..n], path) + Leaves(es[n].value, path + [Field(es[n].key)], Some(es[n].key))
  }

  function ItemLeaves(items: seq<Json>, path: seq<Step>): seq<Leaf>
    decreases ItemsSize(items), |items| + 1
  {
    if items == [] then []
    else
      var n := |items| - 1;
      ItemLast(items);
      ItemLeaves(items[..n], path) + Leaves(items[n], path + [Index(n)], None)
  }

  lemma {:induction false} EntryLast(es: seq<Entry>)
    requires es != []
    ensures EntriesSize(es) == EntriesSize(es[..|es| - 1]) + Size(es[|es| - 1].value)
  {
    if |es| > 1 {
      EntryLast(es[1..]);
      assert es[1..][..|es| - 2] == es[..|es| - 1][1..];
    }
  }

  lemma {:induction false} ItemLast(items: seq<Json>)
    requires items != []
    ensures ItemsSize(items) == ItemsSize(items[..|items| - 1]) + Size(items[|items| - 1])
  {
    if |items| > 1 {
      ItemLast(items[1..]);
      assert items[1..][..|items| - 2] == items[..|items| - 1][1..];
    }
  }

  function PieceFindings(pieces: seq<Piece>, kind: Kind, p: Pattern, path: seq<Step>, action: Decision): seq<Finding> {
    if pieces == [] then []
    else
      var n := |pieces| - 1;
      PieceFindings(pieces[..n], kind, p, path, action)
      + if pieces[n].Match? then [Finding(kind, p.rule, path, action, Preview(p.replacement), Sha256(pieces[n].text))] else []
  }

  /** The text with every match replaced and everything between kept. */
  function Substituted(pieces: seq<Piece>, replacement: string): string {
    if pieces == [] then ""
    else
      var n := |pieces| - 1;
      Substituted(pieces[..n], replacement) + if pieces[n].Match? then replacement else pieces[n].text
  }

  function SecretFindings(text: string, ps: seq<Pattern>, path: seq<Step>): seq<Finding> {
    if ps == [] then []
    else
      var n := |ps| - 1;
      SecretFindings(text, ps[..n], path)
      + PieceFindings(ps[n].cut(SecretText(text, ps[..n])), Secret, ps[n], path, Block)
  }

  /** Each pattern sees the text the patterns before it left. */
  function SecretText(text: string, ps: seq<Pattern>): string {
    if ps == [] then text
    else
      var n := |ps| - 1;
      Substituted(ps[n].cut(SecretText(text, ps[..n])), ps[n].replacement)
  }

  predicate IsSecretField(rules: Rules, leaf: Leaf) {
    leaf.field.Some? && rules.secretField(leaf.field.value) && !rules.blank(leaf.text)
  }

  function LeafFindings(rules: Rules, leaf: Leaf): seq<Finding> {
    if IsSecretField(rules, leaf) then
      [Finding(Secret, "secret_field", leaf.path, Block, Preview(REDACTED_SECRET), Sha256(leaf.text))]
    else
      SecretFindings(leaf.text, rules.secrets, leaf.path)
      + PieceFindings(rules.email.cut(SecretText(leaf.text, rules.secrets)), Pii, rules.email, leaf.path, Redact)
  }

  function LeafText(rules: Rules, leaf: Leaf): string {
    if IsSecretField(rules, leaf) then REDACTED_SECRET
    else Substituted(rules.email.cut(SecretText(leaf.text, rules.secrets)), rules.email.replacement)
  }

  function FindingsOf(rules: Rules, leaves: seq<Leaf>): seq<Finding> {
    if leaves == [] then []
    else FindingsOf(rules, leaves[..|leaves| - 1]) + LeafFindings(rules, leaves[|leaves| - 1])
  }

  /** The tree with every string redacted and every object in sorted key order. */
  function Redacted(rules: Rules, v: Json, path: seq<Step>, field: Option<string>): Json
    decreases Size(v), 0
  {
    match v
    case Str(text) => Str(LeafText(rules, Leaf(path, field, text)))
    case Obj(entries) =>
      SortSize(entries);
      Obj(RedactedEntries(rules, SortedEntries(entries), path))
    case Arr(items) => Arr(RedactedItems(rules, items, path))
    case Scalar(_) => v
  }

  function RedactedEntries(rules: Rules, es: seq<Entry>, path: seq<Step>): seq<Entry>
    decreases EntriesSize(es), |es| + 1
  {
    if es == [] then []
    else
      var n := |es| - 1;
      EntryLast(es);
      RedactedEntries(rules, es[..n], path)
      + [Entry(es[n].key, Redacted(rules, es[n].value, path + [Field(es[n].key)], Some(es[n].key)))]
  }

  function RedactedItems(rules: Rules, items: seq<Json>, path: seq<Step>): seq<Json>
    decreases ItemsSize(items), |items| + 1
  {
    if items == [] then []
    else
      var n := |items| - 1;
      ItemLast(items);
      RedactedItems(rules, items[..n], path) + [Redacted(rules, items[n], path + [Index(n)], None)]
  }

  function First(fs: seq<Finding>, limit: int): seq<Finding> {
    if limit <= 0 then [] else if |fs| <= limit then fs else fs[..limit]
  }

  function Actions(fs: seq<Finding>): set<Decision> {
    set f | f in fs :: f.action
  }

  function Rank(d: Decision): nat {
    match d
    case Allow => 0
    case Redact => 1
    case Block => 2
  }

  // ------------------------------------------------------------- the code

  datatype ScanResult = ScanResult(decision: Decision, findings: seq<Finding>, redacted: Json)

  /** The list and the set that the traversal mutates; `seen` is everything it ever recorded. */
  class Recorder {
    const rules: Rules
    const limit: int
    var findings: seq<Finding>
    var decisions: set<Decision>
    ghost var seen: seq<Finding>

    constructor (rules: Rules, limit: int)
      ensures Valid() && seen == [] && this.rules == rules && this.limit == limit
    {
      this.rules, this.limit := rules, limit;
      findings, decisions, seen := [], {}, [];
    }

    ghost predicate Valid()
      reads this
    {
      findings == First(seen, limit) && decisions == Actions(seen)
    }

    /** `_record_pre_spend_finding`: the decision is kept even when the list is full. */
    method Record(f: Finding)
      requires Valid()
      modifies this
      ensures Valid() && seen == old(seen) + [f]
    {
      assert f in seen + [f];
      assert forall g :: g in seen + [f] <==> g in seen || g == f;
      decisions := decisions + {f.action};
      seen := seen + [f];
      if |findings| >= limit {
        return;
      }
      findings := findings + [f];
    }

    /** `_redact_pattern`. */
    method RedactPattern(text: string, p: Pattern, kind: Kind, path: seq<Step>, action: Decision) returns (r: string)
      requires Valid()
      modifies this
      ensures Valid() && seen == old(seen) + PieceFindings(p.cut(text), kind, p, path, action)
      ensures r == Substituted(p.cut(text), p.replacement)
    {
      var pieces := p.cut(text);
      r := "";
      for i := 0 to |pieces|
        invariant Valid() && seen == old(seen) + PieceFindings(pieces[..i], kind, p, path, action)
        invariant r == Substituted(pieces[..i], p.replacement)
      {
        assert pieces[..i + 1][..i] == pieces[..i];
        if pieces[i].Match? {
          Record(Finding(kind, p.rule, path, action, Preview(p.replacement), Sha256(pieces[i].text)));
          r := r + p.replacement;
        } else {
          r := r + pieces[i].text;
        }
      }
      assert pieces[..|pieces|] == pieces;
    }

    /** `_scan_pre_spend_string`. */
    method ScanString(text: string, path: seq<Step>, field: Option<string>) returns (r: string)
      requires Valid()
      modifies this
      ensures Valid() && seen == old(seen) + LeafFindings(rules, Leaf(path, field, text))
      ensures r == LeafText(rules, Leaf(path, field, text))
    {
      hide Valid, PieceFindings, Substituted;
      if field.Some? && rules.secretField(field.value) && !rules.blank(text) {
        Record(Finding(Secret, "secret_field", path, Block, Preview(REDACTED_SECRET), Sha256(text)));
        return REDACTED_SECRET;
      }
      r := text;
      for i := 0 to |rules.secrets|
        invariant Valid() && seen == old(seen) + SecretFindings(text, rules.secrets[..i], path)
        invariant r == SecretText(text, rules.secrets[..i])
      {
        assert rules.secrets[..i + 1][..i] == rules.secrets[..i];
        r := RedactPattern(r, rules.secrets[i], Secret, path, Block);
      }
      assert rules.secrets[..|rules.secrets|] == rules.secrets;
      r := RedactPattern(r, rules.email, Pii, path, Redact);
    }

    /** `_scan_pre_spend_value`. */
    method ScanValue(v: Json, path: seq<Step>, field: Option<string>) returns (r: Json)
      requires Valid()
      modifies this
      ensures Valid() && seen == old(seen) + FindingsOf(rules, Leaves(v, path, field))
      ensures r == Redacted(rules, v, path, field)
      decreases Size(v), 0
    {
      match v {
        case Str(text) =>
          FindingsOfOne(rules, Leaf(path, field, text));
          var s := ScanString(text, path, field);
          r := Str(s);
        case Obj(entries) =>
          SortSize(entries);
          var redacted := ScanEntries(SortedEntries(entries), path);
          r := Obj(redacted);
        case Arr(items) =>
          var redacted := ScanItems(items, path);
          r := Arr(redacted);
        case Scalar(_) =>
          r := v;
      }
    }

    method ScanEntries(es: seq<Entry>, path: seq<Step>) returns (r: seq<Entry>)
      requires Valid()
      modifies this
      ensures Valid() && seen == old(seen) + FindingsOf(rules, EntryLeaves(es, path))
      ensures r == RedactedEntries(rules, es, path)
      decreases EntriesSize(es), 1
    {
      r := [];
      NothingYet(rules, path);
      hide *;
      for i := 0 to |es|
        invariant Valid() && seen == old(seen) + FindingsOf(rules, EntryLeaves(es[..i], path))
        invariant r == RedactedEntries(rules, es[..i], path)
      {
        EntrySmaller(es, i);
        EntryStep(rules, es, i, path);
        var value := ScanValue(es[i].value, path + [Field(es[i].key)], Some(es[i].key));
        r := r + [Entry(es[i].key, value)];
      }
      assert es[..|es|] == es;
    }

    method ScanItems(items: seq<Json>, path: seq<Step>) returns (r: seq<Json>)
      requires Valid()
      modifies this
      ensures Valid() && seen == old(seen) + FindingsOf(rules, ItemLeaves(items, path))
      ensures r == RedactedItems(rules, items, path)
      decreases ItemsSize(items), 1
    {
      r := [];
      NothingYet(rules, path);
      hide *;
      for i := 0 to |items|
        invariant Valid() && seen == old(seen) + FindingsOf(rules, ItemLeaves(items[..i], path))
        invariant r == RedactedItems(rules, items[..i], path)
      {
        ItemSmaller(items, i);
        ItemStep(rules, items, i, path);
        var value := ScanValue(items[i], path + [Index(i)], None);
        r := r + [value];
      }
      assert items[..|items|] == items;
    }
  }

  lemma FindingsOfOne(rules: Rules, leaf: Leaf)
    ensures FindingsOf(rules, [leaf]) == LeafFindings(rules, leaf)
  {
    assert [leaf][..0] == [];
  }

  lemma NothingYet(rules: Rules, path: seq<Step>)
    ensures FindingsOf(rules, EntryLeaves([], path)) == [] && RedactedEntries(rules, [], path) == []
    ensures FindingsOf(rules, ItemLeaves([], path)) == [] && RedactedItems(rules, [], path) == []
  {
  }

  lemma {:induction false} FindingsAppend(rules: Rules, a: seq<Leaf>, b: seq<Leaf>)
    ensures FindingsOf(rules, a + b) == FindingsOf(rules, a) + FindingsOf(rules, b)
  {
    hide LeafFindings;
    if b == [] {
      assert a + b == a;
    } else {
      var n := |b| - 1;
      FindingsAppend(rules, a, b[..n]);
      assert (a + b)[..|a + b| - 1] == a + b[..n];
    }
  }

  lemma EntryStep(rules: Rules, es: seq<Entry>, i: nat, path: seq<Step>)
    requires i < |es|
    ensures var e := es[i]; var child := path + [Field(e.key)];
            && FindingsOf(rules, EntryLeaves(es[..i + 1], path))
               == FindingsOf(rules, EntryLeaves(es[..i], path)) + FindingsOf(rules, Leaves(e.value, child, Some(e.key)))
            && RedactedEntries(rules, es[..i + 1], path)
               == RedactedEntries(rules, es[..i], path) + [Entry(e.key, Redacted(rules, e.value, child, Some(e.key)))]
  {
    hide Leaves, Redacted, FindingsOf;
    assert es[..i + 1][..i] == es[..i];
    FindingsAppend(rules, EntryLeaves(es[..i], path), Leaves(es[i].value, path + [Field(es[i].key)], Some(es[i].key)));
  }

  lemma ItemStep(rules: Rules, items: seq<Json>, i: nat, path: seq<Step>)
    requires i < |items|
    ensures var child := path + [Index(i)];
            && FindingsOf(rules, ItemLeaves(items[..i + 1], path))
               == FindingsOf(rules, ItemLeaves(items[..i], path)) + FindingsOf(rules, Leaves(items[i], child, None))
            && RedactedItems(rules, items[..i + 1], path)
               == RedactedItems(rules, items[..i], path) + [Redacted(rules, items[i], child, None)]
  {
    hide Leaves, Redacted, FindingsOf;
    assert items[..i + 1][..i] == items[..i];
    FindingsAppend(rules, ItemLeaves(items[..i], path), Leaves(items[i], path + [Index(i)], None));
  }

  /** Everything a scan of the payload would record if there were no limit. */
  function AllFindings(rules: Rules, payload: Json): seq<Finding> {
    FindingsOf(rules, Leaves(payload, [], None))
  }

  function Decide(decisions: set<Decision>): Decision {
    if Block in decisions then Block else if Redact in decisions then Redact else Allow
  }

  /** `d` is the strongest action among the findings, `allow` when there is none to act on. */
  ghost predicate Strongest(d: Decision, fs: seq<Finding>) {
    && (forall f :: f in fs ==> Rank(f.action) <= Rank(d))
    && (d == Allow || exists f :: f in fs && f.action == d)
  }

  lemma DecideIsStrongest(fs: seq<Finding>)
    ensures Strongest(Decide(Actions(fs)), fs)
  {
    forall f | f in fs ensures f.action in Actions(fs) {
    }
  }

  /** `scan_pre_spend_payload`: the findings are the first ones of the full list; the decision is
      the strongest action of the full list, whatever the limit cut off. */
  method ScanPreSpendPayload(payload: Json, rules: Rules, limit: int) returns (r: ScanResult)
    ensures r.findings == First(AllFindings(rules, payload), limit)
    ensures Strongest(r.decision, AllFindings(rules, payload))
    ensures r.redacted == Redacted(rules, payload, [], None)
  {
    hide Leaves, Redacted, FindingsOf, First, Strongest, Actions;
    var recorder := new Recorder(rules, limit);
    var redacted := recorder.ScanValue(payload, [], None);
    assert recorder.seen == AllFindings(rules, payload);
    DecideIsStrongest(recorder.seen);
    return ScanResult(Decide(recorder.decisions), recorder.findings, redacted);
  }

  // ------------------------------------------------------------- shape

  /** Two trees with the same arrays, scalars and object keys, strings apart. */
  ghost predicate SameShape(a: Json, b: Json)
    decreases Size(a), 0
  {
    match a
    case Str(_) => b.Str?
    case Obj(entries) => SortSize(entries); b.Obj? && SameEntries(SortedEntries(entries), b.entries)
    case Arr(items) => b.Arr? && SameItems(items, b.items)
    case Scalar(_) => b == a
  }

  ghost predicate SameEntries(a: seq<Entry>, b: seq<Entry>)
    decreases EntriesSize(a), |a| + 1
  {
    if a == [] then b == []
    else
      var n := |a| - 1;
      EntryLast(a);
      |b| == |a| && b[n].key == a[n].key && SameShape(a[n].value, b[n].value) && SameEntries(a[..n], b[..n])
  }

  ghost predicate SameItems(a: seq<Json>, b: seq<Json>)
    decreases ItemsSize(a), |a| + 1
  {
    if a == [] then b == []
    else
      var n := |a| - 1;
      ItemLast(a);
      |b| == |a| && SameShape(a[n], b[n]) && SameItems(a[..n], b[..n])
  }

  /** Redaction changes strings only: the redacted tree has the payload's arrays, scalars and keys,
      the keys of every object in sorted order. */
  lemma {:induction false} ShapeKept(rules: Rules, v: Json, path: seq<Step>, field: Option<string>)
    ensures SameShape(v, Redacted(rules, v, path, field))
    decreases Size(v), 0
  {
    match v {
      case Str(_) =>
      case Obj(entries) =>
        SortSize(entries);
        EntriesKept(rules, SortedEntries(entries), path);
      case Arr(items) =>
        ItemsKept(rules, items, path);
      case Scalar(_) =>
    }
  }

  lemma {:induction false} EntriesKept(rules: Rules, es: seq<Entry>, path: seq<Step>)
    ensures |RedactedEntries(rules, es, path)| == |es|
    ensures SameEntries(es, RedactedEntries(rules, es, path))
    decreases EntriesSize(es), |es| + 1
  {
    if es != [] {
      var n := |es| - 1;
      EntryLast(es);
      EntriesKept(rules, es[..n], path);
      ShapeKept(rules, es[n].value, path + [Field(es[n].key)], Some(es[n].key));
      hide SameShape, Redacted;
      assert RedactedEntries(rules, es, path)[..n] == RedactedEntries(rules, es[..n], path);
    }
  }

  lemma {:induction false} ItemsKept(rules: Rules, items: seq<Json>, path: seq<Step>)
    ensures |RedactedItems(rules, items, path)| == |items|
    ensures SameItems(items, RedactedItems(rules, items, path))
    decreases ItemsSize(items), |items| + 1
  {
    if items != [] {
      var n := |items| - 1;
      ItemLast(items);
      ItemsKept(rules, items[..n], path);
      ShapeKept(rules, items[n], path + [Index(n)], None);
      hide SameShape, Redacted;
      assert RedactedItems(rules, items, path)[..n] == RedactedItems(rules, items[..n], path);
    }
  }

  // ------------------------------------------------------------- insertion order

  function Keys(es: seq<Entry>): seq<string> {
    seq(|es|, i requires 0 <= i < |es| => es[i].key)
  }

  /** The same tree with the keys of any objects, at any depth, inserted in another order. Keys are
      distinct within an object. */
  ghost predicate Reinserted(a: Json, b: Json)
    decreases a
  {
    match a
    case Str(_) => b == a
    case Obj(es) =>
      && b.Obj?
      && NoDuplicates(Keys(es)) && NoDuplicates(Keys(b.entries))
      && Elements(Keys(es)) == Elements(Keys(b.entries))
      && (forall i, j :: 0 <= i < |es| && 0 <= j < |b.entries| && es[i].key == b.entries[j].key ==>
            Reinserted(es[i].value, b.entries[j].value))
    case Arr(items) =>
      b.Arr? && |b.items| == |items| && forall i :: 0 <= i < |items| ==> Reinserted(items[i], b.items[i])
    case Scalar(_) => b == a
  }

  /** No scan, wherever the tree stands, tells the two apart. */
  ghost predicate Agree(rules: Rules, a: Json, b: Json) {
    forall path, field :: Leaves(a, path, field) == Leaves(b, path, field)
                          && Redacted(rules, a, path, field) == Redacted(rules, b, path, field)
  }

  lemma EntryLeTotalPreorder()
    ensures TotalPreorder(EntryLe)
  {
    forall a, b ensures EntryLe(a, b) || EntryLe(b, a) {
      StringLeTotal(a.key, b.key);
    }
    forall a, b, c | EntryLe(a, b) && EntryLe(b, c) ensures EntryLe(a, c) {
      StringLeTransitive(a.key, b.key, c.key);
    }
  }

  /** The keys of a sorted object are the one increasing listing of its key set. */
  lemma SortedKeysList(es: seq<Entry>)
    requires NoDuplicates(Keys(es))
    ensures Lists(Keys(SortedEntries(es)), Elements(Keys(es)), StringLe)
  {
    var sorted := SortedEntries(es);
    EntryLeTotalPreorder();
    SortSorted(es, EntryLe);
    SortPermutes(es, EntryLe);
    SortMembers(es, EntryLe);
    forall i, j | 0 <= i < j < |es| ensures !(EntryLe(es[i], es[j]) && EntryLe(es[j], es[i])) {
      assert Keys(es)[i] != Keys(es)[j];
      if EntryLe(es[i], es[j]) && EntryLe(es[j], es[i]) {
        StringLeAntisymmetric(es[i].key, es[j].key);
      }
    }
    DistinctKeysPermute(es, sorted, EntryLe);
    forall i, j | 0 <= i < j < |sorted| ensures Keys(sorted)[i] != Keys(sorted)[j] && StringLe(Keys(sorted)[i], Keys(sorted)[j]) {
      assert EntryLe(sorted[i], sorted[j]);
    }
    SameKeySet(es, sorted);
  }

  lemma SameKeySet(a: seq<Entry>, b: seq<Entry>)
    requires forall e :: e in a <==> e in b
    ensures Elements(Keys(a)) == Elements(Keys(b))
  {
    forall k ensures k in Elements(Keys(a)) <==> k in Elements(Keys(b)) {
      if k in Keys(a) {
        var i :| 0 <= i < |a| && Keys(a)[i] == k;
        assert a[i] in b;
        var j :| 0 <= j < |b| && b[j] == a[i];
        assert Keys(b)[j] == k;
      }
      if k in Keys(b) {
        var j :| 0 <= j < |b| && Keys(b)[j] == k;
        assert b[j] in a;
        var i :| 0 <= i < |a| && a[i] == b[j];
        assert Keys(a)[i] == k;
      }
    }
  }

  lemma {:induction false} EntriesAgree(rules: Rules, a: seq<Entry>, b: seq<Entry>, path: seq<Step>)
    requires |a| == |b|
    requires forall k :: 0 <= k < |a| ==> a[k].key == b[k].key && Agree(rules, a[k].value, b[k].value)
    ensures EntryLeaves(a, path) == EntryLeaves(b, path) && RedactedEntries(rules, a, path) == RedactedEntries(rules, b, path)
  {
    if a != [] {
      var n := |a| - 1;
      EntriesAgree(rules, a[..n], b[..n], path);
      assert Agree(rules, a[n].value, b[n].value);
    }
  }

  lemma {:induction false} ItemsAgree(rules: Rules, a: seq<Json>, b: seq<Json>, path: seq<Step>)
    requires |a| == |b| && forall k :: 0 <= k < |a| ==> Agree(rules, a[k], b[k])
    ensures ItemLeaves(a, path) == ItemLeaves(b, path) && RedactedItems(rules, a, path) == RedactedItems(rules, b, path)
  {
    if a != [] {
      var n := |a| - 1;
      ItemsAgree(rules, a[..n], b[..n], path);
      assert Agree(rules, a[n], b[n]);
    }
  }

  lemma {:induction false} ReinsertedAgree(rules: Rules, a: Json, b: Json)
    requires Reinserted(a, b)
    ensures Agree(rules, a, b)
    decreases a
  {
    hide Agree;
    match a {
      case Str(_) =>
        SameAgrees(rules, a);
      case Obj(es) =>
        forall i, j | 0 <= i < |es| && 0 <= j < |b.entries| && es[i].key == b.entries[j].key
          ensures Agree(rules, es[i].value, b.entries[j].value)
        {
          ReinsertedAgree(rules, es[i].value, b.entries[j].value);
        }
        ObjectsAgree(rules, es, b.entries);
      case Arr(items) =>
        forall k | 0 <= k < |items| ensures Agree(rules, items[k], b.items[k]) {
          ReinsertedAgree(rules, items[k], b.items[k]);
        }
        ArraysAgree(rules, items, b.items);
      case Scalar(_) =>
        SameAgrees(rules, a);
    }
  }

  lemma SameAgrees(rules: Rules, a: Json)
    ensures Agree(rules, a, a)
  {
  }

  lemma ArraysAgree(rules: Rules, a: seq<Json>, b: seq<Json>)
    requires |a| == |b| && forall k :: 0 <= k < |a| ==> Agree(rules, a[k], b[k])
    ensures Agree(rules, Arr(a), Arr(b))
  {
    hide ItemLeaves, RedactedItems;
    forall path, field
      ensures Leaves(Arr(a), path, field) == Leaves(Arr(b), path, field)
      ensures Redacted(rules, Arr(a), path, field) == Redacted(rules, Arr(b), path, field)
    {
      ItemsAgree(rules, a, b, path);
      assert Leaves(Arr(a), path, field) == ItemLeaves(a, path);
      assert Leaves(Arr(b), path, field) == ItemLeaves(b, path);
      assert Redacted(rules, Arr(a), path, field) == Arr(RedactedItems(rules, a, path));
      assert Redacted(rules, Arr(b), path, field) == Arr(RedactedItems(rules, b, path));
    }
  }

  lemma ObjectsAgree(rules: Rules, es: seq<Entry>, fs: seq<Entry>)
    requires NoDuplicates(Keys(es)) && NoDuplicates(Keys(fs)) && Elements(Keys(es)) == Elements(Keys(fs))
    requires forall i, j :: 0 <= i < |es| && 0 <= j < |fs| && es[i].key == fs[j].key ==> Agree(rules, es[i].value, fs[j].value)
    ensures Agree(rules, Obj(es), Obj(fs))
  {
    hide Agree, Lists, NoDuplicates;
    var a, b := SortedEntries(es), SortedEntries(fs);
    SortedPairs(rules, es, fs);
    hide SortedEntries;
    forall path ensures EntryLeaves(a, path) == EntryLeaves(b, path) && RedactedEntries(rules, a, path) == RedactedEntries(rules, b, path) {
      EntriesAgree(rules, a, b, path);
    }
    ObjectAgree(rules, es, fs);
  }

  lemma ObjectAgree(rules: Rules, es: seq<Entry>, fs: seq<Entry>)
    requires forall path :: EntryLeaves(SortedEntries(es), path) == EntryLeaves(SortedEntries(fs), path)
                            && RedactedEntries(rules, SortedEntries(es), path) == RedactedEntries(rules, SortedEntries(fs), path)
    ensures Agree(rules, Obj(es), Obj(fs))
  {
    hide SortedEntries, EntryLeaves, RedactedEntries;
    forall path, field
      ensures Leaves(Obj(es), path, field) == Leaves(Obj(fs), path, field)
      ensures Redacted(rules, Obj(es), path, field) == Redacted(rules, Obj(fs), path, field)
    {
      assert Leaves(Obj(es), path, field) == EntryLeaves(SortedEntries(es), path);
      assert Leaves(Obj(fs), path, field) == EntryLeaves(SortedEntries(fs), path);
      assert Redacted(rules, Obj(es), path, field) == Obj(RedactedEntries(rules, SortedEntries(es), path));
      assert Redacted(rules, Obj(fs), path, field) == Obj(RedactedEntries(rules, SortedEntries(fs), path));
    }
  }

  lemma SortedPairs(rules: Rules, es: seq<Entry>, fs: seq<Entry>)
    requires NoDuplicates(Keys(es)) && NoDuplicates(Keys(fs)) && Elements(Keys(es)) == Elements(Keys(fs))
    requires forall i, j :: 0 <= i < |es| && 0 <= j < |fs| && es[i].key == fs[j].key ==> Agree(rules, es[i].value, fs[j].value)
    ensures var a, b := SortedEntries(es), SortedEntries(fs);
            |a| == |b| && forall k :: 0 <= k < |a| ==> a[k].key == b[k].key && Agree(rules, a[k].value, b[k].value)
  {
    hide Agree;
    var a, b := SortedEntries(es), SortedEntries(fs);
    SortedKeysList(es);
    SortedKeysList(fs);
    StringLeLinear();
    ListsUnique(Keys(a), Keys(b), Elements(Keys(es)), StringLe);
    SortMembers(es, EntryLe);
    SortMembers(fs, EntryLe);
    hide Lists, LinearOrder, StringLe, NoDuplicates, SortedEntries;
    assert |a| == |Keys(a)| == |Keys(b)| == |b|;
    forall k | 0 <= k < |a| ensures a[k].key == b[k].key && Agree(rules, a[k].value, b[k].value) {
      assert a[k].key == Keys(a)[k] == Keys(b)[k] == b[k].key;
      assert a[k] in a && b[k] in b;
      var i :| 0 <= i < |es| && es[i] == a[k];
      var j :| 0 <= j < |fs| && fs[j] == b[k];
    }
  }

  /** Neither the findings and their order, nor the decision, nor the redacted payload depends on
      the order in which keys were inserted. */
  lemma ScanIgnoresInsertionOrder(rules: Rules, payload: Json, shuffled: Json)
    requires Reinserted(payload, shuffled)
    ensures AllFindings(rules, payload) == AllFindings(rules, shuffled)
    ensures Redacted(rules, payload, [], None) == Redacted(rules, shuffled, [], None)
  {
    hide Leaves, Redacted, Reinserted;
    ReinsertedAgree(rules, payload, shuffled);
  }

  // ------------------------------------------------------------- clean payloads

  function Joined(pieces: seq<Piece>): string {
    if pieces == [] then "" else Joined(pieces[..|pieces| - 1]) + pieces[|pieces| - 1].text
  }

  /** A pattern cuts a text into pieces that make up the text. */
  ghost predicate Cuts(p: Pattern) {
    forall text :: Joined(p.cut(text)) == text
  }

  ghost predicate RulesCut(rules: Rules) {
    Cuts(rules.email) && forall i :: 0 <= i < |rules.secrets| ==> Cuts(rules.secrets[i])
  }

  lemma {:induction false} NoMatchNoChange(pieces: seq<Piece>, kind: Kind, p: Pattern, path: seq<Step>, action: Decision)
    requires PieceFindings(pieces, kind, p, path, action) == []
    ensures Substituted(pieces, p.replacement) == Joined(pieces)
  {
    if pieces != [] {
      var n := |pieces| - 1;
      assert PieceFindings(pieces[..n], kind, p, path, action) == [] && pieces[n].Plain?;
      NoMatchNoChange(pieces[..n], kind, p, path, action);
    }
  }

  lemma {:induction false} NoSecretNoChange(text: string, ps: seq<Pattern>, path: seq<Step>)
    requires SecretFindings(text, ps, path) == [] && forall i :: 0 <= i < |ps| ==> Cuts(ps[i])
    ensures SecretText(text, ps) == text
  {
    if ps != [] {
      var n := |ps| - 1;
      NoSecretNoChange(text, ps[..n], path);
      NoMatchNoChange(ps[n].cut(text), Secret, ps[n], path, Block);
      assert Cuts(ps[n]);
    }
  }

  lemma CleanLeafKept(rules: Rules, leaf: Leaf)
    requires RulesCut(rules) && LeafFindings(rules, leaf) == []
    ensures LeafText(rules, leaf) == leaf.text
  {
    NoSecretNoChange(leaf.text, rules.secrets, leaf.path);
    NoMatchNoChange(rules.email.cut(leaf.text), Pii, rules.email, leaf.path, Redact);
  }

  /** The tree itself, with the keys of every object sorted. */
  function Tidy(v: Json): Json
    decreases Size(v), 0
  {
    match v
    case Obj(entries) => SortSize(entries); Obj(TidyEntries(SortedEntries(entries)))
    case Arr(items) => Arr(TidyItems(items))
    case _ => v
  }

  function TidyEntries(es: seq<Entry>): seq<Entry>
    decreases EntriesSize(es), |es| + 1
  {
    if es == [] then []
    else
      var n := |es| - 1;
      EntryLast(es);
      TidyEntries(es[..n]) + [Entry(es[n].key, Tidy(es[n].value))]
  }

  function TidyItems(items: seq<Json>): seq<Json>
    decreases ItemsSize(items), |items| + 1
  {
    if items == [] then []
    else
      var n := |items| - 1;
      ItemLast(items);
      TidyItems(items[..n]) + [Tidy(items[n])]
  }

  lemma {:induction false} CleanKept(rules: Rules, v: Json, path: seq<Step>, field: Option<string>)
    requires RulesCut(rules) && FindingsOf(rules, Leaves(v, path, field)) == []
    ensures Redacted(rules, v, path, field) == Tidy(v)
    decreases Size(v), 0
  {
    hide RulesCut;
    match v {
      case Str(text) =>
        FindingsOfOne(rules, Leaf(path, field, text));
        CleanLeafKept(rules, Leaf(path, field, text));
      case Obj(entries) =>
        SortSize(entries);
        CleanEntriesKept(rules, SortedEntries(entries), path);
      case Arr(items) =>
        CleanItemsKept(rules, items, path);
      case Scalar(_) =>
    }
  }

  lemma {:induction false} CleanEntriesKept(rules: Rules, es: seq<Entry>, path: seq<Step>)
    requires RulesCut(rules) && FindingsOf(rules, EntryLeaves(es, path)) == []
    ensures RedactedEntries(rules, es, path) == TidyEntries(es)
    decreases EntriesSize(es), |es| + 1
  {
    hide RulesCut, Redacted, Leaves, Tidy, FindingsOf;
    if es != [] {
      var n := |es| - 1;
      EntryLast(es);
      EntryStep(rules, es, n, path);
      assert es[..n + 1] == es;
      CleanEntriesKept(rules, es[..n], path);
      CleanKept(rules, es[n].value, path + [Field(es[n].key)], Some(es[n].key));
    }
  }

  lemma {:induction false} CleanItemsKept(rules: Rules, items: seq<Json>, path: seq<Step>)
    requires RulesCut(rules) && FindingsOf(rules, ItemLeaves(items, path)) == []
    ensures RedactedItems(rules, items, path) == TidyItems(items)
    decreases ItemsSize(items), |items| + 1
  {
    hide RulesCut, Redacted, Leaves, Tidy, FindingsOf;
    if items != [] {
      var n := |items| - 1;
      ItemLast(items);
      ItemStep(rules, items, n, path);
      assert items[..n + 1] == items;
      CleanItemsKept(rules, items[..n], path);
      CleanKept(rules, items[n], path + [Index(n)], None);
    }
  }

  lemma {:induction false} PieceActs(pieces: seq<Piece>, kind: Kind, p: Pattern, path: seq<Step>, action: Decision)
    requires action != Allow
    ensures forall f :: f in PieceFindings(pieces, kind, p, path, action) ==> f.action != Allow
  {
    if pieces != [] {
      PieceActs(pieces[..|pieces| - 1], kind, p, path, action);
    }
  }

  lemma {:induction false} SecretActs(text: string, ps: seq<Pattern>, path: seq<Step>)
    ensures forall f :: f in SecretFindings(text, ps, path) ==> f.action != Allow
  {
    if ps != [] {
      var n := |ps| - 1;
      SecretActs(text, ps[..n], path);
      PieceActs(ps[n].cut(SecretText(text, ps[..n])), Secret, ps[n], path, Block);
    }
  }

  lemma {:induction false} FindingsAct(rules: Rules, leaves: seq<Leaf>)
    ensures forall f :: f in FindingsOf(rules, leaves) ==> f.action != Allow
  {
    if leaves != [] {
      var leaf := leaves[|leaves| - 1];
      FindingsAct(rules, leaves[..|leaves| - 1]);
      SecretActs(leaf.text, rules.secrets, leaf.path);
      PieceActs(rules.email.cut(SecretText(leaf.text, rules.secrets)), Pii, rules.email, leaf.path, Redact);
    }
  }

  /** The decision is `allow` exactly when nothing was found at all, and then the payload comes
      back with nothing changed but the order of keys. */
  lemma AllowMeansClean(rules: Rules, payload: Json, d: Decision)
    requires RulesCut(rules) && Strongest(d, AllFindings(rules, payload))
    ensures d == Allow <==> AllFindings(rules, payload) == []
    ensures d == Allow ==> Redacted(rules, payload, [], None) == Tidy(payload)
  {
    hide Leaves, Redacted, FindingsOf, Tidy, RulesCut;
    var all := AllFindings(rules, payload);
    FindingsAct(rules, Leaves(payload, [], None));
    if all == [] {
      CleanKept(rules, payload, [], None);
    } else {
      assert all[0] in all;
    }
  }
}
