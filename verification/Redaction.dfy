/** The budgeted redactor of raw upstream payloads.  Regular expressions, key
    normalisation and the JSON codec are parameters. */
module Redaction {
  import opened Vocabulary

  const MAX_DEPTH := 20
  const MAX_NODES := 20_000
  const MAX_CHARS := 2_000_000
  const MAX_ITEMS := 1000
  const MAX_KEY := 160
  const MAX_EMBEDDED := 256_000
  const MAX_TEXT := 200_000

  /** A decoded payload: text, other scalars, arrays, and objects in key order. */
  datatype Value =
    | Text(text: string)
    | Scalar(id: int)
    | Array(items: seq<Value>)
    | Object(entries: seq<(string, Value)>)

  /** What the redactor takes from its environment. */
  datatype Codec = Codec(
    normalize: string -> string,
    sensitive: string -> bool,
    namesUrl: string -> bool,
    looksLikeUrl: string -> bool,
    dropQuery: string -> string,
    maskTokens: string -> string,
    strip: string -> string,
    parse: string -> Option<Value>,
    dump: Value -> string)

  datatype Budget = Budget(nodes: int, chars: int)

  const TRUNCATED := Text("[TRUNCATED]")
  const REDACTED := Text("[REDACTED]")

  function Head<T>(items: seq<T>): seq<T> {
    if |items| <= MAX_ITEMS then items else items[..MAX_ITEMS]
  }

  /** Assigning into a dictionary: a key that is already there keeps its place. */
  function Assign(entries: seq<(string, Value)>, key: string, value: Value): seq<(string, Value)> {
    if entries == [] then [(key, value)]
    else if entries[0].0 == key then [(key, value)] + entries[1..]
    else [entries[0]] + Assign(entries[1..], key, value)
  }

  function Masked(c: Codec, text: string, hint: string): string {
    c.maskTokens(if c.namesUrl(hint) || c.looksLikeUrl(text) then c.dropQuery(text) else text)
  }

  /** Whether a text is looked into: not too deep, not too long, and opening like a container. */
  predicate LooksInto(c: Codec, masked: string, depth: int) {
    var stripped := c.strip(masked);
    depth < MAX_DEPTH - 1 && |stripped| <= MAX_EMBEDDED && stripped != "" && stripped[0] in "{["
  }

  /** The container that a text encodes, if it does. */
  function Container(c: Codec, masked: string): Option<Value> {
    match c.parse(c.strip(masked))
    case Some(Array(items)) => Some(Array(items))
    case Some(Object(entries)) => Some(Object(entries))
    case _ => None
  }

  function Embedded(c: Codec, masked: string, depth: int): Option<Value> {
    if LooksInto(c, masked, depth) then Container(c, masked) else None
  }

  function KeyText(key: string): string {
    if |key| <= MAX_KEY then key else key[..MAX_KEY]
  }

  /** Cuts a text to what the character budget still allows. */
  function Charged(text: string, budget: Budget): (Value, Budget) {
    var available := Max(0, Min(MAX_TEXT, budget.chars));
    if |text| <= available then (Text(text), budget.(chars := budget.chars - |text|))
    else (Text(text[..available] + "[TRUNCATED]"), budget.(chars := budget.chars - available))
  }

  /** The redacted value and what is left of the budget. */
  function Redact(c: Codec, value: Value, depth: nat, budget: Budget, hint: string): (Value, Budget)
    decreases MAX_DEPTH - depth, 0
  {
    if depth >= MAX_DEPTH || budget.nodes <= 0 || budget.chars <= 0 then (TRUNCATED, budget)
    else
      var spent := budget.(nodes := budget.nodes - 1);
      match value
      case Scalar(_) => (value, spent)
      case Array(items) =>
        var (out, after) := RedactItems(c, Head(items), depth + 1, spent, hint);
        (Array(out), after)
      case Object(entries) =>
        var (out, after) := RedactEntries(c, Head(entries), depth + 1, spent, []);
        (Object(out), after)
      case Text(text) =>
        var masked := Masked(c, text, hint);
        match Embedded(c, masked, depth)
        case None => Charged(masked, spent)
        case Some(nested) =>
          var (clean, after) := Redact(c, nested, depth + 1, spent, hint);
          Charged(c.dump(clean), after)
  }

  function RedactItems(c: Codec, items: seq<Value>, depth: nat, budget: Budget, hint: string): (seq<Value>, Budget)
    decreases MAX_DEPTH - depth, |items| + 1
  {
    if items == [] then ([], budget)
    else
      var n := |items| - 1;
      var (before, left) := RedactItems(c, items[..n], depth, budget, hint);
      var (last, after) := Redact(c, items[n], depth, left, hint);
      (before + [last], after)
  }

  function RedactEntries(c: Codec, entries: seq<(string, Value)>, depth: nat, budget: Budget,
                         done: seq<(string, Value)>)
    : (seq<(string, Value)>, Budget)
    decreases MAX_DEPTH - depth, |entries| + 1
  {
    if entries == [] then (done, budget)
    else
      var n := |entries| - 1;
      var (before, left) := RedactEntries(c, entries[..n], depth, budget, done);
      var key := c.normalize(entries[n].0);
      if c.sensitive(key) then (Assign(before, KeyText(entries[n].0), REDACTED), left)
      else
        var (last, after) := Redact(c, entries[n].1, depth, left, key);
        (Assign(before, KeyText(entries[n].0), last), after)
  }

  // ------------------------------------------------------ the shared mutable budget

  class SharedBudget {
    var nodes: int
    var chars: int

    constructor ()
      ensures Value() == Budget(MAX_NODES, MAX_CHARS)
    {
      nodes, chars := MAX_NODES, MAX_CHARS;
    }

    function Value(): Budget
      reads this
    {
      Budget(nodes, chars)
    }

    /** Charges a text and cuts it to what is left. */
    method Charge(text: string) returns (out: Value)
      modifies this
      ensures (out, Value()) == Charged(text, old(Value()))
    {
      var available := Max(0, Min(MAX_TEXT, chars));
      var kept := if |text| <= available then text else text[..available];
      chars := chars - |kept|;
      out := Text(if |text| <= available then kept else kept + "[TRUNCATED]");
    }
  }

  /** The redactor as it runs: recursive, with one budget that every call draws on. */
  method RedactRawPayload(c: Codec, value: Value, depth: nat, budget: SharedBudget, hint: string) returns (out: Value)
    modifies budget
    ensures (out, budget.Value()) == Redact(c, value, depth, old(budget.Value()), hint)
    decreases MAX_DEPTH - depth, 0
  {
    if depth >= MAX_DEPTH || budget.nodes <= 0 || budget.chars <= 0 { return TRUNCATED; }
    budget.nodes := budget.nodes - 1;
    match value
    case Scalar(_) => out := value;
    case Array(items) =>
      var clean := RedactAll(c, Head(items), depth + 1, budget, hint);
      out := Array(clean);
    case Object(entries) =>
      var clean := RedactObject(c, Head(entries), depth + 1, budget);
      out := Object(clean);
    case Text(text) =>
      var masked := Masked(c, text, hint);
      var nested := Embedded(c, masked, depth);
      if nested.Some? {
        var clean := RedactRawPayload(c, nested.value, depth + 1, budget, hint);
        masked := c.dump(clean);
      }
      out := budget.Charge(masked);
  }

  method RedactAll(c: Codec, items: seq<Value>, depth: nat, budget: SharedBudget,
                   hint: string) returns (out: seq<Value>)
    modifies budget
    ensures (out, budget.Value()) == RedactItems(c, items, depth, old(budget.Value()), hint)
    decreases MAX_DEPTH - depth, |items| + 1
  {
    out := [];
    var i := 0;
    while i < |items|
      invariant 0 <= i <= |items|
      invariant (out, budget.Value()) == RedactItems(c, items[..i], depth, old(budget.Value()), hint)
    {
      assert items[..i + 1][..i] == items[..i];
      var clean := RedactRawPayload(c, items[i], depth, budget, hint);
      out := out + [clean];
      i := i + 1;
    }
    assert items[..i] == items;
  }

  method RedactObject(c: Codec, entries: seq<(string, Value)>, depth: nat,
                      budget: SharedBudget) returns (out: seq<(string, Value)>)
    modifies budget
    ensures (out, budget.Value()) == RedactEntries(c, entries, depth, old(budget.Value()), [])
    decreases MAX_DEPTH - depth, |entries| + 1
  {
    out := [];
    var i := 0;
    while i < |entries|
      invariant 0 <= i <= |entries|
      invariant (out, budget.Value()) == RedactEntries(c, entries[..i], depth, old(budget.Value()), [])
    {
      assert entries[..i + 1][..i] == entries[..i];
      var key := c.normalize(entries[i].0);
      if c.sensitive(key) {
        out := Assign(out, KeyText(entries[i].0), REDACTED);
      } else {
        var clean := RedactRawPayload(c, entries[i].1, depth, budget, key);
        out := Assign(out, KeyText(entries[i].0), clean);
      }
      i := i + 1;
    }
    assert entries[..i] == entries;
  }

  // ------------------------------------------------------ independence of secrets

  /** Two payloads that differ only in values under sensitive keys, in parts beyond the
      limits, or in the same way inside JSON embedded in two texts that are both looked
      into.  Texts that are not must be equal once masked. */
  ghost predicate Alike(c: Codec, v: Value, w: Value, depth: nat, hint: string)
    decreases MAX_DEPTH - depth, 0
  {
    if depth >= MAX_DEPTH then true
    else
      match (v, w)
      case (Scalar(i), Scalar(j)) => i == j
      case (Array(a), Array(b)) => AlikeItems(c, Head(a), Head(b), depth + 1, hint)
      case (Object(a), Object(b)) => AlikeEntries(c, Head(a), Head(b), depth + 1)
      case (Text(s), Text(t)) =>
        var x, y := Embedded(c, Masked(c, s, hint), depth), Embedded(c, Masked(c, t, hint), depth);
        if x.Some? && y.Some? then Alike(c, x.value, y.value, depth + 1, hint)
        else Masked(c, s, hint) == Masked(c, t, hint)
      case _ => false
  }

  ghost predicate AlikeItems(c: Codec, a: seq<Value>, b: seq<Value>, depth: nat, hint: string)
    decreases MAX_DEPTH - depth, |a| + 1
  {
    && |a| == |b|
    && (a != [] ==>
          && AlikeItems(c, a[..|a| - 1], b[..|b| - 1], depth, hint)
          && Alike(c, a[|a| - 1], b[|b| - 1], depth, hint))
  }

  ghost predicate AlikeEntries(c: Codec, a: seq<(string, Value)>, b: seq<(string, Value)>, depth: nat)
    decreases MAX_DEPTH - depth, |a| + 1
  {
    && |a| == |b|
    && (a != [] ==>
          && AlikeEntries(c, a[..|a| - 1], b[..|b| - 1], depth)
          && a[|a| - 1].0 == b[|b| - 1].0
          && (c.sensitive(c.normalize(a[|a| - 1].0))
              || Alike(c, a[|a| - 1].1, b[|b| - 1].1, depth, c.normalize(a[|a| - 1].0))))
  }

  /** The output and the budget left do not depend on any value under a sensitive key, nor
      on one inside JSON that is embedded in a text and looked into. */
  lemma {:induction false} SecretsDoNotShow(c: Codec, v: Value, w: Value, depth: nat, budget: Budget, hint: string)
    requires Alike(c, v, w, depth, hint)
    ensures Redact(c, v, depth, budget, hint) == Redact(c, w, depth, budget, hint)
    decreases MAX_DEPTH - depth, 0
  {
    if depth < MAX_DEPTH && budget.nodes > 0 && budget.chars > 0 {
      var spent := budget.(nodes := budget.nodes - 1);
      match (v, w) {
        case (Scalar(_), Scalar(_)) =>
        case (Array(a), Array(b)) => ItemsDoNotShow(c, Head(a), Head(b), depth + 1, spent, hint);
        case (Object(a), Object(b)) => EntriesDoNotShow(c, Head(a), Head(b), depth + 1, spent);
        case (Text(s), Text(t)) =>
          var x, y := Embedded(c, Masked(c, s, hint), depth), Embedded(c, Masked(c, t, hint), depth);
          if x.Some? && y.Some? { SecretsDoNotShow(c, x.value, y.value, depth + 1, spent, hint); }
        case _ =>
      }
    }
  }

  lemma {:induction false} ItemsDoNotShow(c: Codec, a: seq<Value>, b: seq<Value>, depth: nat, budget: Budget,
                                          hint: string)
    requires AlikeItems(c, a, b, depth, hint)
    ensures RedactItems(c, a, depth, budget, hint) == RedactItems(c, b, depth, budget, hint)
    decreases MAX_DEPTH - depth, |a| + 1
  {
    if a != [] {
      var n := |a| - 1;
      ItemsDoNotShow(c, a[..n], b[..n], depth, budget, hint);
      SecretsDoNotShow(c, a[n], b[n], depth, RedactItems(c, a[..n], depth, budget, hint).1, hint);
    }
  }

  lemma {:induction false} EntriesDoNotShow(c: Codec, a: seq<(string, Value)>, b: seq<(string, Value)>, depth: nat,
                                            budget: Budget)
    requires AlikeEntries(c, a, b, depth)
    ensures RedactEntries(c, a, depth, budget, []) == RedactEntries(c, b, depth, budget, [])
    decreases MAX_DEPTH - depth, |a| + 1
  {
    if a != [] {
      var n := |a| - 1;
      EntriesDoNotShow(c, a[..n], b[..n], depth, budget);
      if !c.sensitive(c.normalize(a[n].0)) {
        SecretsDoNotShow(c, a[n].1, b[n].1, depth, RedactEntries(c, a[..n], depth, budget, []).1, c.normalize(a[n].0));
      }
    }
  }

  /** Any payload is like itself, so the relation excludes nothing but real differences. */
  lemma {:induction false} AlikeItself(c: Codec, v: Value, depth: nat, hint: string)
    ensures Alike(c, v, v, depth, hint)
    decreases MAX_DEPTH - depth, 0
  {
    if depth < MAX_DEPTH {
      match v
      case Scalar(_) =>
      case Array(a) => ItemsAlikeThemselves(c, Head(a), depth + 1, hint);
      case Object(a) => EntriesAlikeThemselves(c, Head(a), depth + 1);
      case Text(s) =>
        var x := Embedded(c, Masked(c, s, hint), depth);
        if x.Some? { AlikeItself(c, x.value, depth + 1, hint); }
    }
  }

  lemma {:induction false} ItemsAlikeThemselves(c: Codec, a: seq<Value>, depth: nat, hint: string)
    ensures AlikeItems(c, a, a, depth, hint)
    decreases MAX_DEPTH - depth, |a| + 1
  {
    if a != [] {
      ItemsAlikeThemselves(c, a[..|a| - 1], depth, hint);
      AlikeItself(c, a[|a| - 1], depth, hint);
    }
  }

  lemma {:induction false} EntriesAlikeThemselves(c: Codec, a: seq<(string, Value)>, depth: nat)
    ensures AlikeEntries(c, a, a, depth)
    decreases MAX_DEPTH - depth, |a| + 1
  {
    if a != [] {
      EntriesAlikeThemselves(c, a[..|a| - 1], depth);
      AlikeItself(c, a[|a| - 1].1, depth, c.normalize(a[|a| - 1].0));
    }
  }

  /** Replacing the value under a sensitive key of an object by anything else. */
  lemma {:induction false} ReplacedSecretIsAlike(c: Codec, entries: seq<(string, Value)>, k: nat, secret: Value,
                                                 depth: nat)
    requires k < |entries| && c.sensitive(c.normalize(entries[k].0))
    ensures AlikeEntries(c, entries, entries[k := (entries[k].0, secret)], depth)
    decreases |entries|
  {
    var n := |entries| - 1;
    var other := entries[k := (entries[k].0, secret)];
    if k < n {
      assert other[..n] == entries[..n][k := (entries[k].0, secret)];
      ReplacedSecretIsAlike(c, entries[..n], k, secret, depth);
      AlikeItself(c, entries[n].1, depth, c.normalize(entries[n].0));
    } else {
      assert other[..n] == entries[..n];
      EntriesAlikeThemselves(c, entries[..n], depth);
    }
  }

  /** The concrete two-run statement: whatever is stored under a sensitive key of the
      payload, the diagnostic copy is the same. */
  lemma TopLevelSecretDoesNotShow(c: Codec, entries: seq<(string, Value)>, k: nat, secret: Value)
    requires k < |entries| && c.sensitive(c.normalize(entries[k].0))
    ensures Redact(c, Object(entries), 0, Budget(MAX_NODES, MAX_CHARS), "")
         == Redact(c, Object(entries[k := (entries[k].0, secret)]), 0, Budget(MAX_NODES, MAX_CHARS), "")
  {
    var other := entries[k := (entries[k].0, secret)];
    if k < |Head(entries)| {
      assert Head(other) == Head(entries)[k := (entries[k].0, secret)];
      ReplacedSecretIsAlike(c, Head(entries), k, secret, 1);
    } else {
      assert Head(other) == Head(entries);
      EntriesAlikeThemselves(c, Head(entries), 1);
    }
    SecretsDoNotShow(c, Object(entries), Object(other), 0, Budget(MAX_NODES, MAX_CHARS), "");
  }

  // ---------------------------------------------------- secrets in embedded JSON

  /** What of two texts is shown under this budget is the same. */
  predicate SameShown(x: string, y: string, budget: Budget) {
    var available := Max(0, Min(MAX_TEXT, budget.chars));
    x == y || (|x| > available && |y| > available && x[..available] == y[..available])
  }

  lemma ChargedAlike(x: string, y: string, budget: Budget)
    ensures Charged(x, budget) == Charged(y, budget) <==> SameShown(x, y, budget)
  {
    var available := Max(0, Min(MAX_TEXT, budget.chars));
    var (u, v) := (Charged(x, budget).0, Charged(y, budget).0);
    if |x| > available && |y| > available && u == v {
      assert x[..available] == u.text[..available] == v.text[..available] == y[..available];
    }
  }

  /** Two texts encode objects that differ only under sensitive keys, and the parts of the
      texts that would be shown differ.  The secret stays hidden if and only if the texts
      are looked into: an object nested too deep or encoded too long shows it. */
  lemma EmbeddedSecretsAreHiddenExactlyWhen(c: Codec, s: string, t: string, depth: nat, budget: Budget, hint: string)
    requires depth < MAX_DEPTH && budget.nodes > 0 && budget.chars > 0
    requires var x, y := Masked(c, s, hint), Masked(c, t, hint);
             && Container(c, x).Some? && Container(c, y).Some?
             && Alike(c, Container(c, x).value, Container(c, y).value, depth + 1, hint)
             && LooksInto(c, x, depth) == LooksInto(c, y, depth)
             && !SameShown(x, y, budget)
    ensures Redact(c, Text(s), depth, budget, hint) == Redact(c, Text(t), depth, budget, hint)
       <==> LooksInto(c, Masked(c, s, hint), depth)
  {
    var x, y := Masked(c, s, hint), Masked(c, t, hint);
    if LooksInto(c, x, depth) {
      SecretsDoNotShow(c, Text(s), Text(t), depth, budget, hint);
    } else {
      ChargedAlike(x, y, budget.(nodes := budget.nodes - 1));
    }
  }

  const PREFIX := "{\"token\":\""
  const MIDDLE := "\",\"padding\":\""

  /** The object `{"token":secret,"padding":x…x}` as it is encoded. */
  function LongObject(secret: char): string {
    PREFIX + [secret] + MIDDLE + seq(MAX_EMBEDDED, _ => 'x') + "\"}"
  }

  /** Decodes texts of the shape above, hides tokens and leaves everything else alone. */
  const PLAIN := Codec(
    key => key, key => key == "token", key => false, text => false, text => text, text => text, text => text,
    (text: string) =>
      if |text| > |PREFIX| + |MIDDLE| + 2 && PREFIX <= text
      then Some(Object([("token", Text([text[|PREFIX|]])),
                        ("padding", Text(text[|PREFIX| + 1 + |MIDDLE|..|text| - 2]))]))
      else None,
    value => "")

  /** A secret in an embedded object of more than 256,000 characters shows in a diagnostic
      copy made from the start, although both texts encode objects that are alike. */
  lemma LongEmbeddedSecretShows()
    ensures var x, y := LongObject('a'), LongObject('b');
            && Container(PLAIN, x).Some? && Container(PLAIN, y).Some?
            && Alike(PLAIN, Container(PLAIN, x).value, Container(PLAIN, y).value, 1, "")
            && Redact(PLAIN, Text(x), 0, Budget(MAX_NODES, MAX_CHARS), "")
            != Redact(PLAIN, Text(y), 0, Budget(MAX_NODES, MAX_CHARS), "")
  {
    var x, y := LongObject('a'), LongObject('b');
    var n := |PREFIX|;
    assert x[n] == 'a' && y[n] == 'b';
    assert x[..MAX_TEXT][n] != y[..MAX_TEXT][n];
    assert x[n + 1..] == y[n + 1..];
    var v, w := Container(PLAIN, x).value, Container(PLAIN, y).value;
    assert x[n + 1 + |MIDDLE|..|x| - 2] == y[n + 1 + |MIDDLE|..|y| - 2];
    assert w.entries == v.entries[0 := ("token", Text("b"))];
    ReplacedSecretIsAlike(PLAIN, v.entries, 0, Text("b"), 2);
    EmbeddedSecretsAreHiddenExactlyWhen(PLAIN, x, y, 0, Budget(MAX_NODES, MAX_CHARS), "");
  }

  // ------------------------------------------------------------ what is written

  function Find(entries: seq<(string, Value)>, key: string): Option<Value> {
    if entries == [] then None else if entries[0].0 == key then Some(entries[0].1) else Find(entries[1..], key)
  }

  lemma {:induction false} AssignFind(entries: seq<(string, Value)>, key: string, value: Value, other: string)
    ensures Find(Assign(entries, key, value), other) == if other == key then Some(value) else Find(entries, other)
  {
    if entries != [] { AssignFind(entries[1..], key, value, other); }
  }

  /** Where two keys are cut to the same text the later one wins; a sensitive key that wins
      is written as redacted, and any other key as its value redacted with what the entries
      before it left of the budget. */
  lemma {:induction false} LastEntryIsWritten(c: Codec, entries: seq<(string, Value)>, k: nat, depth: nat,
                                              budget: Budget)
    requires k < |entries|
    requires forall j :: k < j < |entries| ==> KeyText(entries[j].0) != KeyText(entries[k].0)
    ensures var key := c.normalize(entries[k].0);
            var left := RedactEntries(c, entries[..k], depth, budget, []).1;
            Find(RedactEntries(c, entries, depth, budget, []).0, KeyText(entries[k].0)) ==
              Some(if c.sensitive(key) then REDACTED else Redact(c, entries[k].1, depth, left, key).0)
    decreases |entries|
  {
    var n := |entries| - 1;
    var (before, left) := RedactEntries(c, entries[..n], depth, budget, []);
    var key := c.normalize(entries[n].0);
    var last := if c.sensitive(key) then REDACTED else Redact(c, entries[n].1, depth, left, key).0;
    AssignFind(before, KeyText(entries[n].0), last, KeyText(entries[k].0));
    if k < n {
      assert entries[..n][..k] == entries[..k];
      LastEntryIsWritten(c, entries[..n], k, depth, budget);
    }
  }

  // ------------------------------------------------------------------- budgets

  /** Spending never takes either budget below zero, and never gives any back. */
  ghost predicate Spends(before: Budget, after: Budget) {
    && after.nodes <= before.nodes && after.chars <= before.chars
    && (before.nodes >= 0 ==> after.nodes >= 0)
    && (before.chars >= 0 ==> after.chars >= 0)
  }

  lemma {:induction false} BudgetsNeverGoNegative(c: Codec, v: Value, depth: nat, budget: Budget, hint: string)
    ensures Spends(budget, Redact(c, v, depth, budget, hint).1)
    decreases MAX_DEPTH - depth, 0
  {
    if depth < MAX_DEPTH && budget.nodes > 0 && budget.chars > 0 {
      var spent := budget.(nodes := budget.nodes - 1);
      match v
      case Scalar(_) =>
      case Array(a) => ItemsSpend(c, Head(a), depth + 1, spent, hint);
      case Object(a) => EntriesSpend(c, Head(a), depth + 1, spent);
      case Text(s) =>
        var x := Embedded(c, Masked(c, s, hint), depth);
        if x.Some? { BudgetsNeverGoNegative(c, x.value, depth + 1, spent, hint); }
    }
  }

  lemma {:induction false} ItemsSpend(c: Codec, a: seq<Value>, depth: nat, budget: Budget, hint: string)
    ensures Spends(budget, RedactItems(c, a, depth, budget, hint).1)
    decreases MAX_DEPTH - depth, |a| + 1
  {
    if a != [] {
      ItemsSpend(c, a[..|a| - 1], depth, budget, hint);
      BudgetsNeverGoNegative(c, a[|a| - 1], depth, RedactItems(c, a[..|a| - 1], depth, budget, hint).1, hint);
    }
  }

  lemma {:induction false} EntriesSpend(c: Codec, a: seq<(string, Value)>, depth: nat, budget: Budget)
    ensures Spends(budget, RedactEntries(c, a, depth, budget, []).1)
    decreases MAX_DEPTH - depth, |a| + 1
  {
    if a != [] {
      EntriesSpend(c, a[..|a| - 1], depth, budget);
      var left := RedactEntries(c, a[..|a| - 1], depth, budget, []).1;
      BudgetsNeverGoNegative(c, a[|a| - 1].1, depth, left, c.normalize(a[|a| - 1].0));
    }
  }
}
