/** What the redactor keeps: a payload with nothing to hide comes back unchanged at the exact
    cost of its size, and any payload comes back with its own shape. */
module Retention {
  import opened Vocabulary
  import opened Redaction

  // ------------------------------------------------------------ nothing to hide

  /** Masking leaves the text alone, it is no longer than what one text may show, and it does
      not encode a container that would be looked into. */
  predicate PlainText(c: Codec, text: string, depth: nat, hint: string) {
    var stripped := c.strip(text);
    && |text| <= 200_000
    && (c.namesUrl(hint) || c.looksLikeUrl(text) ==> c.dropQuery(text) == text)
    && c.maskTokens(text) == text
    && (depth >= 19 || |stripped| > 256_000 || stripped == "" || (stripped[0] != '{' && stripped[0] != '[')
        || c.parse(stripped).None? || c.parse(stripped).value.Text? || c.parse(stripped).value.Scalar?)
  }

  /** Within every limit, with distinct keys, no sensitive key and only plain texts. */
  predicate Plain(c: Codec, v: Value, depth: nat, hint: string)
    decreases 20 - depth, 0
  {
    && depth < 20
    && match v
       case Scalar(_) => true
       case Text(text) => PlainText(c, text, depth, hint)
       case Array(items) => |items| <= 1000 && PlainItems(c, items, depth + 1, hint)
       case Object(entries) => |entries| <= 1000 && DistinctKeys(entries) && PlainEntries(c, entries, depth + 1)
  }

  predicate PlainItems(c: Codec, items: seq<Value>, depth: nat, hint: string)
    decreases 20 - depth, 1
  {
    forall i :: 0 <= i < |items| ==> depth <= 20 && Plain(c, items[i], depth, hint)
  }

  predicate DistinctKeys(entries: seq<(string, Value)>) {
    forall i, j :: 0 <= i < j < |entries| ==> entries[i].0 != entries[j].0
  }

  predicate PlainEntries(c: Codec, entries: seq<(string, Value)>, depth: nat)
    decreases 20 - depth, 1
  {
    forall i :: 0 <= i < |entries| ==>
      && |entries[i].0| <= 160 && !c.sensitive(c.normalize(entries[i].0))
      && depth <= 20 && Plain(c, entries[i].1, depth, c.normalize(entries[i].0))
  }

  /** How many values a payload holds, itself included. */
  function Nodes(v: Value): nat
    decreases v, 0
  {
    match v
    case Array(items) => 1 + NodesOfItems(items)
    case Object(entries) => 1 + NodesOfEntries(entries)
    case _ => 1
  }

  function NodesOfItems(items: seq<Value>): nat {
    if items == [] then 0 else NodesOfItems(items[..|items| - 1]) + Nodes(items[|items| - 1])
  }

  function NodesOfEntries(entries: seq<(string, Value)>): nat {
    if entries == [] then 0 else NodesOfEntries(entries[..|entries| - 1]) + NodesOfEntry(entries[|entries| - 1])
  }

  function NodesOfEntry(entry: (string, Value)): nat {
    Nodes(entry.1)
  }

  /** How many characters its texts have together. */
  function Chars(v: Value): nat
    decreases v, 0
  {
    match v
    case Text(text) => |text|
    case Scalar(_) => 0
    case Array(items) => CharsOfItems(items)
    case Object(entries) => CharsOfEntries(entries)
  }

  function CharsOfItems(items: seq<Value>): nat {
    if items == [] then 0 else CharsOfItems(items[..|items| - 1]) + Chars(items[|items| - 1])
  }

  function CharsOfEntries(entries: seq<(string, Value)>): nat {
    if entries == [] then 0 else CharsOfEntries(entries[..|entries| - 1]) + CharsOfEntry(entries[|entries| - 1])
  }

  function CharsOfEntry(entry: (string, Value)): nat {
    Chars(entry.1)
  }

  function Spent(budget: Budget, nodes: nat, chars: nat): Budget {
    Budget(budget.nodes - nodes, budget.chars - chars)
  }

  /** A new key goes to the end. */
  lemma {:induction false} AssignNew(entries: seq<(string, Value)>, key: string, value: Value)
    requires forall i :: 0 <= i < |entries| ==> entries[i].0 != key
    ensures Assign(entries, key, value) == entries + [(key, value)]
  {
    if entries != [] { AssignNew(entries[1..], key, value); }
  }

  lemma PlainTextIsShown(c: Codec, text: string, depth: nat, budget: Budget, hint: string)
    requires PlainText(c, text, depth, hint) && depth < 20 && budget.nodes > 0 && budget.chars > |text|
    ensures Redact(c, Text(text), depth, budget, hint) == (Text(text), Spent(budget, 1, |text|))
  {
    assert Masked(c, text, hint) == text && Embedded(c, text, depth).None?;
  }

  /** With enough budget a payload that has nothing to hide comes back unchanged, at a cost of
      exactly its values and its characters. */
  lemma {:induction false} PlainIsKept(c: Codec, v: Value, depth: nat, budget: Budget, hint: string)
    requires Plain(c, v, depth, hint) && budget.nodes >= Nodes(v) && budget.chars > Chars(v)
    ensures Redact(c, v, depth, budget, hint) == (v, Spent(budget, Nodes(v), Chars(v)))
    decreases 20 - depth, 0
  {
    hide PlainText, PlainItems, PlainEntries, RedactItems, RedactEntries, NodesOfItems, NodesOfEntries, Masked;
    var spent := budget.(nodes := budget.nodes - 1);
    match v
    case Scalar(_) =>
    case Text(text) => PlainTextIsShown(c, text, depth, budget, hint);
    case Array(items) => PlainItemsAreKept(c, items, depth + 1, spent, hint);
    case Object(entries) => PlainEntriesAreKept(c, entries, depth + 1, spent);
  }

  lemma {:induction false} PlainItemsAreKept(c: Codec, items: seq<Value>, depth: nat, budget: Budget, hint: string)
    requires PlainItems(c, items, depth, hint) && (items != [] ==> depth <= 20)
    requires budget.nodes >= NodesOfItems(items) && budget.chars > CharsOfItems(items)
    ensures RedactItems(c, items, depth, budget, hint)
            == (items, Spent(budget, NodesOfItems(items), CharsOfItems(items)))
    decreases 20 - depth, |items| + 1
  {
    hide Plain, Redact, Nodes, Chars;
    if items != [] {
      var n := |items| - 1;
      PlainItemsAreKept(c, items[..n], depth, budget, hint);
      PlainIsKept(c, items[n], depth, Spent(budget, NodesOfItems(items[..n]), CharsOfItems(items[..n])), hint);
      assert items == items[..n] + [items[n]];
    }
  }

  lemma {:induction false} PlainEntriesAreKept(c: Codec, entries: seq<(string, Value)>, depth: nat, budget: Budget)
    requires DistinctKeys(entries) && PlainEntries(c, entries, depth) && (entries != [] ==> depth <= 20)
    requires budget.nodes >= NodesOfEntries(entries) && budget.chars > CharsOfEntries(entries)
    ensures RedactEntries(c, entries, depth, budget, [])
         == (entries, Spent(budget, NodesOfEntries(entries), CharsOfEntries(entries)))
    decreases 20 - depth, |entries| + 1
  {
    hide Plain, Redact, Nodes, Chars;
    if entries != [] {
      var n := |entries| - 1;
      var rest := entries[..n];
      PlainEntriesAreKept(c, rest, depth, budget);
      PlainIsKept(c, entries[n].1, depth, Spent(budget, NodesOfEntries(rest), CharsOfEntries(rest)),
                  c.normalize(entries[n].0));
      AssignNew(rest, entries[n].0, entries[n].1);
      assert entries == rest + [entries[n]];
    }
  }

  /** The method, from the start: the default budgets suffice for 20,000 values and fewer than
      2,000,000 characters. */
  lemma PlainPayloadIsKept(c: Codec, v: Value)
    requires Plain(c, v, 0, "") && Nodes(v) <= 20_000 && Chars(v) < 2_000_000
    ensures Redact(c, v, 0, Budget(MAX_NODES, MAX_CHARS), "").0 == v
  {
    PlainIsKept(c, v, 0, Budget(MAX_NODES, MAX_CHARS), "");
  }

  // --------------------------------------------------------------- every payload

  /** The distinct texts of the keys, in the order of their first appearance. */
  function KeysOf(entries: seq<(string, Value)>): seq<string> {
    if entries == [] then []
    else
      var before, key := KeysOf(entries[..|entries| - 1]), KeyText(entries[|entries| - 1].0);
      if key in before then before else before + [key]
  }

  /** The last entry whose key is cut to this text. */
  function LastWith(entries: seq<(string, Value)>, key: string): Option<(string, Value)> {
    if entries == [] then None
    else
      var last := entries[|entries| - 1];
      if KeyText(last.0) == key then Some(last) else LastWith(entries[..|entries| - 1], key)
  }

  function Names(entries: seq<(string, Value)>): seq<string> {
    seq(|entries|, i requires 0 <= i < |entries| => entries[i].0)
  }

  /** The shown text is the whole text, or a first part of it, of 200,000 characters at most,
      followed by the mark. */
  ghost predicate ShowsText(text: string, out: Value) {
    && out.Text?
    && (out.text == text
        || exists n: nat :: n < |text| && n <= 200_000 && out.text == text[..n] + "[TRUNCATED]")
  }

  /** What an output may differ from its payload in: parts that are cut for depth or budget,
      values under sensitive keys, masked texts, and texts that encode containers, which are
      encoded again from an output of the container. */
  ghost predicate Shows(c: Codec, v: Value, out: Value, depth: nat, hint: string)
    decreases 20 - depth, 0
  {
    out == Text("[TRUNCATED]")
    || (depth < 20
        && match v
           case Scalar(_) => out == v
           case Array(items) =>
             && out.Array? && |out.items| == Min(1000, |items|)
             && ShowsItems(c, items, out.items, depth + 1, hint)
           case Object(entries) => out.Object? && ShowsEntries(c, Head(entries), out.entries, depth + 1)
           case Text(text) =>
             var masked := Masked(c, text, hint);
             match Embedded(c, masked, depth)
             case None => ShowsText(masked, out)
             case Some(nested) =>
               exists clean: Value :: Shows(c, nested, clean, depth + 1, hint) && ShowsText(c.dump(clean), out))
  }

  ghost predicate ShowsItems(c: Codec, items: seq<Value>, outs: seq<Value>, depth: nat, hint: string)
    requires |outs| <= |items|
    decreases 20 - depth, 1
  {
    forall i :: 0 <= i < |outs| ==> depth <= 20 && Shows(c, items[i], outs[i], depth, hint)
  }

  /** The keys of an object are kept in order; under each stands what its last entry shows. */
  ghost predicate ShowsEntries(c: Codec, entries: seq<(string, Value)>, outs: seq<(string, Value)>, depth: nat)
    decreases 20 - depth, 1
  {
    && Names(outs) == KeysOf(entries)
    && forall j :: 0 <= j < |outs| ==>
         && LastWith(entries, outs[j].0).Some?
         && var (key, value) := LastWith(entries, outs[j].0).value;
         && if c.sensitive(c.normalize(key)) then outs[j].1 == Text("[REDACTED]")
            else depth <= 20 && Shows(c, value, outs[j].1, depth, c.normalize(key))
  }

  lemma ChargedShows(text: string, budget: Budget)
    ensures ShowsText(text, Charged(text, budget).0)
  {
    var available := Max(0, Min(MAX_TEXT, budget.chars));
    if |text| > available { assert Charged(text, budget).0.text == text[..available] + "[TRUNCATED]"; }
  }

  /** Whatever the payload and the budget, the output has the payload's own shape: numbers and
      other scalars as they were, arrays and objects in order and with the same keys, and
      differences only where something is sensitive, masked or cut. */
  lemma {:induction false} OutputKeepsShape(c: Codec, v: Value, depth: nat, budget: Budget, hint: string)
    ensures Shows(c, v, Redact(c, v, depth, budget, hint).0, depth, hint)
    decreases MAX_DEPTH - depth, 0
  {
    hide RedactItems, RedactEntries, ShowsItems, ShowsEntries, Masked, Embedded, Charged, ShowsText;
    if depth < MAX_DEPTH && budget.nodes > 0 && budget.chars > 0 {
      var spent := budget.(nodes := budget.nodes - 1);
      match v
      case Scalar(_) =>
      case Array(items) => ItemsKeepShape(c, items, depth + 1, spent, hint);
      case Object(entries) => EntriesKeepShape(c, Head(entries), depth + 1, spent);
      case Text(text) =>
        var masked := Masked(c, text, hint);
        match Embedded(c, masked, depth) {
          case None => ChargedShows(masked, spent);
          case Some(nested) =>
            OutputKeepsShape(c, nested, depth + 1, spent, hint);
            var (clean, after) := Redact(c, nested, depth + 1, spent, hint);
            ChargedShows(c.dump(clean), after);
        }
    }
  }

  lemma {:induction false} ItemsAreShown(c: Codec, items: seq<Value>, depth: nat, budget: Budget, hint: string)
    requires depth <= MAX_DEPTH
    ensures var out := RedactItems(c, items, depth, budget, hint).0;
            |out| == |items| && ShowsItems(c, items, out, depth, hint)
    decreases MAX_DEPTH - depth, |items| + 1
  {
    hide Shows, Redact;
    if items != [] {
      var n := |items| - 1;
      ItemsAreShown(c, items[..n], depth, budget, hint);
      OutputKeepsShape(c, items[n], depth, RedactItems(c, items[..n], depth, budget, hint).1, hint);
    }
  }

  lemma ItemsKeepShape(c: Codec, items: seq<Value>, depth: nat, budget: Budget, hint: string)
    requires depth <= MAX_DEPTH
    ensures var out := RedactItems(c, Head(items), depth, budget, hint).0;
            |out| == Min(1000, |items|) && ShowsItems(c, items, out, depth, hint)
    decreases MAX_DEPTH - depth, |Head(items)| + 2
  {
    hide Shows, RedactItems;
    ItemsAreShown(c, Head(items), depth, budget, hint);
  }

  /** Assigning keeps the names in order, and changes what stands under its own name only. */
  lemma {:induction false} AssignNames(entries: seq<(string, Value)>, key: string, value: Value)
    requires DistinctKeys(entries)
    ensures var out := Assign(entries, key, value);
            && Names(out) == (if key in Names(entries) then Names(entries) else Names(entries) + [key])
            && forall j :: 0 <= j < |out| ==>
                 if out[j].0 == key then out[j].1 == value else j < |entries| && out[j] == entries[j]
  {
    if entries != [] {
      var first, rest := entries[0], entries[1..];
      assert entries == [first] + rest && Names(entries) == [first.0] + Names(rest);
      if first.0 == key {
        forall i | 0 <= i < |rest| ensures rest[i].0 != key { assert rest[i] == entries[i + 1]; }
        assert Names(Assign(entries, key, value)) == Names(entries);
        assert Names(entries)[0] == key;
      } else {
        AssignNames(rest, key, value);
        var tail := Assign(rest, key, value);
        assert Names([first] + tail) == [first.0] + Names(tail);
        assert key in Names(entries) <==> key in Names(rest);
      }
    }
  }

  lemma {:induction false} KeysAreDistinct(entries: seq<(string, Value)>)
    ensures forall i, j :: 0 <= i < j < |KeysOf(entries)| ==> KeysOf(entries)[i] != KeysOf(entries)[j]
  {
    if entries != [] { KeysAreDistinct(entries[..|entries| - 1]); }
  }

  lemma NamedDistinct(entries: seq<(string, Value)>, outs: seq<(string, Value)>)
    requires Names(outs) == KeysOf(entries)
    ensures DistinctKeys(outs)
  {
    KeysAreDistinct(entries);
    forall i, j | 0 <= i < j < |outs| ensures outs[i].0 != outs[j].0 {
      assert Names(outs)[i] == outs[i].0 && Names(outs)[j] == outs[j].0;
    }
  }

  /** One more entry, written under its cut key. */
  lemma OneMoreEntry(c: Codec, entries: seq<(string, Value)>, before: seq<(string, Value)>, value: Value, depth: nat)
    requires entries != [] && depth <= 20 && ShowsEntries(c, entries[..|entries| - 1], before, depth)
    requires var (key, item) := entries[|entries| - 1];
             if c.sensitive(c.normalize(key)) then value == Text("[REDACTED]")
             else Shows(c, item, value, depth, c.normalize(key))
    ensures ShowsEntries(c, entries, Assign(before, KeyText(entries[|entries| - 1].0), value), depth)
  {
    hide Shows, Assign, KeyText;
    var n := |entries| - 1;
    var k := KeyText(entries[n].0);
    NamedDistinct(entries[..n], before);
    AssignNames(before, k, value);
  }

  lemma {:induction false} EntriesKeepShape(c: Codec, entries: seq<(string, Value)>, depth: nat, budget: Budget)
    requires depth <= MAX_DEPTH
    ensures ShowsEntries(c, entries, RedactEntries(c, entries, depth, budget, []).0, depth)
    decreases MAX_DEPTH - depth, |entries| + 1
  {
    hide Shows, Redact, Assign, KeyText;
    if entries == [] {
      NothingToShow(c, depth);
    } else {
      var n := |entries| - 1;
      EntriesKeepShape(c, entries[..n], depth, budget);
      var (before, left) := RedactEntries(c, entries[..n], depth, budget, []);
      var key := c.normalize(entries[n].0);
      if c.sensitive(key) {
        OneMoreEntry(c, entries, before, REDACTED, depth);
      } else {
        OutputKeepsShape(c, entries[n].1, depth, left, key);
        OneMoreEntry(c, entries, before, Redact(c, entries[n].1, depth, left, key).0, depth);
      }
    }
  }

  lemma NothingToShow(c: Codec, depth: nat)
    ensures ShowsEntries(c, [], [], depth)
  {
  }

  // ------------------------------------------------------------------ the limits

  /** A value is cut as a whole, at no cost, exactly at depth twenty or when either budget is
      used up; every other value costs at least one. */
  lemma CutExactlyWhen(c: Codec, v: Value, depth: nat, budget: Budget, hint: string)
    ensures var (out, after) := Redact(c, v, depth, budget, hint);
            && (after == budget <==> depth >= 20 || budget.nodes <= 0 || budget.chars <= 0)
            && (after == budget ==> out == Text("[TRUNCATED]"))
            && (after != budget ==> after.nodes < budget.nodes)
  {
    hide RedactItems, RedactEntries, Masked, Embedded;
    if depth < 20 && budget.nodes > 0 && budget.chars > 0 {
      var spent := budget.(nodes := budget.nodes - 1);
      match v
      case Scalar(_) =>
      case Array(items) => ItemsSpend(c, Head(items), depth + 1, spent, hint);
      case Object(entries) => EntriesSpend(c, Head(entries), depth + 1, spent);
      case Text(text) =>
        var nested := Embedded(c, Masked(c, text, hint), depth);
        if nested.Some? { BudgetsNeverGoNegative(c, nested.value, depth + 1, spent, hint); }
    }
  }

  /** The first thousand members of an array or object are looked at, and the first 160
      characters of a key are written. */
  lemma FirstPartsAreKept(items: seq<Value>, entries: seq<(string, Value)>, key: string)
    ensures Head(items) <= items && |Head(items)| == Min(1000, |items|)
    ensures Head(entries) <= entries && |Head(entries)| == Min(1000, |entries|)
    ensures KeyText(key) <= key && |KeyText(key)| == Min(160, |key|)
  {
  }

  /** A text is looked into exactly above depth nineteen, up to 256,000 characters, when it
      opens like an array or object and encodes one. */
  lemma LookedIntoExactlyWhen(c: Codec, text: string, depth: nat)
    ensures var stripped := c.strip(text);
            Embedded(c, text, depth).Some? <==>
              && depth <= 18 && 1 <= |stripped| <= 256_000 && (stripped[0] == '{' || stripped[0] == '[')
              && c.parse(stripped).Some? && (c.parse(stripped).value.Array? || c.parse(stripped).value.Object?)
    ensures Embedded(c, text, depth).Some? ==> Embedded(c, text, depth) == c.parse(c.strip(text))
  {
  }

  /** Query strings are dropped under keys that name links and from texts that look like one;
      tokens are masked in every text, after that. */
  lemma MaskingCovers(c: Codec, text: string, hint: string)
    ensures c.namesUrl(hint) || c.looksLikeUrl(text) ==> Masked(c, text, hint) == c.maskTokens(c.dropQuery(text))
    ensures !c.namesUrl(hint) && !c.looksLikeUrl(text) ==> Masked(c, text, hint) == c.maskTokens(text)
  {
  }

  /** A text that fits what is left is shown whole and costs its length; any other shows and
      costs as much as is left, 200,000 characters at most. */
  lemma TextCosts(text: string, budget: Budget)
    requires budget.chars >= 0
    ensures var (out, after) := Charged(text, budget);
            var n := Min(200_000, budget.chars);
            && after.nodes == budget.nodes
            && (|text| <= n ==> out == Text(text) && after.chars == budget.chars - |text|)
            && (|text| > n ==> out == Text(text[..n] + "[TRUNCATED]") && after.chars == budget.chars - n)
  {
  }
}
