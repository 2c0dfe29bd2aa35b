/**
 * The walk over `reproductionData` and the redaction of a stored event: `aeh/contracts.py` with
 * `scrub` of `aeh/errors.py`. The two regular expressions are arbitrary functions.
 */
module Json {
  import opened Base

  datatype Json =
    | Null | Bool(flag: bool) | Number(text: string) | Text(chars: string)
    | Array(items: seq<Json>) | Object(fields: seq<Field>)
  datatype Field = Field(key: string, value: Json)

  /** Which keys are sensitive, and what replaces the secrets in a text. */
  datatype Rules = Rules(sensitive: string -> bool, substitute: string -> string)

  const MAX_DEPTH := 8
  const MAX_VALUES := 1000
  const MAX_TEXT := 4096
  const SCRUB_LIMIT := 2048
  const REDACTED := "[REDACTED]"

  function Scrub(rules: Rules, value: string, limit: nat): string {
    var clean := rules.substitute(value);
    if |clean| <= limit then clean else clean[..limit]
  }

  predicate TextOk(rules: Rules, value: string) {
    |value| <= MAX_TEXT && Scrub(rules, value, SCRUB_LIMIT) == value
  }

  // ---- what the check means ----

  function Max(a: nat, b: nat): nat {
    if a < b then b else a
  }

  /** Nesting below the root. */
  function Height(node: Json): nat
    decreases node
  {
    match node
    case Array(items) => ItemsHeight(items)
    case Object(fields) => FieldsHeight(fields)
    case _ => 0
  }

  function ItemsHeight(items: seq<Json>): nat
    decreases items
  {
    if items == [] then 0
    else Max(ItemsHeight(items[..|items| - 1]), 1 + Height(items[|items| - 1]))
  }

  function FieldsHeight(fields: seq<Field>): nat
    decreases fields
  {
    if fields == [] then 0
    else Max(FieldsHeight(fields[..|fields| - 1]), 1 + Height(fields[|fields| - 1].value))
  }

  function Size(node: Json): nat
    decreases node
  {
    match node
    case Array(items) => 1 + ItemsSize(items)
    case Object(fields) => 1 + FieldsSize(fields)
    case _ => 1
  }

  function ItemsSize(items: seq<Json>): nat
    decreases items
  {
    if items == [] then 0 else ItemsSize(items[..|items| - 1]) + Size(items[|items| - 1])
  }

  function FieldsSize(fields: seq<Field>): nat
    decreases fields
  {
    if fields == [] then 0 else FieldsSize(fields[..|fields| - 1]) + Size(fields[|fields| - 1].value)
  }

  /** No sensitive key and no offending text anywhere in the tree. */
  predicate Clean(rules: Rules, node: Json)
    decreases node
  {
    match node
    case Text(chars) => TextOk(rules, chars)
    case Array(items) => forall k :: 0 <= k < |items| ==> Clean(rules, items[k])
    case Object(fields) => forall k :: 0 <= k < |fields| ==> !rules.sensitive(fields[k].key) && Clean(rules, fields[k].value)
    case _ => true
  }

  predicate Acceptable(rules: Rules, node: Json) {
    Height(node) <= MAX_DEPTH && Size(node) <= MAX_VALUES && Clean(rules, node)
  }

  // ---- the walk ----

  datatype Complaint = TooLarge | SensitiveField | BadText

  /** The checks of the walk, in the order it makes them. */
  datatype Check = Value(depth: nat) | Key(key: string) | Chars(chars: string)

  function Walk(node: Json, depth: nat): seq<Check>
    decreases node, 1
  {
    [Value(depth)] + Inside(node, depth)
  }

  function Inside(node: Json, depth: nat): seq<Check>
    decreases node, 0
  {
    match node
    case Text(chars) => [Chars(chars)]
    case Array(items) => WalkItems(items, depth + 1)
    case Object(fields) => WalkFields(fields, depth + 1)
    case _ => []
  }

  function WalkItems(items: seq<Json>, depth: nat): seq<Check>
    decreases items
  {
    if items == [] then [] else WalkItems(items[..|items| - 1], depth) + Walk(items[|items| - 1], depth)
  }

  function WalkFields(fields: seq<Field>, depth: nat): seq<Check>
    decreases fields
  {
    if fields == [] then []
    else
      var last := fields[|fields| - 1];
      WalkFields(fields[..|fields| - 1], depth) + ([Key(last.key)] + Walk(last.value, depth))
  }

  datatype Progress = Going(count: nat) | Stopped(why: Complaint)

  function Make(rules: Rules, count: nat, check: Check): Progress {
    match check
    case Value(depth) => if depth > MAX_DEPTH || count + 1 > MAX_VALUES then Stopped(TooLarge) else Going(count + 1)
    case Key(key) => if rules.sensitive(key) then Stopped(SensitiveField) else Going(count)
    case Chars(chars) => if TextOk(rules, chars) then Going(count) else Stopped(BadText)
  }

  /** The checks one after the other, up to the first that fails. */
  function Scan(rules: Rules, count: nat, checks: seq<Check>): Progress {
    if checks == [] then Going(count)
    else
      var so := Scan(rules, count, checks[..|checks| - 1]);
      if so.Stopped? then so else Make(rules, so.count, checks[|checks| - 1])
  }

  lemma {:induction false} ScanSplits(rules: Rules, count: nat, a: seq<Check>, b: seq<Check>)
    ensures var so := Scan(rules, count, a);
            Scan(rules, count, a + b) == if so.Stopped? then so else Scan(rules, so.count, b)
  {
    if b == [] {
      assert a + b == a;
    } else {
      ScanSplits(rules, count, a, b[..|b| - 1]);
      assert (a + b)[..|a + b| - 1] == a + b[..|b| - 1];
    }
  }

  /** The walk of `check_reproduction_data`: a recursive visit that counts values in a field and stops at once. */
  class Walker {
    const rules: Rules
    var count: nat

    constructor (rules: Rules)
      ensures this.rules == rules && count == 0
    {
      this.rules, count := rules, 0;
    }

    /** Makes the checks of the subtree in order; a complaint ends the walk. */
    method Visit(node: Json, depth: nat) returns (why: Option<Complaint>)
      modifies this`count
      ensures Scan(rules, old(count), Walk(node, depth)) == if why.None? then Going(count) else Stopped(why.value)
      decreases node, 1
    {
      WalkStarts(rules, count, node, depth);
      count := count + 1;
      if depth > MAX_DEPTH || count > MAX_VALUES {
        return Some(TooLarge);
      }
      if node.Object? {
        why := VisitFields(node, depth + 1);
      } else if node.Array? {
        why := VisitItems(node, depth + 1);
      } else if node.Text? && (|node.chars| > MAX_TEXT || Scrub(rules, node.chars, SCRUB_LIMIT) != node.chars) {
        why := Some(BadText);
      } else {
        why := None;
      }
    }

    method VisitFields(node: Json, depth: nat) returns (why: Option<Complaint>)
      requires node.Object?
      modifies this`count
      ensures Scan(rules, old(count), WalkFields(node.fields, depth)) == if why.None? then Going(count) else Stopped(why.value)
      decreases node, 0
    {
      var n := 0;
      ghost var c := count;
      while n < |node.fields|
        invariant n <= |node.fields|
        invariant Scan(rules, c, WalkFields(node.fields[..n], depth)) == Going(count)
      {
        var f := node.fields[n];
        FieldsStep(rules, c, node.fields, n, depth);
        if rules.sensitive(f.key) {
          return Some(SensitiveField);
        }
        why := Visit(f.value, depth);
        if why.Some? {
          return;
        }
        n := n + 1;
      }
      assert node.fields[..n] == node.fields;
      why := None;
    }

    method VisitItems(node: Json, depth: nat) returns (why: Option<Complaint>)
      requires node.Array?
      modifies this`count
      ensures Scan(rules, old(count), WalkItems(node.items, depth)) == if why.None? then Going(count) else Stopped(why.value)
      decreases node, 0
    {
      var n := 0;
      ghost var c := count;
      while n < |node.items|
        invariant n <= |node.items|
        invariant Scan(rules, c, WalkItems(node.items[..n], depth)) == Going(count)
      {
        ItemsStep(rules, c, node.items, n, depth);
        why := Visit(node.items[n], depth);
        if why.Some? {
          return;
        }
        n := n + 1;
      }
      assert node.items[..n] == node.items;
      why := None;
    }
  }

  lemma ScanOne(rules: Rules, count: nat, check: Check)
    ensures Scan(rules, count, [check]) == Make(rules, count, check)
  {
    assert [check][..0] == [];
  }

  /** The walk of a subtree counts its root first and then goes on inside it. */
  lemma WalkStarts(rules: Rules, count: nat, node: Json, depth: nat)
    ensures Scan(rules, count, Walk(node, depth)) ==
            if depth > MAX_DEPTH || count + 1 > MAX_VALUES then Stopped(TooLarge) else Scan(rules, count + 1, Inside(node, depth))
    ensures node.Text? ==> Scan(rules, count + 1, Inside(node, depth)) == Make(rules, count + 1, Chars(node.chars))
    ensures !node.Text? && !node.Array? && !node.Object? ==> Scan(rules, count + 1, Inside(node, depth)) == Going(count + 1)
  {
    ScanOne(rules, count, Value(depth));
    ScanSplits(rules, count, [Value(depth)], Inside(node, depth));
    if node.Text? {
      ScanOne(rules, count + 1, Chars(node.chars));
    }
  }

  /** One more field of an object, for a walk that goes on and for one that stops here. */
  lemma FieldsStep(rules: Rules, count: nat, fields: seq<Field>, n: nat, depth: nat)
    requires n < |fields| && Scan(rules, count, WalkFields(fields[..n], depth)).Going?
    ensures var so := Scan(rules, count, WalkFields(fields[..n], depth)).count;
            var next := Scan(rules, count, WalkFields(fields[..n + 1], depth));
            && next == (if rules.sensitive(fields[n].key) then Stopped(SensitiveField) else Scan(rules, so, Walk(fields[n].value, depth)))
            && (next.Stopped? ==> Scan(rules, count, WalkFields(fields, depth)) == next)
  {
    var so := Scan(rules, count, WalkFields(fields[..n], depth)).count;
    assert fields[..n + 1][..n] == fields[..n];
    ScanSplits(rules, count, WalkFields(fields[..n], depth), [Key(fields[n].key)] + Walk(fields[n].value, depth));
    ScanSplits(rules, so, [Key(fields[n].key)], Walk(fields[n].value, depth));
    ScanOne(rules, so, Key(fields[n].key));
    FieldsStop(rules, count, fields, n + 1, depth);
  }

  lemma {:induction false} FieldsStop(rules: Rules, count: nat, fields: seq<Field>, n: nat, depth: nat)
    requires n <= |fields|
    ensures var so := Scan(rules, count, WalkFields(fields[..n], depth));
            so.Stopped? ==> Scan(rules, count, WalkFields(fields, depth)) == so
    decreases |fields| - n
  {
    if n == |fields| {
      assert fields[..n] == fields;
    } else {
      assert fields[..n + 1][..n] == fields[..n];
      ScanSplits(rules, count, WalkFields(fields[..n], depth), [Key(fields[n].key)] + Walk(fields[n].value, depth));
      FieldsStop(rules, count, fields, n + 1, depth);
    }
  }

  lemma ItemsStep(rules: Rules, count: nat, items: seq<Json>, n: nat, depth: nat)
    requires n < |items| && Scan(rules, count, WalkItems(items[..n], depth)).Going?
    ensures var so := Scan(rules, count, WalkItems(items[..n], depth)).count;
            var next := Scan(rules, count, WalkItems(items[..n + 1], depth));
            && next == Scan(rules, so, Walk(items[n], depth))
            && (next.Stopped? ==> Scan(rules, count, WalkItems(items, depth)) == next)
  {
    assert items[..n + 1][..n] == items[..n];
    ScanSplits(rules, count, WalkItems(items[..n], depth), Walk(items[n], depth));
    ItemsStop(rules, count, items, n + 1, depth);
  }

  lemma {:induction false} ItemsStop(rules: Rules, count: nat, items: seq<Json>, n: nat, depth: nat)
    requires n <= |items|
    ensures var so := Scan(rules, count, WalkItems(items[..n], depth));
            so.Stopped? ==> Scan(rules, count, WalkItems(items, depth)) == so
    decreases |items| - n
  {
    if n == |items| {
      assert items[..n] == items;
    } else {
      assert items[..n + 1][..n] == items[..n];
      ScanSplits(rules, count, WalkItems(items[..n], depth), Walk(items[n], depth));
      ItemsStop(rules, count, items, n + 1, depth);
    }
  }

  /** `check_reproduction_data`: it accepts exactly the acceptable trees, and complains about the first failing check. */
  method CheckReproductionData(rules: Rules, value: Json) returns (why: Option<Complaint>)
    ensures why.None? <==> Acceptable(rules, value)
    ensures why.Some? ==> Scan(rules, 0, Walk(value, 0)) == Stopped(why.value)
  {
    WalkDecides(rules, value);
    if value == Null {
      return None;
    }
    var walker := new Walker(rules);
    why := walker.Visit(value, 0);
  }

  // ---- the walk decides the predicate ----

  predicate Passes(rules: Rules, check: Check) {
    match check
    case Value(depth) => depth <= MAX_DEPTH
    case Key(key) => !rules.sensitive(key)
    case Chars(chars) => TextOk(rules, chars)
  }

  predicate AllPass(rules: Rules, checks: seq<Check>) {
    forall k :: 0 <= k < |checks| ==> Passes(rules, checks[k])
  }

  function Values(checks: seq<Check>): nat {
    if checks == [] then 0 else Values(checks[..|checks| - 1]) + if checks[|checks| - 1].Value? then 1 else 0
  }

  lemma {:induction false} ScanGoes(rules: Rules, count: nat, checks: seq<Check>)
    requires count <= MAX_VALUES
    ensures Scan(rules, count, checks).Going? <==> AllPass(rules, checks) && count + Values(checks) <= MAX_VALUES
    ensures Scan(rules, count, checks).Going? ==> Scan(rules, count, checks).count == count + Values(checks)
  {
    if checks != [] {
      var rest, last := checks[..|checks| - 1], checks[|checks| - 1];
      ScanGoes(rules, count, rest);
      AllPassSplits(rules, rest, [last]);
      assert checks == rest + [last];
      OneCheck(rules, last);
    }
  }

  lemma AllPassSplits(rules: Rules, a: seq<Check>, b: seq<Check>)
    ensures AllPass(rules, a + b) <==> AllPass(rules, a) && AllPass(rules, b)
  {
    if AllPass(rules, a + b) {
      forall k | 0 <= k < |a| ensures Passes(rules, a[k]) { assert a[k] == (a + b)[k]; }
      forall k | 0 <= k < |b| ensures Passes(rules, b[k]) { assert b[k] == (a + b)[|a| + k]; }
    }
  }

  lemma {:induction false} ValuesSplits(a: seq<Check>, b: seq<Check>)
    ensures Values(a + b) == Values(a) + Values(b)
  {
    if b == [] {
      assert a + b == a;
    } else {
      ValuesSplits(a, b[..|b| - 1]);
      assert (a + b)[..|a + b| - 1] == a + b[..|b| - 1];
    }
  }

  lemma {:induction false} WalkMeans(rules: Rules, node: Json, depth: nat)
    ensures Values(Walk(node, depth)) == Size(node)
    ensures AllPass(rules, Walk(node, depth)) <==> depth + Height(node) <= MAX_DEPTH && Clean(rules, node)
    decreases node, 1
  {
    OneCheck(rules, Value(depth));
    AllPassSplits(rules, [Value(depth)], Inside(node, depth));
    ValuesSplits([Value(depth)], Inside(node, depth));
    InsideMeans(rules, node, depth);
  }

  lemma {:induction false} InsideMeans(rules: Rules, node: Json, depth: nat)
    ensures 1 + Values(Inside(node, depth)) == Size(node)
    ensures AllPass(rules, Inside(node, depth)) <==> (depth + Height(node) <= MAX_DEPTH || Height(node) == 0) && Clean(rules, node)
    decreases node, 0
  {
    match node
    case Array(items) => ItemsMean(rules, items, depth + 1);
    case Object(fields) => FieldsMean(rules, fields, depth + 1);
    case Text(chars) => OneCheck(rules, Chars(chars));
    case _ =>
  }

  lemma OneCheck(rules: Rules, check: Check)
    ensures Values([check]) == if check.Value? then 1 else 0
    ensures AllPass(rules, [check]) <==> Passes(rules, check)
  {
    assert [check][..0] == [] && [check][0] == check;
  }

  predicate AllClean(rules: Rules, items: seq<Json>) {
    forall k :: 0 <= k < |items| ==> Clean(rules, items[k])
  }

  lemma AllCleanSplits(rules: Rules, items: seq<Json>)
    requires items != []
    ensures AllClean(rules, items) <==> AllClean(rules, items[..|items| - 1]) && Clean(rules, items[|items| - 1])
  {
    var rest := items[..|items| - 1];
    assert forall k :: 0 <= k < |rest| ==> rest[k] == items[k];
  }

  lemma {:induction false} ItemsMean(rules: Rules, items: seq<Json>, depth: nat)
    requires depth >= 1
    ensures Values(WalkItems(items, depth)) == ItemsSize(items)
    ensures AllPass(rules, WalkItems(items, depth)) <==>
            (items == [] || depth - 1 + ItemsHeight(items) <= MAX_DEPTH) && AllClean(rules, items)
    decreases items
  {
    if items != [] {
      var rest, last := items[..|items| - 1], items[|items| - 1];
      ItemsMean(rules, rest, depth);
      WalkMeans(rules, last, depth);
      AllPassSplits(rules, WalkItems(rest, depth), Walk(last, depth));
      ValuesSplits(WalkItems(rest, depth), Walk(last, depth));
      AllCleanSplits(rules, items);
    }
  }

  lemma {:induction false} FieldsMean(rules: Rules, fields: seq<Field>, depth: nat)
    requires depth >= 1
    ensures Values(WalkFields(fields, depth)) == FieldsSize(fields)
    ensures AllPass(rules, WalkFields(fields, depth)) <==>
            (fields == [] || depth - 1 + FieldsHeight(fields) <= MAX_DEPTH)
            && forall k :: 0 <= k < |fields| ==> !rules.sensitive(fields[k].key) && Clean(rules, fields[k].value)
    decreases fields
  {
    if fields != [] {
      var rest, last := fields[..|fields| - 1], fields[|fields| - 1];
      var key := [Key(last.key)];
      FieldsMean(rules, rest, depth);
      WalkMeans(rules, last.value, depth);
      OneCheck(rules, Key(last.key));
      AllPassSplits(rules, key, Walk(last.value, depth));
      ValuesSplits(key, Walk(last.value, depth));
      AllPassSplits(rules, WalkFields(rest, depth), key + Walk(last.value, depth));
      ValuesSplits(WalkFields(rest, depth), key + Walk(last.value, depth));
      assert forall k :: 0 <= k < |rest| ==> rest[k] == fields[k];
    }
  }

  /** The early-aborting count and the declarative predicate agree on every tree. */
  lemma WalkDecides(rules: Rules, value: Json)
    ensures Scan(rules, 0, Walk(value, 0)).Going? <==> Acceptable(rules, value)
  {
    ScanGoes(rules, 0, Walk(value, 0));
    WalkMeans(rules, value, 0);
  }

  // ---- redact ----

  function Redact(rules: Rules, value: Json): Json
    decreases value
  {
    match value
    case Object(fields) =>
      Object(seq(|fields|, k requires 0 <= k < |fields| =>
        Field(fields[k].key, if rules.sensitive(fields[k].key) then Text(REDACTED) else Redact(rules, fields[k].value))))
    case Array(items) => Array(seq(|items|, k requires 0 <= k < |items| => Redact(rules, items[k])))
    case Text(chars) => Text(Scrub(rules, chars, Max(|chars|, 1)))
    case _ => value
  }

  // A place in a tree is the list of the child numbers that lead to it.

  function Children(value: Json): seq<Json> {
    match value
    case Array(items) => items
    case Object(fields) => seq(|fields|, k requires 0 <= k < |fields| => fields[k].value)
    case _ => []
  }

  predicate Within(value: Json, place: seq<nat>)
    decreases place
  {
    place != [] ==> place[0] < |Children(value)| && Within(Children(value)[place[0]], place[1..])
  }

  function At(value: Json, place: seq<nat>): Json
    requires Within(value, place)
    decreases place
  {
    if place == [] then value else At(Children(value)[place[0]], place[1..])
  }

  /** No key on the way to a place is sensitive. */
  predicate Open(rules: Rules, value: Json, place: seq<nat>)
    requires Within(value, place)
    decreases place
  {
    place != [] ==>
      && (value.Object? ==> !rules.sensitive(value.fields[place[0]].key))
      && Open(rules, Children(value)[place[0]], place[1..])
  }

  /** What redaction makes of one node, given the node: texts are substituted and cut, sensitive members are replaced. */
  predicate Redacted(rules: Rules, was: Json, now: Json) {
    match was
    case Text(chars) => now == Text(First(rules.substitute(chars), if chars == "" then 1 else |chars|))
    case Array(items) => now.Array? && |now.items| == |items|
    case Object(fields) =>
      && now.Object? && |now.fields| == |fields|
      && (forall k :: 0 <= k < |fields| ==> now.fields[k].key == fields[k].key)
      && (forall k :: 0 <= k < |fields| && rules.sensitive(fields[k].key) ==> now.fields[k].value == Text("[REDACTED]"))
    case _ => now == was
  }

  function First(s: string, n: nat): string {
    if |s| <= n then s else s[..n]
  }

  /** Redaction at every place of the tree that is not below a sensitive key, however deep. */
  lemma {:induction false} RedactAt(rules: Rules, value: Json, place: seq<nat>)
    requires Within(value, place) && Open(rules, value, place)
    ensures Within(Redact(rules, value), place) && Redacted(rules, At(value, place), At(Redact(rules, value), place))
    decreases place
  {
    if place != [] {
      RedactAt(rules, Children(value)[place[0]], place[1..]);
    }
  }

  // ---- the declarative predicate, place by place ----

  lemma {:induction false} HeightExactly(value: Json, limit: nat)
    ensures Height(value) <= limit <==> forall place | Within(value, place) :: |place| <= limit
    decreases limit
  {
    ChildrenHeight(value, limit);
    if Height(value) <= limit {
      forall place | Within(value, place) ensures |place| <= limit {
        if place != [] {
          var child := Children(value)[place[0]];
          assert 1 + Height(child) <= limit;
          HeightExactly(child, limit - 1);
          assert |place[1..]| <= limit - 1;
        }
      }
    } else {
      var k: nat :| k < |Children(value)| && 1 + Height(Children(value)[k]) > limit;
      if limit == 0 {
        assert Within(value, [k]);
      } else {
        HeightExactly(Children(value)[k], limit - 1);
        var place :| Within(Children(value)[k], place) && |place| > limit - 1;
        assert Within(value, [k] + place) by { assert ([k] + place)[1..] == place; }
      }
    }
  }

  lemma ChildrenHeight(value: Json, limit: nat)
    ensures Height(value) <= limit <==> forall k: nat | k < |Children(value)| :: 1 + Height(Children(value)[k]) <= limit
  {
    match value
    case Array(items) =>
      ItemsBelow(items, limit);
      assert Children(value) == items && Height(value) == ItemsHeight(items);
    case Object(fields) =>
      FieldsBelow(fields, limit);
      assert forall k: nat | k < |fields| :: Children(value)[k] == fields[k].value;
    case _ =>
  }

  lemma {:induction false} ItemsBelow(items: seq<Json>, limit: nat)
    ensures ItemsHeight(items) <= limit <==> forall k: nat | k < |items| :: 1 + Height(items[k]) <= limit
  {
    if items != [] {
      var rest := items[..|items| - 1];
      ItemsBelow(rest, limit);
      assert forall k: nat | k < |rest| :: rest[k] == items[k];
    }
  }

  lemma {:induction false} FieldsBelow(fields: seq<Field>, limit: nat)
    ensures FieldsHeight(fields) <= limit <==> forall k: nat | k < |fields| :: 1 + Height(fields[k].value) <= limit
  {
    if fields != [] {
      var rest := fields[..|fields| - 1];
      FieldsBelow(rest, limit);
      assert forall k: nat | k < |rest| :: rest[k] == fields[k];
    }
  }

  /** No text that is long or changed by scrubbing, no sensitive member. */
  predicate Harmless(rules: Rules, node: Json) {
    && (node.Text? ==> |node.chars| <= 4096 && First(rules.substitute(node.chars), 2048) == node.chars)
    && (node.Object? ==> forall k :: 0 <= k < |node.fields| ==> !rules.sensitive(node.fields[k].key))
  }

  lemma {:induction false} CleanExactly(rules: Rules, value: Json)
    ensures Clean(rules, value) <==> forall place | Within(value, place) :: Harmless(rules, At(value, place))
    decreases value
  {
    if Clean(rules, value) {
      forall place | Within(value, place) ensures Harmless(rules, At(value, place)) {
        CleanAt(rules, value, place);
      }
    } else {
      var place := Dirt(rules, value);
    }
  }

  lemma {:induction false} CleanAt(rules: Rules, value: Json, place: seq<nat>)
    requires Within(value, place) && Clean(rules, value)
    ensures Harmless(rules, At(value, place))
    decreases place
  {
    if place != [] {
      CleanAt(rules, Children(value)[place[0]], place[1..]);
    }
  }

  lemma {:induction false} Dirt(rules: Rules, value: Json) returns (place: seq<nat>)
    requires !Clean(rules, value)
    ensures Within(value, place) && !Harmless(rules, At(value, place))
    decreases value
  {
    if !Harmless(rules, value) {
      return [];
    }
    var k: nat;
    if value.Array? {
      k :| k < |value.items| && !Clean(rules, value.items[k]);
      place := Dirt(rules, value.items[k]);
    } else {
      k :| k < |value.fields| && !Clean(rules, value.fields[k].value);
      place := Dirt(rules, value.fields[k].value);
    }
    assert ([k] + place)[1..] == place;
    place := [k] + place;
  }

  /** Every place of a tree, the root being the empty list. */
  ghost function Places(value: Json): (places: set<seq<nat>>)
    ensures forall place :: place in places <==> Within(value, place)
    ensures |places| == Size(value)
    decreases Size(value), 0
  {
    SizeBelow(value);
    var below := PlacesBelow(Children(value));
    assert |below + {[]}| == |below| + 1;
    below + {[]}
  }

  ghost function PlacesBelow(children: seq<Json>): (places: set<seq<nat>>)
    ensures forall place :: place in places <==> place != [] && place[0] < |children| && Within(children[place[0]], place[1..])
    ensures |places| == ItemsSize(children)
    decreases ItemsSize(children), 1
  {
    if children == [] then {}
    else
      var k := |children| - 1;
      assert Size(children[k]) >= 1 && ItemsSize(children) == ItemsSize(children[..k]) + Size(children[k]);
      var rest, last := PlacesBelow(children[..k]), Places(children[k]);
      Joined(children, k, rest, last);
      rest + Moved(k, last)
  }

  ghost function Moved(k: nat, places: set<seq<nat>>): set<seq<nat>> {
    set place | place in places :: [k] + place
  }

  lemma MovedExactly(k: nat, places: set<seq<nat>>, place: seq<nat>)
    ensures place in Moved(k, places) <==> place != [] && place[0] == k && place[1..] in places
  {
    if place in Moved(k, places) {
      var p :| p in places && place == [k] + p;
      assert place[1..] == p;
    }
    if place != [] {
      assert [place[0]] + place[1..] == place;
    }
  }

  lemma Joined(children: seq<Json>, k: nat, rest: set<seq<nat>>, last: set<seq<nat>>)
    requires |children| == k + 1
    requires forall place :: place in rest <==> place != [] && place[0] < k && Within(children[..k][place[0]], place[1..])
    requires forall place :: place in last <==> Within(children[k], place)
    ensures forall place :: place in rest + Moved(k, last) <==> place != [] && place[0] <= k && Within(children[place[0]], place[1..])
    ensures |rest + Moved(k, last)| == |rest| + |last|
  {
    forall place
      ensures place in Moved(k, last) <==> place != [] && place[0] == k && place[1..] in last
    {
      MovedExactly(k, last, place);
    }
    assert rest !! Moved(k, last);
    Shifted(k, last);
  }

  /** Putting a number in front of every place of a set gives as many places. */
  lemma {:induction false} Shifted(k: nat, places: set<seq<nat>>)
    ensures |Moved(k, places)| == |places|
    decreases |places|
  {
    if places != {} {
      var one :| one in places;
      var rest := places - {one};
      Shifted(k, rest);
      assert Moved(k, places) == Moved(k, rest) + {[k] + one};
      MovedExactly(k, rest, [k] + one);
      assert ([k] + one)[1..] == one;
    }
  }

  lemma SizeBelow(value: Json)
    ensures Size(value) == 1 + ItemsSize(Children(value))
  {
    if value.Object? {
      FieldsAreItems(value.fields);
    }
  }

  lemma {:induction false} FieldsAreItems(fields: seq<Field>)
    ensures FieldsSize(fields) == ItemsSize(Children(Object(fields)))
  {
    if fields != [] {
      var rest := fields[..|fields| - 1];
      FieldsAreItems(rest);
      assert Children(Object(fields))[..|fields| - 1] == Children(Object(rest));
    }
  }

  /**
   * The walk accepts a tree exactly when it has at most 1000 places, none deeper than 8, and at none
   * of them a sensitive member or a text that is long or changed by scrubbing.
   */
  lemma AcceptableExactly(rules: Rules, value: Json)
    ensures Acceptable(rules, value) <==>
            |Places(value)| <= 1000 && forall place | place in Places(value) :: |place| <= 8 && Harmless(rules, At(value, place))
  {
    HeightExactly(value, 8);
    CleanExactly(rules, value);
  }

  /** What redaction leaves alone: sensitive fields already replaced, texts without a secret. */
  predicate Unmarked(rules: Rules, value: Json)
    decreases value
  {
    match value
    case Object(fields) => forall k :: 0 <= k < |fields| ==>
      if rules.sensitive(fields[k].key) then fields[k].value == Text(REDACTED) else Unmarked(rules, fields[k].value)
    case Array(items) => forall k :: 0 <= k < |items| ==> Unmarked(rules, items[k])
    case Text(chars) => Scrub(rules, chars, Max(|chars|, 1)) == chars
    case _ => true
  }

  lemma {:induction false} RedactFixes(rules: Rules, value: Json)
    ensures Redact(rules, value) == value <==> Unmarked(rules, value)
    decreases value
  {
    match value
    case Object(fields) =>
      var out := Redact(rules, value).fields;
      forall k | 0 <= k < |fields|
        ensures out[k] == fields[k] <==> if rules.sensitive(fields[k].key) then fields[k].value == Text(REDACTED) else Unmarked(rules, fields[k].value)
      {
        RedactFixes(rules, fields[k].value);
      }
      assert out == fields <==> forall k :: 0 <= k < |fields| ==> out[k] == fields[k];
    case Array(items) =>
      var out := Redact(rules, value).items;
      forall k | 0 <= k < |items| ensures out[k] == items[k] <==> Unmarked(rules, items[k]) {
        RedactFixes(rules, items[k]);
      }
      assert out == items <==> forall k :: 0 <= k < |items| ==> out[k] == items[k];
    case _ =>
  }

  lemma {:induction false} CleanIsUnmarked(rules: Rules, value: Json)
    requires Clean(rules, value)
    ensures Unmarked(rules, value)
    decreases value
  {
    match value
    case Object(fields) =>
      forall k | 0 <= k < |fields| ensures Unmarked(rules, fields[k].value) {
        CleanIsUnmarked(rules, fields[k].value);
      }
    case Array(items) =>
      forall k | 0 <= k < |items| ensures Unmarked(rules, items[k]) {
        CleanIsUnmarked(rules, items[k]);
      }
    case Text(chars) =>
      var clean := rules.substitute(chars);
      assert |clean| > SCRUB_LIMIT ==> |chars| == SCRUB_LIMIT;
    case _ =>
  }

  /** What the walk accepts is stored unchanged, whatever the two patterns are. */
  lemma AcceptedIsStored(rules: Rules, value: Json)
    requires Acceptable(rules, value)
    ensures Redact(rules, value) == value
  {
    CleanIsUnmarked(rules, value);
    RedactFixes(rules, value);
  }

  /** The default limit of `scrub` caps a text at 2048, below the limit of 4096 the check names. */
  lemma EffectiveTextLimit(rules: Rules, chars: string)
    ensures TextOk(rules, chars) ==> |chars| <= 2048
    ensures rules.substitute(chars) == chars ==> (TextOk(rules, chars) <==> |chars| <= 2048)
  {
    var clean := rules.substitute(chars);
    if TextOk(rules, chars) && |clean| > SCRUB_LIMIT {
      assert |clean[..SCRUB_LIMIT]| == SCRUB_LIMIT;
    }
  }

  const LONG_TEXT := seq(2049, _ => 'a')

  /** 2049 times the letter a: below the limit of 4096, and refused by every pattern that leaves it alone. */
  lemma DocumentedLimitFails(rules: Rules)
    requires rules.substitute(LONG_TEXT) == LONG_TEXT
    ensures |LONG_TEXT| == 2049 <= MAX_TEXT == 4096 && !Acceptable(rules, Text(LONG_TEXT))
  {
    EffectiveTextLimit(rules, LONG_TEXT);
  }
}
