/** Redaction and size bounds applied before audit persistence or model reuse
    (app/agent/sanitization.py). */
module Sanitization {
  import opened Bounds
  import opened Dict
  import opened Json

  const MAX_DEPTH := 5
  const MAX_WIDTH := 50
  const MAX_TEXT := 2000
  const MAX_KEY := 120
  const DEPTH_LIMITED := Str("[depth-limited]")
  const REDACTED := Str("[redacted]")
  const SENSITIVE_PARTS := ["authorization", "cookie", "credential", "password",
                            "secret", "token", "api_key", "apikey"]

  /** The parts of the text handling that Python's regular expression and Unicode
      tables decide: the pattern substitutions, in order, and `str.lower`. */
  datatype TextPolicy = TextPolicy(redactors: seq<string -> string>, lower: string -> string)

  predicate Contains(s: string, part: string) {
    exists i {:trigger s[i..]} :: 0 <= i <= |s| && part <= s[i..]
  }

  function Redacted(redactors: seq<string -> string>, s: string): string {
    if redactors == [] then s else Redacted(redactors[1..], redactors[0](s))
  }

  function CleanText(p: TextPolicy, s: string): (r: string)
    ensures |r| <= MAX_TEXT
  {
    Take(Redacted(p.redactors, s), MAX_TEXT)
  }

  function Key(raw: string): string { Take(raw, MAX_KEY) }

  predicate Sensitive(p: TextPolicy, key: string) {
    exists i :: 0 <= i < |SENSITIVE_PARTS| && Contains(p.lower(key), SENSITIVE_PARTS[i])
  }

  function Sanitize(p: TextPolicy, v: Json, depth: nat): (r: Json)
    decreases v, 1
  {
    if depth >= MAX_DEPTH then DEPTH_LIMITED
    else match v
      case Str(s) => Str(CleanText(p, s))
      case Arr(items) =>
        var n := Least(|items|, MAX_WIDTH);
        Arr(seq(n, i requires 0 <= i < n => Sanitize(p, items[i], depth + 1)))
      case Obj(_) => Obj(FromItems(KeptItems(p, v, depth)))
      case _ => v
  }

  /** The assignments made while copying an object. */
  function KeptItems(p: TextPolicy, v: Json, depth: nat): (r: Fields)
    requires v.Obj?
    ensures |r| == Least(|v.fields|, MAX_WIDTH)
    decreases v, 0
  {
    var n := Least(|v.fields|, MAX_WIDTH);
    seq(n, i requires 0 <= i < n =>
      var key := Key(v.fields[i].key);
      Entry(key, if Sensitive(p, key) then REDACTED else Sanitize(p, v.fields[i].value, depth + 1)))
  }

  /** The size bounds and the redaction of sensitive entries, described without running the
      sanitizer. */
  ghost predicate WithinBounds(p: TextPolicy, v: Json, depth: nat)
    decreases v
  {
    if depth >= MAX_DEPTH then v == DEPTH_LIMITED
    else match v
      case Str(s) => |s| <= MAX_TEXT
      case Arr(items) =>
        |items| <= MAX_WIDTH && forall i :: 0 <= i < |items| ==> WithinBounds(p, items[i], depth + 1)
      case Obj(fields) =>
        && |fields| <= MAX_WIDTH
        && UniqueKeys(fields)
        && forall i :: 0 <= i < |fields| ==>
             && |fields[i].key| <= MAX_KEY
             && if Sensitive(p, fields[i].key) then fields[i].value == REDACTED
                else WithinBounds(p, fields[i].value, depth + 1)
      case _ => true
  }

  /** Every text the sanitizer would read is already clean. */
  ghost predicate TextsClean(p: TextPolicy, v: Json, depth: nat)
    decreases v
  {
    depth < MAX_DEPTH ==>
      match v
      case Str(s) => CleanText(p, s) == s
      case Arr(items) => forall i :: 0 <= i < |items| ==> TextsClean(p, items[i], depth + 1)
      case Obj(fields) =>
        forall i :: 0 <= i < |fields| && !Sensitive(p, fields[i].key) ==> TextsClean(p, fields[i].value, depth + 1)
      case _ => true
  }

  /** What may be stored at a depth. */
  ghost predicate Storable(p: TextPolicy, v: Json, depth: nat) {
    WithinBounds(p, v, depth) && TextsClean(p, v, depth)
  }

  /** Redacting this text twice is redacting it once. */
  predicate Settles(p: TextPolicy, s: string) { CleanText(p, CleanText(p, s)) == CleanText(p, s) }

  /** The entry is copied, and no later one replaces it. */
  predicate Survives(fields: Fields, i: nat)
    requires i < |fields|
  {
    i < MAX_WIDTH && forall j :: i < j < Least(|fields|, MAX_WIDTH) ==> Key(fields[j].key) != Key(fields[i].key)
  }

  /** Every text the sanitizer keeps from a value settles. */
  ghost predicate TextsSettle(p: TextPolicy, v: Json, depth: nat)
    decreases v
  {
    depth < MAX_DEPTH ==>
      match v
      case Str(s) => Settles(p, s)
      case Arr(items) =>
        forall i :: 0 <= i < |items| && i < MAX_WIDTH ==> TextsSettle(p, items[i], depth + 1)
      case Obj(fields) =>
        forall i :: 0 <= i < |fields| && Survives(fields, i) && !Sensitive(p, Key(fields[i].key)) ==>
          TextsSettle(p, fields[i].value, depth + 1)
      case _ => true
  }

  /** Every text settles. The three patterns are not such a policy: cutting at the length
      limit can expose a new match next to a non-ASCII letter. */
  ghost predicate Idempotent(p: TextPolicy) {
    forall s :: Settles(p, s)
  }

  // ---- Absorption

  /** Sanitizing again at the same or a greater depth gives what sanitizing once at the
      greater depth gives, exactly when every text kept there settles. */
  lemma {:induction false} Absorption(p: TextPolicy, v: Json, d: nat, e: nat)
    requires d <= e
    ensures Sanitize(p, Sanitize(p, v, d), e) == Sanitize(p, v, e) <==> TextsSettle(p, v, e)
    decreases v, 1
  {
    if e < MAX_DEPTH {
      match v
      case Arr(items) => AbsorptionItems(p, v, d, e);
      case Obj(_) => AbsorptionFields(p, v, d, e);
      case _ =>
    }
  }

  lemma {:induction false} AbsorptionItems(p: TextPolicy, v: Json, d: nat, e: nat)
    requires d <= e < MAX_DEPTH && v.Arr?
    ensures Sanitize(p, Sanitize(p, v, d), e) == Sanitize(p, v, e) <==> TextsSettle(p, v, e)
    decreases v, 0
  {
    hide Sensitive, CleanText, KeptItems, FromItems;
    var once := Sanitize(p, v, d).items;
    forall i | 0 <= i < |once|
      ensures Sanitize(p, once[i], e + 1) == Sanitize(p, v.items[i], e + 1) <==> TextsSettle(p, v.items[i], e + 1)
    {
      Absorption(p, v.items[i], d + 1, e + 1);
    }
    var twice, direct := Sanitize(p, Arr(once), e).items, Sanitize(p, v, e).items;
    assert |twice| == |direct| == |once|;
    if twice == direct {
      forall i | 0 <= i < |v.items| && i < MAX_WIDTH ensures TextsSettle(p, v.items[i], e + 1) {
        assert twice[i] == direct[i];
      }
    }
  }

  lemma {:induction false} AbsorptionFields(p: TextPolicy, v: Json, d: nat, e: nat)
    requires d <= e < MAX_DEPTH && v.Obj?
    ensures Sanitize(p, Sanitize(p, v, d), e) == Sanitize(p, v, e) <==> TextsSettle(p, v, e)
    decreases v, 0
  {
    var g := (k: string, w: Json) => if Sensitive(p, k) then REDACTED else Sanitize(p, w, e + 1);
    hide Sensitive, TextsSettle, Sanitize;
    forall i | 0 <= i < |v.fields| ensures FieldAbsorbed(p, v.fields[i].value, d, e) {
      Absorption(p, v.fields[i].value, d + 1, e + 1);
    }
    FieldsAbsorbed(p, v, d, e, g);
  }

  ghost predicate FieldAbsorbed(p: TextPolicy, w: Json, d: nat, e: nat) {
    Sanitize(p, Sanitize(p, w, d + 1), e + 1) == Sanitize(p, w, e + 1) <==> TextsSettle(p, w, e + 1)
  }

  lemma FieldsAbsorbed(p: TextPolicy, v: Json, d: nat, e: nat, g: (string, Json) -> Json)
    requires d <= e < MAX_DEPTH && v.Obj?
    requires forall k, w :: g(k, w) == if Sensitive(p, k) then REDACTED else Sanitize(p, w, e + 1)
    requires forall i :: 0 <= i < |v.fields| ==> FieldAbsorbed(p, v.fields[i].value, d, e)
    ensures Sanitize(p, Sanitize(p, v, d), e) == Sanitize(p, v, e) <==> TextsSettle(p, v, e)
  {
    hide Sensitive, TextsSettle, Survives, Last, FromItems, Sanitize, KeptItems, MapValues;
    var again, direct := MapValues(g, KeptItems(p, v, d)), KeptItems(p, v, e);
    forall i | 0 <= i < |direct|
      ensures again[i].key == direct[i].key == Key(v.fields[i].key)
      ensures again[i].value == direct[i].value
         <==> (!Sensitive(p, Key(v.fields[i].key)) ==> TextsSettle(p, v.fields[i].value, e + 1))
    {
      FieldTwice(p, v, d, e, g, i);
      assert FieldAbsorbed(p, v.fields[i].value, d, e);
    }
    forall i | 0 <= i < |direct| ensures Last(again, i) <==> Survives(v.fields, i) {
      LastSurvives(v.fields, again, i);
    }
    SanitizedTwice(p, v, d, e, g);
    SameBuilt(again, direct);
    SettledFields(p, v, e);
  }

  lemma FieldTwice(p: TextPolicy, v: Json, d: nat, e: nat, g: (string, Json) -> Json, i: nat)
    requires d <= e < MAX_DEPTH && v.Obj? && i < Least(|v.fields|, MAX_WIDTH)
    requires forall k, w :: g(k, w) == if Sensitive(p, k) then REDACTED else Sanitize(p, w, e + 1)
    ensures var again, direct := MapValues(g, KeptItems(p, v, d)), KeptItems(p, v, e);
            var key, w := Key(v.fields[i].key), v.fields[i].value;
            && again[i].key == direct[i].key == key
            && if Sensitive(p, key) then again[i].value == direct[i].value
               else
                 && again[i].value == Sanitize(p, Sanitize(p, w, d + 1), e + 1)
                 && direct[i].value == Sanitize(p, w, e + 1)
  {
    hide Sensitive, Sanitize, Key;
  }

  lemma LastSurvives(fields: Fields, items: Fields, i: nat)
    requires i < |items| == Least(|fields|, MAX_WIDTH)
    requires forall j :: 0 <= j < |items| ==> items[j].key == Key(fields[j].key)
    ensures Last(items, i) <==> Survives(fields, i)
  {
    hide Key;
    if Last(items, i) {
      forall j | i < j < |items| ensures Key(fields[j].key) != Key(fields[i].key) {
        assert items[j].key != items[i].key;
      }
    }
  }

  lemma SettledFields(p: TextPolicy, v: Json, e: nat)
    requires v.Obj? && e < MAX_DEPTH
    ensures TextsSettle(p, v, e) <==>
      forall i :: 0 <= i < Least(|v.fields|, MAX_WIDTH) && Survives(v.fields, i) ==>
        (!Sensitive(p, Key(v.fields[i].key)) ==> TextsSettle(p, v.fields[i].value, e + 1))
  {
    hide Sensitive;
  }

  /** A second pass over an object changes the values of the first one's assignments. */
  lemma SanitizedTwice(p: TextPolicy, v: Json, d: nat, e: nat, g: (string, Json) -> Json)
    requires d <= e < MAX_DEPTH && v.Obj?
    requires forall k, w :: g(k, w) == if Sensitive(p, k) then REDACTED else Sanitize(p, w, e + 1)
    ensures Sanitize(p, Sanitize(p, v, d), e) == Obj(FromItems(MapValues(g, KeptItems(p, v, d))))
    ensures Sanitize(p, v, e) == Obj(FromItems(KeptItems(p, v, e)))
  {
    var kept := KeptItems(p, v, d);
    var once := FromItems(kept);
    FromItemsMapped(g, kept);
    FromItemsShape(kept);
    forall i | 0 <= i < |once| ensures Key(once[i].key) == once[i].key {
      assert once[i] in kept;
    }
    assert KeptItems(p, Obj(once), e) == MapValues(g, once);
    FromItemsFixed(MapValues(g, once));
  }

  lemma {:induction false} IdempotentSettles(p: TextPolicy, v: Json, d: nat)
    requires Idempotent(p)
    ensures TextsSettle(p, v, d)
    decreases v
  {
    if d < MAX_DEPTH {
      forall i | 0 <= i < |Children(v)| ensures TextsSettle(p, Children(v)[i], d + 1) {
        IdempotentSettles(p, Children(v)[i], d + 1);
      }
      match v
      case Arr(items) => assert forall i :: 0 <= i < |items| ==> items[i] == Children(v)[i];
      case Obj(fields) => assert forall i :: 0 <= i < |fields| ==> fields[i].value == Children(v)[i];
      case _ =>
    }
  }

  ghost predicate Absorbs(p: TextPolicy) {
    forall v, d: nat, e: nat :: d <= e ==> Sanitize(p, Sanitize(p, v, d), e) == Sanitize(p, v, e)
  }

  /** Absorption holds of all values and depths exactly under the policies that settle every text. */
  lemma AbsorptionForAll(p: TextPolicy)
    ensures Absorbs(p) <==> Idempotent(p)
  {
    hide Sanitize, CleanText, TextsSettle;
    if Idempotent(p) {
      forall v, d: nat, e: nat | d <= e ensures Sanitize(p, Sanitize(p, v, d), e) == Sanitize(p, v, e) {
        IdempotentSettles(p, v, e);
        Absorption(p, v, d, e);
      }
    }
    if Absorbs(p) {
      forall s ensures Settles(p, s) {
        TextAbsorbed(p, s);
      }
    }
  }

  lemma TextAbsorbed(p: TextPolicy, s: string)
    requires Absorbs(p)
    ensures Settles(p, s)
  {
    var v := Str(s);
    assert Sanitize(p, Sanitize(p, v, 0), 0) == Sanitize(p, v, 0);
    assert Sanitize(p, v, 0) == Str(CleanText(p, s));
  }

  // ---- What is stored

  /** The sanitizer leaves a value alone exactly when it is already storable there. */
  lemma {:induction false} FixedPoint(p: TextPolicy, v: Json, d: nat)
    ensures Sanitize(p, v, d) == v <==> Storable(p, v, d)
    decreases v
  {
    if d < MAX_DEPTH {
      forall i | 0 <= i < |Children(v)|
        ensures Sanitize(p, Children(v)[i], d + 1) == Children(v)[i] <==> Storable(p, Children(v)[i], d + 1)
      {
        FixedPoint(p, Children(v)[i], d + 1);
      }
      match v
      case Arr(items) =>
        assert forall i :: 0 <= i < |items| ==> items[i] == Children(v)[i];
        if Storable(p, v, d) {
          assert Sanitize(p, v, d).items == items;
        }
      case Obj(fields) => FixedPointFields(p, v, d);
      case _ =>
    }
  }

  ghost predicate StorableEntry(p: TextPolicy, e: Entry<string, Json>, d: nat) {
    |e.key| <= MAX_KEY && if Sensitive(p, e.key) then e.value == REDACTED else Storable(p, e.value, d + 1)
  }

  lemma StorableFields(p: TextPolicy, v: Json, d: nat)
    requires v.Obj? && d < MAX_DEPTH
    ensures Storable(p, v, d) <==>
      && |v.fields| <= MAX_WIDTH && UniqueKeys(v.fields)
      && forall i :: 0 <= i < |v.fields| ==> StorableEntry(p, v.fields[i], d)
  {
    hide Sensitive, CleanText;
  }

  lemma FixedPointFields(p: TextPolicy, v: Json, d: nat)
    requires v.Obj? && d < MAX_DEPTH
    requires forall i :: 0 <= i < |Children(v)| ==>
      (Sanitize(p, Children(v)[i], d + 1) == Children(v)[i] <==> Storable(p, Children(v)[i], d + 1))
    ensures Sanitize(p, v, d) == v <==> Storable(p, v, d)
  {
    hide Sensitive, CleanText, Storable;
    var fields, kept := v.fields, KeptItems(p, v, d);
    StorableFields(p, v, d);
    assert forall i :: 0 <= i < |fields| ==> fields[i].value == Children(v)[i];
    FromItemsShape(kept);
    if Sanitize(p, v, d) == v {
      forall i | 0 <= i < |fields| ensures kept[i].key == fields[i].key && |fields[i].key| <= MAX_KEY {
        assert fields[i] in kept;
      }
      FromItemsFixed(kept);
    } else if Storable(p, v, d) {
      assert kept == fields;
      FromItemsFixed(kept);
    }
  }

  /** Whatever the text policy: at most 50 entries per container, text within 2000 and keys
      within 120 characters, nothing below depth 5, and the marker in place of every value
      under a sensitive key. */
  lemma {:induction false} SanitizedIsBounded(p: TextPolicy, v: Json, d: nat)
    ensures WithinBounds(p, Sanitize(p, v, d), d)
    decreases v
  {
    if d < MAX_DEPTH {
      forall i | 0 <= i < |Children(v)| ensures WithinBounds(p, Sanitize(p, Children(v)[i], d + 1), d + 1) {
        SanitizedIsBounded(p, Children(v)[i], d + 1);
      }
      match v
      case Arr(items) => assert forall i :: 0 <= i < |items| ==> items[i] == Children(v)[i];
      case Obj(fields) =>
        var kept := KeptItems(p, v, d);
        FromItemsShape(kept);
        forall i | 0 <= i < |FromItems(kept)|
          ensures var entry := FromItems(kept)[i];
                  |entry.key| <= MAX_KEY
                  && if Sensitive(p, entry.key) then entry.value == REDACTED else WithinBounds(p, entry.value, d + 1)
        {
          assert FromItems(kept)[i] in kept;
          var k :| 0 <= k < |kept| && kept[k] == FromItems(kept)[i];
          assert fields[k].value == Children(v)[k];
        }
      case _ =>
    }
  }

  /** Its texts are clean too exactly when those it kept settle. */
  lemma SanitizedIsStorable(p: TextPolicy, v: Json, d: nat)
    ensures Storable(p, Sanitize(p, v, d), d) <==> TextsSettle(p, v, d)
  {
    Absorption(p, v, d, d);
    FixedPoint(p, Sanitize(p, v, d), d);
  }

  function Capacity(d: nat): nat
    decreases MAX_DEPTH - d
  {
    if d >= MAX_DEPTH then 1 else 1 + MAX_WIDTH * Capacity(d + 1)
  }

  /** Room for so many values in a container at this depth. */
  function Room(n: nat, d: nat): nat { if d >= MAX_DEPTH then 0 else n * Capacity(d + 1) }

  lemma {:induction false} BoundedNodes(p: TextPolicy, v: Json, d: nat)
    requires WithinBounds(p, v, d)
    ensures Nodes(v) <= Capacity(d)
    decreases v, |Children(v)| + 1
  {
    hide Room, Capacity;
    BoundedNodesFrom(p, v, d, 0);
    ContainerIsNarrow(p, v, d);
    ContainerFits(|Children(v)|, d);
  }

  lemma ContainerIsNarrow(p: TextPolicy, v: Json, d: nat)
    requires WithinBounds(p, v, d)
    ensures |Children(v)| <= MAX_WIDTH
  {
    hide Sensitive;
  }

  lemma ContainerFits(n: nat, d: nat)
    requires n <= MAX_WIDTH
    ensures 1 + Room(n, d) <= Capacity(d)
  {
    if d < MAX_DEPTH {
      Scale(n, MAX_WIDTH, Capacity(d + 1));
    }
  }

  lemma {:induction false} BoundedNodesFrom(p: TextPolicy, v: Json, d: nat, k: nat)
    requires WithinBounds(p, v, d) && k <= |Children(v)|
    ensures NodesFrom(v, k) <= Room(|Children(v)| - k, d)
    decreases v, |Children(v)| - k
  {
    hide WithinBounds, Capacity, Room, Nodes, NodesFrom, Children;
    CountedFrom(v, k);
    if k < |Children(v)| {
      ChildIsBounded(p, v, d, k);
      if Children(v)[k] != REDACTED {
        BoundedNodes(p, Children(v)[k], d + 1);
      }
      ChildFits(Children(v)[k], d);
      BoundedNodesFrom(p, v, d, k + 1);
      OneMore(|Children(v)| - k - 1, d, Nodes(Children(v)[k]), NodesFrom(v, k + 1));
    }
  }

  lemma CountedFrom(v: Json, k: nat)
    requires k <= |Children(v)|
    ensures NodesFrom(v, k) == if k == |Children(v)| then 0 else Nodes(Children(v)[k]) + NodesFrom(v, k + 1)
  {
  }

  lemma ChildFits(child: Json, d: nat)
    requires child == REDACTED || Nodes(child) <= Capacity(d + 1)
    ensures Nodes(child) <= Capacity(d + 1)
  {
    hide Nodes;
    RedactedIsOneNode();
    CapacityIsPositive(d + 1);
  }

  lemma ChildIsBounded(p: TextPolicy, v: Json, d: nat, k: nat)
    requires WithinBounds(p, v, d) && k < |Children(v)|
    ensures d < MAX_DEPTH && (Children(v)[k] == REDACTED || WithinBounds(p, Children(v)[k], d + 1))
  {
    hide Sensitive;
    assert v.Obj? ==> Children(v)[k] == v.fields[k].value;
  }

  lemma CapacityIsPositive(d: nat)
    ensures Capacity(d) >= 1
  {
  }

  lemma RedactedIsOneNode()
    ensures Nodes(REDACTED) == 1
  {
    assert NodesFrom(REDACTED, 0) == 0;
  }

  lemma Scale(n: nat, m: nat, capacity: nat)
    requires n <= m
    ensures n * capacity <= m * capacity
  {
  }

  lemma OneMore(n: nat, d: nat, child: nat, others: nat)
    requires d < MAX_DEPTH && child <= Capacity(d + 1) && others <= Room(n, d)
    ensures child + others <= Room(n + 1, d)
  {
    Distribute(n, Capacity(d + 1));
  }

  lemma Distribute(n: nat, capacity: nat)
    ensures (n + 1) * capacity == n * capacity + capacity
  {
  }

  /** A sanitized tree has at most 1 + 50 + 50^2 + ... + 50^5 values. */
  lemma SanitizedSize(p: TextPolicy, v: Json)
    ensures Nodes(Sanitize(p, v, 0)) <= 318_877_551
  {
    SanitizedIsBounded(p, v, 0);
    BoundedNodes(p, Sanitize(p, v, 0), 0);
    assert Capacity(4) == 51 && Capacity(3) == 2_551 && Capacity(2) == 127_551;
    assert Capacity(1) == 6_377_551;
  }

  // ---- Values that lose nothing

  /** At most `levels` levels of nesting. */
  ghost predicate Within(v: Json, levels: nat)
    decreases v
  {
    levels > 0 && forall i :: 0 <= i < |Children(v)| ==> Within(Children(v)[i], levels - 1)
  }

  /** A shallow value is sanitized the same way wherever it is stored. */
  lemma {:induction false} DepthDoesNotMatter(p: TextPolicy, v: Json, d: nat, e: nat)
    requires d <= e <= MAX_DEPTH && Within(v, MAX_DEPTH - e)
    ensures Sanitize(p, v, d) == Sanitize(p, v, e)
    decreases v
  {
    forall i | 0 <= i < |Children(v)|
      ensures Sanitize(p, Children(v)[i], d + 1) == Sanitize(p, Children(v)[i], e + 1)
    {
      assert Within(Children(v)[i], MAX_DEPTH - e - 1);
      DepthDoesNotMatter(p, Children(v)[i], d + 1, e + 1);
    }
    if v.Arr? {
      var n := Least(|v.items|, MAX_WIDTH);
      forall i | 0 <= i < n ensures Sanitize(p, v, d).items[i] == Sanitize(p, v, e).items[i] {
        assert v.items[i] == Children(v)[i];
      }
      assert Sanitize(p, v, d).items == Sanitize(p, v, e).items;
    } else if v.Obj? {
      forall i | 0 <= i < Least(|v.fields|, MAX_WIDTH) ensures KeptItems(p, v, d)[i] == KeptItems(p, v, e)[i] {
        assert v.fields[i].value == Children(v)[i];
      }
      assert KeptItems(p, v, d) == KeptItems(p, v, e);
    }
  }

  /** Identifiers as the manifest and the server write them. */
  predicate Plain(s: string) {
    |s| <= MAX_KEY && forall i :: 0 <= i < |s| ==>
      'a' <= s[i] <= 'z' || '0' <= s[i] <= '9' || s[i] == '_' || s[i] == '-'
  }

  /** No pattern can match without a space, a colon, an equals sign or a full stop. */
  ghost predicate KeepsPlain(p: TextPolicy) {
    && (forall s :: Plain(s) ==> Redacted(p.redactors, s) == s)
    && (forall s :: Plain(s) ==> p.lower(s) == s)
  }

  // ---- The loops of the original

  // ---- What is kept

  /** The patterns are applied one after the other, in order. */
  lemma {:induction false} RedactedInTurn(first: seq<string -> string>, rest: seq<string -> string>, s: string)
    ensures Redacted(first + rest, s) == Redacted(rest, Redacted(first, s))
    ensures Redacted([], s) == s && forall r :: Redacted([r], s) == r(s)
  {
    if first == [] {
      assert first + rest == rest;
    } else {
      assert (first + rest)[1..] == first[1..] + rest;
      RedactedInTurn(first[1..], rest, first[0](s));
    }
  }

  /** Scalars stay, texts are cut after redaction, and of a list the first fifty are kept. */
  lemma SanitizedValues(p: TextPolicy, v: Json, d: nat)
    requires d < MAX_DEPTH && !v.Obj?
    ensures v.Null? || v.Bool? || v.Num? ==> Sanitize(p, v, d) == v
    ensures v.Str? ==>
      var text := Redacted(p.redactors, v.s);
      Sanitize(p, v, d) == Str(if |text| <= 2000 then text else text[..2000])
    ensures v.Arr? ==>
      && Sanitize(p, v, d).Arr? && |Sanitize(p, v, d).items| == Least(|v.items|, 50)
      && forall i :: 0 <= i < |Sanitize(p, v, d).items| ==>
           Sanitize(p, v, d).items[i] == Sanitize(p, v.items[i], d + 1)
  {
  }

  /** Of an object each of the first fifty fields is kept under its key, unless a later one of
      them has the same key once cut to 120 characters; nothing else is. */
  lemma SanitizedFields(p: TextPolicy, fields: Fields, d: nat)
    requires d < MAX_DEPTH
    ensures var out := Sanitize(p, Obj(fields), d);
            && out.Obj?
            && (forall i :: 0 <= i < |fields| && Survives(fields, i) ==>
                  Get(out.fields, Key(fields[i].key))
                  == Some(if Sensitive(p, Key(fields[i].key)) then REDACTED else Sanitize(p, fields[i].value, d + 1)))
            && (forall k :: HasKey(out.fields, k) ==>
                  exists i :: 0 <= i < |fields| && Survives(fields, i) && Key(fields[i].key) == k)
  {
    hide Sensitive, Get, Key;
    var kept := KeptItems(p, Obj(fields), d);
    var out := Sanitize(p, Obj(fields), d).fields;
    FromItemsShape(kept);
    forall i | 0 <= i < |fields| && Survives(fields, i)
      ensures Get(out, Key(fields[i].key))
              == Some(if Sensitive(p, Key(fields[i].key)) then REDACTED else Sanitize(p, fields[i].value, d + 1))
    {
      assert Last(kept, i);
      BuiltEntries(kept, kept[i]);
      var n :| 0 <= n < |out| && out[n] == kept[i];
      GetByKey(out, n);
    }
    forall k | HasKey(out, k)
      ensures exists i :: 0 <= i < |fields| && Survives(fields, i) && Key(fields[i].key) == k
    {
      var n :| 0 <= n < |out| && out[n].key == k;
      BuiltEntries(kept, out[n]);
      var i :| 0 <= i < |kept| && kept[i] == out[n] && Last(kept, i);
      forall j | i < j < Least(|fields|, MAX_WIDTH) ensures Key(fields[j].key) != Key(fields[i].key) {
        assert kept[j].key != kept[i].key;
      }
      assert Survives(fields, i);
    }
  }

  method SanitizeText(p: TextPolicy, value: string) returns (sanitized: string)
    ensures sanitized == CleanText(p, value)
  {
    sanitized := value;
    for i := 0 to |p.redactors|
      invariant Redacted(p.redactors[i..], sanitized) == Redacted(p.redactors, value)
    {
      sanitized := p.redactors[i](sanitized);
    }
    sanitized := Take(sanitized, MAX_TEXT);
  }

  method SanitizeValue(p: TextPolicy, value: Json, depth: nat) returns (r: Json)
    ensures r == Sanitize(p, value, depth)
    decreases value
  {
    if depth >= MAX_DEPTH {
      return DEPTH_LIMITED;
    }
    match value
    case Str(s) =>
      var text := SanitizeText(p, s);
      r := Str(text);
    case Arr(items) =>
      var copied: seq<Json> := [];
      for i := 0 to Least(|items|, MAX_WIDTH)
        invariant copied == Sanitize(p, value, depth).items[..i]
      {
        var item := SanitizeValue(p, items[i], depth + 1);
        copied := copied + [item];
      }
      r := Arr(copied);
    case Obj(fields) =>
      var result: Fields := [];
      ghost var kept := KeptItems(p, value, depth);
      for i := 0 to Least(|fields|, MAX_WIDTH)
        invariant result == FromItems(kept[..i])
      {
        var key := Key(fields[i].key);
        var item := REDACTED;
        if !Sensitive(p, key) {
          item := SanitizeValue(p, fields[i].value, depth + 1);
        }
        FromItemsSnoc(kept[..i], key, item);
        assert kept[..i + 1] == kept[..i] + [Entry(key, item)];
        result := Put(result, key, item);
      }
      assert kept[..|kept|] == kept;
      r := Obj(result);
    case _ =>
      r := value;
  }
}
