/** The JSON-schema-to-grammar translation (app/ai/providers/ollama.py) and the
    meaning of the keywords it keeps (JSON Schema Draft 2020-12, Core sections
    8.2.3.1, 10.3.1.2 and 10.3.2.1, Validation sections 6.1.1 to 6.1.3 and 6.5.3). */
module GrammarSchema {
  import opened Dict
  import opened Json

  const REF_PREFIX := "#/$defs/"

  predicate IsGrammarKey(key: string) {
    key == "type" || key == "properties" || key == "required" || key == "items" || key == "enum"
  }

  // ---- References

  function RefName(node: Json): Option<string> {
    if !node.Obj? then None
    else
      var ref := Get(node.fields, "$ref");
      if ref.Some? && ref.value.Str? && REF_PREFIX <= ref.value.s
      then Some(ref.value.s[|REF_PREFIX|..])
      else None
  }

  /** The definition a node is replaced by: a `$ref` into `$defs` that names an object. */
  function Target(defs: Fields, node: Json): (t: Option<Json>) {
    if RefName(node).None? then None
    else
      var found := Get(defs, RefName(node).value);
      if found.Some? && found.value.Obj? then found else None
  }

  /** A number for every definition name that falls along references, so that the
      definitions have no cycle (on a cycle the original does not terminate). Definitions
      numbered from `top` on are never reached, and may refer to anything. */
  /** The node is a reference to this name. */
  ghost predicate RefersTo(node: Json, name: string) {
    node.Obj? && Get(node.fields, "$ref") == Some(Str("#/$defs/" + name))
  }

  lemma RefNameIff(node: Json, name: string)
    ensures RefName(node) == Some(name) <==> RefersTo(node, name)
  {
    hide Get;
    assert |REF_PREFIX| == 8 && REF_PREFIX == "#/$defs/";
    if RefName(node) == Some(name) {
      var ref := Get(node.fields, "$ref").value.s;
      assert ref == REF_PREFIX + ref[8..] == "#/$defs/" + name;
    }
    if RefersTo(node, name) {
      var ref := Get(node.fields, "$ref").value.s;
      assert ref == REF_PREFIX + name && REF_PREFIX <= ref && ref[|REF_PREFIX|..] == name;
    }
  }

  /** A node stands for a definition exactly when it refers to one that is an object. */
  lemma TargetIff(defs: Fields, node: Json, t: Json)
    ensures Target(defs, node) == Some(t) <==>
      t.Obj? && exists name :: RefersTo(node, name) && Get(defs, name) == Some(t)
  {
    hide Get, RefName, RefersTo;
    forall name ensures RefName(node) == Some(name) <==> RefersTo(node, name) {
      RefNameIff(node, name);
    }
  }

  datatype Ranks = Ranks(of: string -> nat, top: nat)

  const Flat: Ranks := Ranks(_ => 0, 0)

  /** Every reference followed inside `node` leads to a definition ranked below `r`. */
  ghost predicate RefsBelow(defs: Fields, ranks: Ranks, node: Json, r: nat)
    decreases node, 0
  {
    match node
    case Arr(items) => forall i :: 0 <= i < |items| ==> RefsBelow(defs, ranks, items[i], r)
    case Obj(fields) =>
      if Target(defs, node).Some? then ranks.of(RefName(node).value) < r && ranks.of(RefName(node).value) < ranks.top
      else forall i :: 0 <= i < |fields| ==> EntryRefsBelow(defs, ranks, fields[i].key, fields[i].value, r)
    case _ => true
  }

  ghost predicate EntryRefsBelow(defs: Fields, ranks: Ranks, key: string, value: Json, r: nat)
    decreases value, 1
  {
    if key == "properties" && value.Obj? then
      forall j :: 0 <= j < |value.fields| ==> RefsBelow(defs, ranks, value.fields[j].value, r)
    else (key == "const" || IsGrammarKey(key)) ==> RefsBelow(defs, ranks, value, r)
  }

  ghost predicate Acyclic(defs: Fields, ranks: Ranks) {
    forall name :: Get(defs, name).Some? && Get(defs, name).value.Obj? && ranks.of(name) < ranks.top
      ==> RefsBelow(defs, ranks, Get(defs, name).value, ranks.of(name))
  }

  // ---- Translation

  ghost function Simplify(defs: Fields, ranks: Ranks, node: Json, r: nat): (s: Json)
    requires Acyclic(defs, ranks) && RefsBelow(defs, ranks, node, r)
    ensures node.Obj? ==> s.Obj?
    decreases r, node, 0
  {
    match node
    case Arr(items) =>
      Arr(seq(|items|, i requires 0 <= i < |items| => Simplify(defs, ranks, items[i], r)))
    case Obj(fields) =>
      if Target(defs, node).Some? then
        Simplify(defs, ranks, Target(defs, node).value, ranks.of(RefName(node).value))
      else Obj(FromItems(Kept(defs, ranks, node, r, |fields|)))
    case _ => node
  }

  /** The assignments made from a constant and the first `n` keywords of a node. */
  ghost function Kept(defs: Fields, ranks: Ranks, node: Json, r: nat, n: nat): (items: Fields)
    requires node.Obj? && n <= |node.fields| && Target(defs, node).None?
    requires Acyclic(defs, ranks) && RefsBelow(defs, ranks, node, r)
    decreases r, node, 0, n
  {
    if n == 0 then
      var at := ConstIndex(node.fields);
      assert at.Some? ==> EntryRefsBelow(defs, ranks, node.fields[at.value].key, node.fields[at.value].value, r);
      if at.Some? then [Entry("enum", Arr([Simplify(defs, ranks, node.fields[at.value].value, r)]))] else []
    else
      var key, value := node.fields[n - 1].key, node.fields[n - 1].value;
      Kept(defs, ranks, node, r, n - 1)
      + if IsGrammarKey(key) then [Entry(key, SimplifyEntry(defs, ranks, key, value, r))] else []
  }

  ghost function SimplifyEntry(defs: Fields, ranks: Ranks, key: string, value: Json, r: nat): Json
    requires IsGrammarKey(key) && Acyclic(defs, ranks) && EntryRefsBelow(defs, ranks, key, value, r)
    decreases r, value, 1
  {
    if key == "properties" && value.Obj? then
      Obj(seq(|value.fields|, j requires 0 <= j < |value.fields| =>
        Entry(value.fields[j].key, Simplify(defs, ranks, value.fields[j].value, r))))
    else Simplify(defs, ranks, value, r)
  }

  function ConstIndex(fields: Fields): (i: Option<nat>)
    ensures i.Some? ==> i.value < |fields| && fields[i.value].key == "const"
    ensures i.None? ==> forall j :: 0 <= j < |fields| ==> fields[j].key != "const"
  {
    if fields == [] then None
    else if fields[0].key == "const" then Some(0)
    else
      match ConstIndex(fields[1..])
      case Some(i) => Some(i + 1)
      case None => assert forall j :: 0 < j < |fields| ==> fields[j] == fields[1..][j - 1]; None
  }

  // ---- Meaning

  predicate HasType(name: string, v: Json) {
    match v
    case Null => name == "null"
    case Bool(_) => name == "boolean"
    case Num(n) => name == "number" || (name == "integer" && n.Floor as real == n)
    case Str(_) => name == "string"
    case Arr(_) => name == "array"
    case Obj(_) => name == "object"
  }

  ghost predicate TypeOk(t: Json, v: Json) {
    match t
    case Str(name) => HasType(name, v)
    case Arr(names) => exists i :: 0 <= i < |names| && names[i].Str? && HasType(names[i].s, v)
    case _ => true
  }

  ghost predicate RequiredOk(names: Json, v: Json) {
    names.Arr? && v.Obj? ==>
      forall i :: 0 <= i < |names.items| && names.items[i].Str? ==> HasKey(v.fields, names.items[i].s)
  }

  function PrefixLength(fields: Fields): nat {
    var prefix := Get(fields, "prefixItems");
    if prefix.Some? && prefix.value.Arr? then |prefix.value.items| else 0
  }

  /** Whatever a node asserts of a value by keywords the translation drops, and by the
      keywords beside a reference. */
  type Rest = (Json, Json) -> bool

  const NoRest: Rest := (s, i) => true

  ghost predicate Valid(defs: Fields, ranks: Ranks, rest: Rest, schema: Json, r: nat, v: Json)
    requires Acyclic(defs, ranks) && RefsBelow(defs, ranks, schema, r)
    decreases r, schema, 0
  {
    match schema
    case Bool(b) => b
    case Obj(fields) =>
      && rest(schema, v)
      && if Target(defs, schema).Some? then
           Valid(defs, ranks, rest, Target(defs, schema).value, ranks.of(RefName(schema).value), v)
         else
           forall i :: 0 <= i < |fields| ==>
             KeywordOk(defs, ranks, rest, PrefixLength(fields), fields[i].key, fields[i].value, r, v)
    case _ => true
  }

  ghost predicate KeywordOk(defs: Fields, ranks: Ranks, rest: Rest, prefix: nat, key: string, value: Json, r: nat,
                            v: Json)
    requires Acyclic(defs, ranks) && EntryRefsBelow(defs, ranks, key, value, r)
    decreases r, value, 1
  {
    if key == "type" then TypeOk(value, v)
    else if key == "enum" then value.Arr? ==> v in value.items
    else if key == "const" then v == value
    else if key == "required" then RequiredOk(value, v)
    else if key == "properties" then
      value.Obj? && v.Obj? ==>
        forall j, k :: 0 <= j < |value.fields| && 0 <= k < |v.fields| && value.fields[j].key == v.fields[k].key
          ==> Valid(defs, ranks, rest, value.fields[j].value, r, v.fields[k].value)
    else if key == "items" then
      v.Arr? ==> forall k :: prefix <= k < |v.items| ==> Valid(defs, ranks, rest, value, r, v.items[k])
    else true
  }

  // ---- The output has no references, and translating it again changes nothing

  /** Only grammar keywords, at every node the translation visits. */
  ghost predicate GrammarShaped(v: Json)
    decreases v, 0
  {
    match v
    case Arr(items) => forall i :: 0 <= i < |items| ==> GrammarShaped(items[i])
    case Obj(fields) =>
      UniqueKeys(fields) && forall i :: 0 <= i < |fields| ==> EntryShaped(fields[i].key, fields[i].value)
    case _ => true
  }

  ghost predicate EntryShaped(key: string, value: Json)
    decreases value, 1
  {
    && IsGrammarKey(key)
    && if key == "properties" && value.Obj? then
         forall j :: 0 <= j < |value.fields| ==> GrammarShaped(value.fields[j].value)
       else GrammarShaped(value)
  }

  lemma {:induction false} SimplifyShapes(defs: Fields, ranks: Ranks, node: Json, r: nat)
    requires Acyclic(defs, ranks) && RefsBelow(defs, ranks, node, r)
    ensures GrammarShaped(Simplify(defs, ranks, node, r))
    decreases r, node, 0
  {
    match node
    case Arr(items) =>
      forall i | 0 <= i < |items| ensures GrammarShaped(Simplify(defs, ranks, node, r).items[i]) {
        SimplifyShapes(defs, ranks, items[i], r);
      }
    case Obj(fields) =>
      if Target(defs, node).Some? {
        SimplifyShapes(defs, ranks, Target(defs, node).value, ranks.of(RefName(node).value));
      } else {
        KeptShaped(defs, ranks, node, r, |fields|);
        FromItemsShape(Kept(defs, ranks, node, r, |fields|));
      }
    case _ =>
  }

  lemma {:induction false} KeptShaped(defs: Fields, ranks: Ranks, node: Json, r: nat, n: nat)
    requires node.Obj? && n <= |node.fields| && Target(defs, node).None?
    requires Acyclic(defs, ranks) && RefsBelow(defs, ranks, node, r)
    ensures forall e :: e in Kept(defs, ranks, node, r, n) ==> EntryShaped(e.key, e.value)
    decreases r, node, 0, n
  {
    if n == 0 {
      var at := ConstIndex(node.fields);
      if at.Some? {
        SimplifyShapes(defs, ranks, node.fields[at.value].value, r);
      }
    } else {
      KeptShaped(defs, ranks, node, r, n - 1);
      var key, value := node.fields[n - 1].key, node.fields[n - 1].value;
      if IsGrammarKey(key) {
        EntryShapes(defs, ranks, key, value, r);
      }
    }
  }

  lemma {:induction false} EntryShapes(defs: Fields, ranks: Ranks, key: string, value: Json, r: nat)
    requires IsGrammarKey(key) && Acyclic(defs, ranks) && EntryRefsBelow(defs, ranks, key, value, r)
    ensures EntryShaped(key, SimplifyEntry(defs, ranks, key, value, r))
    decreases r, value, 1
  {
    if key == "properties" && value.Obj? {
      forall j | 0 <= j < |value.fields| ensures GrammarShaped(Simplify(defs, ranks, value.fields[j].value, r)) {
        SimplifyShapes(defs, ranks, value.fields[j].value, r);
      }
    } else {
      SimplifyShapes(defs, ranks, value, r);
    }
  }

  lemma {:induction false} ShapedHasNoRefs(defs: Fields, ranks: Ranks, v: Json, r: nat)
    requires GrammarShaped(v)
    ensures RefsBelow(defs, ranks, v, r)
    ensures v.Obj? ==> Target(defs, v).None?
    decreases v
  {
    match v
    case Arr(items) =>
      forall i | 0 <= i < |items| ensures RefsBelow(defs, ranks, items[i], r) {
        ShapedHasNoRefs(defs, ranks, items[i], r);
      }
    case Obj(fields) =>
      GetSome(fields, "$ref");
      forall i | 0 <= i < |fields| ensures EntryRefsBelow(defs, ranks, fields[i].key, fields[i].value, r) {
        var key, value := fields[i].key, fields[i].value;
        assert EntryShaped(key, value);
        if key == "properties" && value.Obj? {
          forall j | 0 <= j < |value.fields| ensures RefsBelow(defs, ranks, value.fields[j].value, r) {
            ShapedHasNoRefs(defs, ranks, value.fields[j].value, r);
          }
        } else {
          ShapedHasNoRefs(defs, ranks, value, r);
        }
      }
    case _ =>
  }

  /** A grammar-shaped value is its own translation, under any definitions. */
  lemma {:induction false} ShapedIsFixed(defs: Fields, ranks: Ranks, v: Json, r: nat)
    requires GrammarShaped(v) && Acyclic(defs, ranks) && RefsBelow(defs, ranks, v, r)
    ensures Simplify(defs, ranks, v, r) == v
    decreases v
  {
    match v
    case Arr(items) =>
      forall i | 0 <= i < |items| ensures Simplify(defs, ranks, items[i], r) == items[i] {
        ShapedIsFixed(defs, ranks, items[i], r);
      }
    case Obj(fields) =>
      ShapedHasNoRefs(defs, ranks, v, r);
      forall i | 0 <= i < |fields|
        ensures SimplifyEntry(defs, ranks, fields[i].key, fields[i].value, r) == fields[i].value
      {
        var key, value := fields[i].key, fields[i].value;
        assert EntryShaped(key, value);
        if key == "properties" && value.Obj? {
          forall j | 0 <= j < |value.fields|
            ensures Simplify(defs, ranks, value.fields[j].value, r) == value.fields[j].value
          {
            ShapedIsFixed(defs, ranks, value.fields[j].value, r);
          }
          assert SimplifyEntry(defs, ranks, key, value, r).fields == value.fields;
        } else {
          ShapedIsFixed(defs, ranks, value, r);
        }
      }
      KeptAll(defs, ranks, v, r, |fields|);
      assert fields[..|fields|] == fields;
      FromItemsFixed(fields);
    case _ =>
  }

  lemma {:induction false} KeptAll(defs: Fields, ranks: Ranks, v: Json, r: nat, n: nat)
    requires v.Obj? && n <= |v.fields| && Target(defs, v).None?
    requires Acyclic(defs, ranks) && RefsBelow(defs, ranks, v, r)
    requires forall i :: 0 <= i < |v.fields| ==>
      && IsGrammarKey(v.fields[i].key)
      && SimplifyEntry(defs, ranks, v.fields[i].key, v.fields[i].value, r) == v.fields[i].value
    ensures Kept(defs, ranks, v, r, n) == v.fields[..n]
  {
    if n > 0 {
      KeptAll(defs, ranks, v, r, n - 1);
      assert v.fields[..n] == v.fields[..n - 1] + [v.fields[n - 1]];
    }
  }

  /** Translating twice is translating once, whatever definitions the second pass is given. */
  lemma Idempotence(defs: Fields, ranks: Ranks, node: Json, r: nat, defs': Fields, ranks': Ranks)
    requires Acyclic(defs, ranks) && RefsBelow(defs, ranks, node, r) && Acyclic(defs', ranks')
    ensures var once := Simplify(defs, ranks, node, r);
            RefsBelow(defs', ranks', once, 0) && Simplify(defs', ranks', once, 0) == once
  {
    var once := Simplify(defs, ranks, node, r);
    SimplifyShapes(defs, ranks, node, r);
    ShapedHasNoRefs(defs', ranks', once, 0);
    ShapedIsFixed(defs', ranks', once, 0);
  }

  // ---- Meaning is preserved

  /** What a strict reader of the output checks: no definitions, no other keywords. */
  ghost predicate Accepts(grammar: Json, v: Json)
    requires GrammarShaped(grammar)
  {
    ShapedHasNoRefs([], Flat, grammar, 0);
    Valid([], Flat, NoRest, grammar, 0, v)
  }

  /** The grammar rejects nothing. */
  ghost predicate AcceptsAll(grammar: Json) { GrammarShaped(grammar) && forall x :: Accepts(grammar, x) }

  /** At every node the translation visits: literals hold only grammar keywords (the
      translation rewrites objects inside them too), and beside `prefixItems` the translation
      of `items` accepts everything (it is applied to the leading elements too). When `exact`,
      also no `enum` beside `const` (the translation drops the constant) and no keyword twice. */
  ghost predicate Faithful(defs: Fields, ranks: Ranks, exact: bool, node: Json, r: nat)
    requires Acyclic(defs, ranks) && RefsBelow(defs, ranks, node, r)
    decreases r, node, 0
  {
    match node
    case Obj(fields) =>
      if Target(defs, node).Some? then
        Faithful(defs, ranks, exact, Target(defs, node).value, ranks.of(RefName(node).value))
      else
        && (exact ==> UniqueKeys(fields) && !(HasKey(fields, "const") && HasKey(fields, "enum")))
        && forall i :: 0 <= i < |fields| ==>
             EntryFaithful(defs, ranks, exact, PrefixLength(fields), fields[i].key, fields[i].value, r)
    case _ => true
  }

  ghost predicate EntryFaithful(defs: Fields, ranks: Ranks, exact: bool, prefix: nat, key: string, value: Json, r: nat)
    requires Acyclic(defs, ranks) && EntryRefsBelow(defs, ranks, key, value, r)
    decreases r, value, 1
  {
    if key == "enum" then value.Arr? ==> GrammarShaped(value)
    else if key == "const" then GrammarShaped(value)
    else if key == "items" then
      Faithful(defs, ranks, exact, value, r) && (prefix == 0 || AcceptsAll(Simplify(defs, ranks, value, r)))
    else if key == "properties" && value.Obj? then
      forall j :: 0 <= j < |value.fields| ==> Faithful(defs, ranks, exact, value.fields[j].value, r)
    else true
  }

  ghost predicate EntryAccepts(key: string, value: Json, v: Json)
    requires EntryShaped(key, value)
  {
    EntryShapedHasNoRefs([], Flat, key, value, 0);
    KeywordOk([], Flat, NoRest, 0, key, value, 0, v)
  }

  lemma EntryShapedHasNoRefs(defs: Fields, ranks: Ranks, key: string, value: Json, r: nat)
    requires EntryShaped(key, value)
    ensures EntryRefsBelow(defs, ranks, key, value, r)
  {
    if key == "properties" && value.Obj? {
      forall j | 0 <= j < |value.fields| ensures RefsBelow(defs, ranks, value.fields[j].value, r) {
        ShapedHasNoRefs(defs, ranks, value.fields[j].value, r);
      }
    } else {
      ShapedHasNoRefs(defs, ranks, value, r);
    }
  }

  ghost predicate Asserts(rest: Rest) { exists s, i :: !rest(s, i) }

  /** The assignments kept: one per grammar keyword, and `enum` for a constant. */
  lemma {:induction false} KeptMembers(defs: Fields, ranks: Ranks, node: Json, r: nat, n: nat)
    requires node.Obj? && n <= |node.fields| && Target(defs, node).None?
    requires Acyclic(defs, ranks) && RefsBelow(defs, ranks, node, r)
    ensures var kept := Kept(defs, ranks, node, r, n);
            forall i :: 0 <= i < n && IsGrammarKey(node.fields[i].key) ==>
              Entry(node.fields[i].key, SimplifyEntry(defs, ranks, node.fields[i].key, node.fields[i].value, r)) in kept
    ensures var kept := Kept(defs, ranks, node, r, n);
            ConstIndex(node.fields).Some? ==> |kept| > 0 && kept[0] == Kept(defs, ranks, node, r, 0)[0]
    ensures var kept := Kept(defs, ranks, node, r, n);
            forall e :: e in kept ==>
              || e in Kept(defs, ranks, node, r, 0)
              || exists i :: 0 <= i < n && IsGrammarKey(node.fields[i].key) && e ==
                   Entry(node.fields[i].key, SimplifyEntry(defs, ranks, node.fields[i].key, node.fields[i].value, r))
    decreases n
  {
    if n > 0 {
      KeptMembers(defs, ranks, node, r, n - 1);
    }
  }

  /** The constant of a node as a list of one literal. */
  ghost function ConstEnum(defs: Fields, ranks: Ranks, node: Json, r: nat): Json
    requires node.Obj? && ConstIndex(node.fields).Some? && Target(defs, node).None?
    requires Acyclic(defs, ranks) && RefsBelow(defs, ranks, node, r)
  {
    var at := ConstIndex(node.fields).value;
    assert EntryRefsBelow(defs, ranks, node.fields[at].key, node.fields[at].value, r);
    Arr([Simplify(defs, ranks, node.fields[at].value, r)])
  }

  /** The last value kept for a key among the first `n` fields, or the constant's. */
  ghost function KeptUnder(defs: Fields, ranks: Ranks, node: Json, r: nat, n: nat, k: string): Option<Json>
    requires node.Obj? && n <= |node.fields| && Target(defs, node).None?
    requires Acyclic(defs, ranks) && RefsBelow(defs, ranks, node, r)
    decreases n
  {
    if n == 0 then
      if k == "enum" && ConstIndex(node.fields).Some? then Some(ConstEnum(defs, ranks, node, r)) else None
    else if node.fields[n - 1].key == k && IsGrammarKey(k) then
      Some(SimplifyEntry(defs, ranks, k, node.fields[n - 1].value, r))
    else KeptUnder(defs, ranks, node, r, n - 1, k)
  }

  lemma {:induction false} KeptLookup(defs: Fields, ranks: Ranks, node: Json, r: nat, n: nat, k: string)
    requires node.Obj? && n <= |node.fields| && Target(defs, node).None?
    requires Acyclic(defs, ranks) && RefsBelow(defs, ranks, node, r)
    ensures Get(FromItems(Kept(defs, ranks, node, r, n)), k) == KeptUnder(defs, ranks, node, r, n, k)
    decreases n
  {
    hide SimplifyEntry, IsGrammarKey, Simplify, Acyclic, Target;
    var kept := Kept(defs, ranks, node, r, n);
    if n == 0 {
      FromItemsFixed(kept);
    } else {
      KeptLookup(defs, ranks, node, r, n - 1, k);
      hide Get, FromItems, ConstEnum;
      var key, value := node.fields[n - 1].key, node.fields[n - 1].value;
      var before := Kept(defs, ranks, node, r, n - 1);
      if IsGrammarKey(key) {
        var simplified := SimplifyEntry(defs, ranks, key, value, r);
        assert kept == before + [Entry(key, simplified)];
        FromItemsSnoc(before, key, simplified);
        GetPut(FromItems(before), key, simplified, k);
      } else {
        assert kept == before + [];
        assert kept == before;
      }
    }
  }

  lemma {:induction false} KeptUnderKey(defs: Fields, ranks: Ranks, node: Json, r: nat, n: nat, k: string, i: nat)
    requires node.Obj? && i < n <= |node.fields| && Target(defs, node).None? && UniqueKeys(node.fields)
    requires Acyclic(defs, ranks) && RefsBelow(defs, ranks, node, r) && node.fields[i].key == k && IsGrammarKey(k)
    ensures KeptUnder(defs, ranks, node, r, n, k) == Some(SimplifyEntry(defs, ranks, k, node.fields[i].value, r))
    decreases n
  {
    hide SimplifyEntry, IsGrammarKey, Simplify, Acyclic, RefsBelow, Target, ConstEnum;
    if i < n - 1 {
      assert node.fields[n - 1].key != k;
      KeptUnderKey(defs, ranks, node, r, n - 1, k, i);
    }
  }

  lemma {:induction false} KeptUnderNone(defs: Fields, ranks: Ranks, node: Json, r: nat, n: nat, k: string)
    requires node.Obj? && n <= |node.fields| && Target(defs, node).None?
    requires Acyclic(defs, ranks) && RefsBelow(defs, ranks, node, r)
    requires !HasKey(node.fields, k) || !IsGrammarKey(k)
    ensures KeptUnder(defs, ranks, node, r, n, k)
            == if k == "enum" && ConstIndex(node.fields).Some? then Some(ConstEnum(defs, ranks, node, r)) else None
    decreases n
  {
    hide SimplifyEntry, IsGrammarKey, Simplify, Acyclic, RefsBelow, Target, ConstEnum, ConstIndex;
    if n > 0 {
      KeptUnderNone(defs, ranks, node, r, n - 1, k);
    }
  }

  /** A node that is no reference keeps every keyword of the grammar, translated, whatever stands
      beside it; a constant becomes a list of literals where there is no other; all else goes. */
  lemma SimplifiedFields(defs: Fields, ranks: Ranks, node: Json, r: nat, k: string)
    requires node.Obj? && Target(defs, node).None? && UniqueKeys(node.fields)
    requires Acyclic(defs, ranks) && RefsBelow(defs, ranks, node, r)
    ensures Simplify(defs, ranks, node, r).Obj?
    ensures var found := Get(Simplify(defs, ranks, node, r).fields, k);
            && (forall i :: 0 <= i < |node.fields| && node.fields[i].key == k && IsGrammarKey(k) ==>
                  found == Some(SimplifyEntry(defs, ranks, k, node.fields[i].value, r)))
            && (!HasKey(node.fields, k) || !IsGrammarKey(k) ==>
                  found == if k == "enum" && ConstIndex(node.fields).Some? then Some(ConstEnum(defs, ranks, node, r))
                           else None)
  {
    hide SimplifyEntry, IsGrammarKey, ConstEnum, Kept, Get, HasKey, ConstIndex;
    KeptLookup(defs, ranks, node, r, |node.fields|, k);
    forall i | 0 <= i < |node.fields| && node.fields[i].key == k && IsGrammarKey(k)
      ensures KeptUnder(defs, ranks, node, r, |node.fields|, k)
              == Some(SimplifyEntry(defs, ranks, k, node.fields[i].value, r))
    {
      KeptUnderKey(defs, ranks, node, r, |node.fields|, k, i);
    }
    if !HasKey(node.fields, k) || !IsGrammarKey(k) {
      KeptUnderNone(defs, ranks, node, r, |node.fields|, k);
    }
  }

  /** A reference stands for its definition, however much is written beside it. */
  lemma SimplifiedReference(defs: Fields, ranks: Ranks, node: Json, r: nat, name: string)
    requires RefersTo(node, name) && Get(defs, name).Some? && Get(defs, name).value.Obj?
    requires Acyclic(defs, ranks) && RefsBelow(defs, ranks, node, r)
    ensures RefsBelow(defs, ranks, Get(defs, name).value, ranks.of(name))
    ensures Simplify(defs, ranks, node, r) == Simplify(defs, ranks, Get(defs, name).value, ranks.of(name))
  {
    hide RefName, Get;
    RefNameIff(node, name);
    assert Target(defs, node) == Get(defs, name);
  }

  lemma {:induction false} KeptUnique(defs: Fields, ranks: Ranks, node: Json, r: nat, n: nat)
    requires node.Obj? && n <= |node.fields| && Target(defs, node).None?
    requires Acyclic(defs, ranks) && RefsBelow(defs, ranks, node, r)
    requires UniqueKeys(node.fields) && !(HasKey(node.fields, "const") && HasKey(node.fields, "enum"))
    ensures UniqueKeys(Kept(defs, ranks, node, r, n))
    decreases n
  {
    if n > 0 {
      KeptUnique(defs, ranks, node, r, n - 1);
      var key := node.fields[n - 1].key;
      if IsGrammarKey(key) {
        KeptMembers(defs, ranks, node, r, n - 1);
        forall e | e in Kept(defs, ranks, node, r, n - 1) ensures e.key != key {
          if e in Kept(defs, ranks, node, r, 0) {
            assert HasKey(node.fields, "const");
          }
        }
      }
    }
  }

  /** One kept keyword asserts what the original asserted, no more when anything is
      dropped below it and no less in the exact fragment. */
  lemma {:induction false} EntryPreserved(defs: Fields, ranks: Ranks, rest: Rest, exact: bool, prefix: nat,
                                          key: string, value: Json, r: nat, v: Json)
    requires IsGrammarKey(key) && Acyclic(defs, ranks) && EntryRefsBelow(defs, ranks, key, value, r)
    requires EntryFaithful(defs, ranks, exact, prefix, key, value, r)
    requires EntryShaped(key, SimplifyEntry(defs, ranks, key, value, r))
    ensures KeywordOk(defs, ranks, rest, prefix, key, value, r, v)
            ==> EntryAccepts(key, SimplifyEntry(defs, ranks, key, value, r), v)
    ensures exact && !Asserts(rest) && EntryAccepts(key, SimplifyEntry(defs, ranks, key, value, r), v)
            ==> KeywordOk(defs, ranks, rest, prefix, key, value, r, v)
    decreases r, value, 1, 1
  {
    var out := SimplifyEntry(defs, ranks, key, value, r);
    EntryShapedHasNoRefs([], Flat, key, out, 0);
    if key == "enum" {
      if value.Arr? {
        ShapedIsFixed(defs, ranks, value, r);
      }
    } else if key == "items" {
      ItemsPreserved(defs, ranks, rest, exact, prefix, value, r, v);
    } else if key == "properties" && value.Obj? && v.Obj? {
      PropertiesPreserved(defs, ranks, rest, exact, value, r, v);
    } else if key == "type" || key == "required" {
      TypePreserved(defs, ranks, value, r, v);
    }
  }

  lemma {:induction false} ItemsPreserved(defs: Fields, ranks: Ranks, rest: Rest, exact: bool, prefix: nat,
                                          value: Json, r: nat, v: Json)
    requires Acyclic(defs, ranks) && EntryRefsBelow(defs, ranks, "items", value, r)
    requires EntryFaithful(defs, ranks, exact, prefix, "items", value, r)
    requires EntryShaped("items", SimplifyEntry(defs, ranks, "items", value, r))
    ensures KeywordOk(defs, ranks, rest, prefix, "items", value, r, v)
            ==> EntryAccepts("items", SimplifyEntry(defs, ranks, "items", value, r), v)
    ensures exact && !Asserts(rest) && EntryAccepts("items", SimplifyEntry(defs, ranks, "items", value, r), v)
            ==> KeywordOk(defs, ranks, rest, prefix, "items", value, r, v)
    decreases r, value, 1, 0
  {
    var out := SimplifyEntry(defs, ranks, "items", value, r);
    if v.Arr? {
      forall k | 0 <= k < |v.items|
        ensures prefix > 0 || Valid(defs, ranks, rest, value, r, v.items[k]) ==> Accepts(out, v.items[k])
        ensures exact && !Asserts(rest) && Accepts(out, v.items[k]) ==> Valid(defs, ranks, rest, value, r, v.items[k])
      {
        Preserved(defs, ranks, rest, exact, value, r, v.items[k]);
      }
      ItemsAccept(out, v);
    }
  }

  lemma {:induction false} PropertiesPreserved(defs: Fields, ranks: Ranks, rest: Rest, exact: bool, value: Json,
                                               r: nat, v: Json)
    requires value.Obj? && v.Obj? && Acyclic(defs, ranks) && EntryRefsBelow(defs, ranks, "properties", value, r)
    requires EntryFaithful(defs, ranks, exact, 0, "properties", value, r)
    requires EntryShaped("properties", SimplifyEntry(defs, ranks, "properties", value, r))
    ensures KeywordOk(defs, ranks, rest, 0, "properties", value, r, v)
            ==> EntryAccepts("properties", SimplifyEntry(defs, ranks, "properties", value, r), v)
    ensures exact && !Asserts(rest) && EntryAccepts("properties", SimplifyEntry(defs, ranks, "properties", value, r), v)
            ==> KeywordOk(defs, ranks, rest, 0, "properties", value, r, v)
    decreases r, value, 1, 0
  {
    var out := SimplifyEntry(defs, ranks, "properties", value, r);
    EntryShapedHasNoRefs([], Flat, "properties", out, 0);
    forall j, k | 0 <= j < |value.fields| && 0 <= k < |v.fields|
      ensures GrammarShaped(out.fields[j].value)
      ensures Valid(defs, ranks, rest, value.fields[j].value, r, v.fields[k].value)
              ==> Accepts(out.fields[j].value, v.fields[k].value)
      ensures exact && !Asserts(rest) && Accepts(out.fields[j].value, v.fields[k].value)
              ==> Valid(defs, ranks, rest, value.fields[j].value, r, v.fields[k].value)
    {
      Preserved(defs, ranks, rest, exact, value.fields[j].value, r, v.fields[k].value);
    }
  }

  lemma ItemsAccept(out: Json, v: Json)
    requires GrammarShaped(out) && EntryShaped("items", out) && v.Arr?
    ensures EntryAccepts("items", out, v) <==> forall k :: 0 <= k < |v.items| ==> Accepts(out, v.items[k])
  {
    EntryShapedHasNoRefs([], Flat, "items", out, 0);
  }

  lemma TypePreserved(defs: Fields, ranks: Ranks, t: Json, r: nat, v: Json)
    requires Acyclic(defs, ranks) && RefsBelow(defs, ranks, t, r)
    ensures TypeOk(Simplify(defs, ranks, t, r), v) == TypeOk(t, v)
    ensures RequiredOk(Simplify(defs, ranks, t, r), v) == RequiredOk(t, v)
  {
    if t.Arr? {
      var s := Simplify(defs, ranks, t, r);
      assert forall i :: 0 <= i < |t.items| ==> (s.items[i].Str? <==> t.items[i].Str?);
      assert forall i :: 0 <= i < |t.items| && t.items[i].Str? ==> s.items[i] == t.items[i];
    }
  }

  /** The translation never rejects a value the schema accepts; in the exact fragment it
      accepts nothing else. */
  lemma {:induction false} Preserved(defs: Fields, ranks: Ranks, rest: Rest, exact: bool, node: Json, r: nat, v: Json)
    requires Acyclic(defs, ranks) && RefsBelow(defs, ranks, node, r) && Faithful(defs, ranks, exact, node, r)
    ensures GrammarShaped(Simplify(defs, ranks, node, r))
    ensures Valid(defs, ranks, rest, node, r, v) ==> Accepts(Simplify(defs, ranks, node, r), v)
    ensures exact && !Asserts(rest) && Accepts(Simplify(defs, ranks, node, r), v)
            ==> Valid(defs, ranks, rest, node, r, v)
    decreases r, node, 0
  {
    var out := Simplify(defs, ranks, node, r);
    SimplifyShapes(defs, ranks, node, r);
    ShapedHasNoRefs([], Flat, out, 0);
    if node.Obj? {
      if Target(defs, node).Some? {
        Preserved(defs, ranks, rest, exact, Target(defs, node).value, ranks.of(RefName(node).value), v);
      } else {
        NodePreserved(defs, ranks, rest, exact, node, r, v);
      }
    }
  }

  lemma AcceptsEntries(fields: Fields, v: Json)
    requires GrammarShaped(Obj(fields))
    ensures Accepts(Obj(fields), v) <==> forall e :: e in fields ==> EntryAccepts(e.key, e.value, v)
  {
    GetSome(fields, "prefixItems");
    assert PrefixLength(fields) == 0;
    ShapedHasNoRefs([], Flat, Obj(fields), 0);
    forall i | 0 <= i < |fields|
      ensures EntryShaped(fields[i].key, fields[i].value)
      ensures EntryRefsBelow([], Flat, fields[i].key, fields[i].value, 0)
    {
      EntryShapedHasNoRefs([], Flat, fields[i].key, fields[i].value, 0);
    }
    if Accepts(Obj(fields), v) {
      forall i | 0 <= i < |fields| ensures EntryAccepts(fields[i].key, fields[i].value, v) {
      }
    } else {
      assert exists i :: 0 <= i < |fields| && !EntryAccepts(fields[i].key, fields[i].value, v);
    }
  }

  ghost predicate KeywordHolds(defs: Fields, ranks: Ranks, rest: Rest, node: Json, i: nat, r: nat, v: Json)
    requires node.Obj? && i < |node.fields| && Target(defs, node).None?
    requires Acyclic(defs, ranks) && RefsBelow(defs, ranks, node, r)
  {
    assert EntryRefsBelow(defs, ranks, node.fields[i].key, node.fields[i].value, r);
    KeywordOk(defs, ranks, rest, PrefixLength(node.fields), node.fields[i].key, node.fields[i].value, r, v)
  }

  /** The `i`th keyword and the assignment made for it. */
  lemma {:induction false} KeywordPreserved(defs: Fields, ranks: Ranks, rest: Rest, exact: bool, node: Json, i: nat,
                                            r: nat, v: Json)
    requires node.Obj? && i < |node.fields| && Target(defs, node).None? && IsGrammarKey(node.fields[i].key)
    requires Acyclic(defs, ranks) && RefsBelow(defs, ranks, node, r) && Faithful(defs, ranks, exact, node, r)
    ensures EntryRefsBelow(defs, ranks, node.fields[i].key, node.fields[i].value, r)
    ensures var s := SimplifyEntry(defs, ranks, node.fields[i].key, node.fields[i].value, r);
            && EntryShaped(node.fields[i].key, s)
            && (KeywordHolds(defs, ranks, rest, node, i, r, v) ==> EntryAccepts(node.fields[i].key, s, v))
            && (exact && !Asserts(rest) && EntryAccepts(node.fields[i].key, s, v)
                ==> KeywordHolds(defs, ranks, rest, node, i, r, v))
    decreases r, node, 0, 0
  {
    var key, value := node.fields[i].key, node.fields[i].value;
    assert EntryRefsBelow(defs, ranks, key, value, r);
    assert EntryFaithful(defs, ranks, exact, PrefixLength(node.fields), key, value, r);
    EntryShapes(defs, ranks, key, value, r);
    EntryPreserved(defs, ranks, rest, exact, PrefixLength(node.fields), key, value, r, v);
  }

  /** `const` and the one-element `enum` written for it. */
  lemma ConstPreserved(defs: Fields, ranks: Ranks, rest: Rest, exact: bool, node: Json, r: nat, v: Json)
    requires node.Obj? && Target(defs, node).None? && ConstIndex(node.fields).Some?
    requires Acyclic(defs, ranks) && RefsBelow(defs, ranks, node, r) && Faithful(defs, ranks, exact, node, r)
    requires var e := Kept(defs, ranks, node, r, 0)[0]; EntryShaped(e.key, e.value)
    ensures var e := Kept(defs, ranks, node, r, 0)[0];
            EntryAccepts(e.key, e.value, v)
            <==> KeywordHolds(defs, ranks, rest, node, ConstIndex(node.fields).value, r, v)
  {
    var i := ConstIndex(node.fields).value;
    assert EntryFaithful(defs, ranks, exact, PrefixLength(node.fields), node.fields[i].key, node.fields[i].value, r);
    assert EntryRefsBelow(defs, ranks, node.fields[i].key, node.fields[i].value, r);
    ShapedIsFixed(defs, ranks, node.fields[i].value, r);
  }

  lemma {:induction false} NodePreserved(defs: Fields, ranks: Ranks, rest: Rest, exact: bool, node: Json, r: nat,
                                         v: Json)
    requires node.Obj? && Target(defs, node).None?
    requires Acyclic(defs, ranks) && RefsBelow(defs, ranks, node, r) && Faithful(defs, ranks, exact, node, r)
    requires GrammarShaped(Simplify(defs, ranks, node, r))
    ensures Valid(defs, ranks, rest, node, r, v) ==> Accepts(Simplify(defs, ranks, node, r), v)
    ensures exact && !Asserts(rest) && Accepts(Simplify(defs, ranks, node, r), v)
            ==> Valid(defs, ranks, rest, node, r, v)
    decreases r, node, 0, 3
  {
    var kept := Kept(defs, ranks, node, r, |node.fields|);
    FromItemsShape(kept);
    KeptShaped(defs, ranks, node, r, |node.fields|);
    AcceptsEntries(FromItems(kept), v);
    if Valid(defs, ranks, rest, node, r, v) {
      forall e | e in kept ensures EntryAccepts(e.key, e.value, v) {
        KeptAccepts(defs, ranks, rest, exact, node, r, v, e);
      }
    }
    if exact && !Asserts(rest) && Accepts(Simplify(defs, ranks, node, r), v) {
      KeptUnique(defs, ranks, node, r, |node.fields|);
      FromItemsFixed(kept);
      forall i | 0 <= i < |node.fields| ensures KeywordHolds(defs, ranks, rest, node, i, r, v) {
        KeptDetermines(defs, ranks, rest, node, i, r, v);
      }
      assert rest(node, v);
      forall i | 0 <= i < |node.fields|
        ensures KeywordOk(defs, ranks, rest, PrefixLength(node.fields), node.fields[i].key, node.fields[i].value, r, v)
      {
        assert KeywordHolds(defs, ranks, rest, node, i, r, v);
      }
    }
  }

  lemma {:induction false} KeptAccepts(defs: Fields, ranks: Ranks, rest: Rest, exact: bool, node: Json, r: nat, v: Json,
                                      e: Entry<string, Json>)
    requires node.Obj? && Target(defs, node).None?
    requires Acyclic(defs, ranks) && RefsBelow(defs, ranks, node, r) && Faithful(defs, ranks, exact, node, r)
    requires e in Kept(defs, ranks, node, r, |node.fields|) && Valid(defs, ranks, rest, node, r, v)
    requires EntryShaped(e.key, e.value)
    ensures EntryAccepts(e.key, e.value, v)
    decreases r, node, 0, 2
  {
    KeptMembers(defs, ranks, node, r, |node.fields|);
    if e in Kept(defs, ranks, node, r, 0) {
      ConstPreserved(defs, ranks, rest, exact, node, r, v);
    } else {
      var i :| 0 <= i < |node.fields| && IsGrammarKey(node.fields[i].key) && e ==
        Entry(node.fields[i].key, SimplifyEntry(defs, ranks, node.fields[i].key, node.fields[i].value, r));
      KeywordPreserved(defs, ranks, rest, exact, node, i, r, v);
    }
  }

  lemma {:induction false} KeptDetermines(defs: Fields, ranks: Ranks, rest: Rest, node: Json, i: nat, r: nat, v: Json)
    requires node.Obj? && Target(defs, node).None? && i < |node.fields|
    requires Acyclic(defs, ranks) && RefsBelow(defs, ranks, node, r) && Faithful(defs, ranks, true, node, r)
    requires !Asserts(rest)
    requires forall e :: e in Kept(defs, ranks, node, r, |node.fields|) ==>
      EntryShaped(e.key, e.value) && EntryAccepts(e.key, e.value, v)
    ensures KeywordHolds(defs, ranks, rest, node, i, r, v)
    decreases r, node, 0, 2
  {
    var kept := Kept(defs, ranks, node, r, |node.fields|);
    KeptMembers(defs, ranks, node, r, |node.fields|);
    if node.fields[i].key == "const" {
      var at := ConstIndex(node.fields).value;
      assert node.fields[at].key == node.fields[i].key;
      assert kept[0] in kept;
      ConstPreserved(defs, ranks, rest, true, node, r, v);
    } else if IsGrammarKey(node.fields[i].key) {
      KeywordPreserved(defs, ranks, rest, true, node, i, r, v);
      assert Entry(node.fields[i].key, SimplifyEntry(defs, ranks, node.fields[i].key, node.fields[i].value, r)) in kept;
    }
  }

  // ---- Where the hypotheses are needed

  lemma {:induction false} NoDefinitions(v: Json)
    ensures Acyclic([], Flat) && RefsBelow([], Flat, v, 0)
    decreases v
  {
    match v
    case Arr(items) =>
      forall i | 0 <= i < |items| ensures RefsBelow([], Flat, items[i], 0) { NoDefinitions(items[i]); }
    case Obj(fields) =>
      forall i | 0 <= i < |fields| ensures EntryRefsBelow([], Flat, fields[i].key, fields[i].value, 0) {
        var value := fields[i].value;
        NoDefinitions(value);
        if value.Obj? {
          forall j | 0 <= j < |value.fields| ensures RefsBelow([], Flat, value.fields[j].value, 0) {
            NoDefinitions(value.fields[j].value);
          }
        }
      }
    case _ =>
  }

  ghost function Translated(node: Json): (s: Json)
    ensures GrammarShaped(s)
  {
    NoDefinitions(node);
    SimplifyShapes([], Flat, node, 0);
    Simplify([], Flat, node, 0)
  }

  ghost predicate Satisfies(node: Json, v: Json) {
    NoDefinitions(node);
    Valid([], Flat, NoRest, node, 0, v)
  }

  lemma Single(key: string, value: Json)
    requires IsGrammarKey(key) && key != "properties"
    ensures Translated(Obj([Entry(key, value)])) == Obj([Entry(key, Translated(value))])
  {
    var node := Obj([Entry(key, value)]);
    NoDefinitions(node);
    NoDefinitions(value);
    assert Kept([], Flat, node, 0, 0) == [];
    assert Kept([], Flat, node, 0, 1) == [Entry(key, Translated(value))];
    FromItemsFixed([Entry(key, Translated(value))]);
  }

  lemma SingleAccepts(key: string, value: Json, v: Json)
    requires IsGrammarKey(key) && EntryShaped(key, value)
    ensures GrammarShaped(Obj([Entry(key, value)]))
    ensures Accepts(Obj([Entry(key, value)]), v) <==> EntryAccepts(key, value, v)
  {
    var fields := [Entry(key, value)];
    AcceptsEntries(fields, v);
    assert fields[0] in fields;
  }

  // -- Literals

  /** A literal survives translation exactly when it holds only grammar keywords. */
  lemma LiteralSurvives(v: Json)
    ensures Translated(v) == v <==> GrammarShaped(v)
  {
    if GrammarShaped(v) {
      NoDefinitions(v);
      ShapedIsFixed([], Flat, v, 0);
    }
  }

  function EnumOf(literals: seq<Json>): Json { Obj([Entry("enum", Arr(literals))]) }

  ghost function TranslatedAll(values: seq<Json>): (r: seq<Json>)
    ensures |r| == |values| && forall i :: 0 <= i < |r| ==> r[i] == Translated(values[i])
    ensures GrammarShaped(Arr(r))
  {
    seq(|values|, i requires 0 <= i < |values| => Translated(values[i]))
  }

  lemma ListTranslated(values: seq<Json>)
    ensures Translated(Arr(values)) == Arr(TranslatedAll(values))
  {
    NoDefinitions(Arr(values));
    forall i | 0 <= i < |values| ensures Simplify([], Flat, Arr(values), 0).items[i] == Translated(values[i]) {
      NoDefinitions(values[i]);
    }
  }

  lemma EnumMeaning(literals: seq<Json>, v: Json)
    ensures Satisfies(EnumOf(literals), v) <==> v in literals
    ensures Accepts(Translated(EnumOf(literals)), v) <==> v in TranslatedAll(literals)
  {
    Single("enum", Arr(literals));
    ListTranslated(literals);
    assert EntryShaped("enum", Arr(TranslatedAll(literals)));
    SingleAccepts("enum", Arr(TranslatedAll(literals)), v);
    var schema := EnumOf(literals);
    NoDefinitions(schema);
    assert Target([], schema).None?;
    assert KeywordOk([], Flat, NoRest, 0, schema.fields[0].key, schema.fields[0].value, 0, v) <==> v in literals;
    GetSome(schema.fields, "prefixItems");
  }

  ghost predicate Sound(schema: Json) { forall v :: Satisfies(schema, v) ==> Accepts(Translated(schema), v) }

  ghost predicate Exact(schema: Json) { forall v :: Satisfies(schema, v) <==> Accepts(Translated(schema), v) }

  /** The grammar of a list of literals accepts every one of them exactly when no literal
      holds an object with other keys; then it accepts nothing else. */
  lemma EnumSoundIff(literals: seq<Json>)
    ensures Sound(EnumOf(literals)) <==> forall x :: x in literals ==> GrammarShaped(x)
    ensures Sound(EnumOf(literals)) <==> Exact(EnumOf(literals))
  {
    hide Translated, Satisfies, Accepts;
    forall v
      ensures Satisfies(EnumOf(literals), v) <==> v in literals
      ensures Accepts(Translated(EnumOf(literals)), v) <==> v in TranslatedAll(literals)
    {
      EnumMeaning(literals, v);
    }
    if Sound(EnumOf(literals)) {
      forall x | x in literals ensures GrammarShaped(x) {
        assert Satisfies(EnumOf(literals), x);
        assert x in TranslatedAll(literals);
      }
    }
    if forall x :: x in literals ==> GrammarShaped(x) {
      forall i | 0 <= i < |literals| ensures TranslatedAll(literals)[i] == literals[i] {
        assert literals[i] in literals;
        LiteralSurvives(literals[i]);
      }
      assert TranslatedAll(literals) == literals;
    }
  }

  /** Beside an `enum` the constant is dropped; nothing is lost exactly when the list is empty,
      or names the constant and every literal in it is translated to the constant. */
  lemma ConstBesideEnum(c: Json, literals: seq<Json>)
    ensures Exact(Obj([Entry("const", c), Entry("enum", Arr(literals))]))
            <==> literals == [] || (c in literals && forall x :: x in literals ==> Translated(x) == c)
  {
    hide Translated, Satisfies, Accepts;
    var schema := Obj([Entry("const", c), Entry("enum", Arr(literals))]);
    var kept := TranslatedAll(literals);
    forall v
      ensures Accepts(Translated(schema), v) <==> v in kept
      ensures Satisfies(schema, v) <==> v == c && v in literals
    {
      ConstDropped(c, literals);
      EnumMeaning(literals, v);
      ConstAndEnum(schema, c, literals, v);
    }
    if Exact(schema) {
      forall x | x in literals ensures Translated(x) == c && c in literals {
        var i :| 0 <= i < |literals| && literals[i] == x;
        assert kept[i] in kept && kept[i] == Translated(x);
        assert Satisfies(schema, kept[i]);
      }
    }
    if literals != [] && c in literals && forall x :: x in literals ==> Translated(x) == c {
      assert kept[0] == Translated(literals[0]) && literals[0] in literals;
      forall v | v in kept ensures v == c {
        var i :| 0 <= i < |kept| && kept[i] == v;
        assert literals[i] in literals;
      }
    }
  }

  /** No value is refused exactly when the constant is not listed, or survives translation. */
  lemma ConstBesideEnumSound(c: Json, literals: seq<Json>)
    ensures Sound(Obj([Entry("const", c), Entry("enum", Arr(literals))])) <==> (c in literals ==> GrammarShaped(c))
  {
    hide Translated, Satisfies, Accepts;
    var schema := Obj([Entry("const", c), Entry("enum", Arr(literals))]);
    var kept := TranslatedAll(literals);
    forall v
      ensures Accepts(Translated(schema), v) <==> v in kept
      ensures Satisfies(schema, v) <==> v == c && v in literals
    {
      ConstDropped(c, literals);
      EnumMeaning(literals, v);
      ConstAndEnum(schema, c, literals, v);
    }
    if c in literals && GrammarShaped(c) {
      var i :| 0 <= i < |literals| && literals[i] == c;
      LiteralSurvives(c);
      assert kept[i] == c;
    }
    if c in literals && Sound(schema) {
      assert Satisfies(schema, c);
      assert c in kept;
    }
  }

  lemma ConstAndEnum(schema: Json, c: Json, literals: seq<Json>, v: Json)
    requires schema == Obj([Entry("const", c), Entry("enum", Arr(literals))])
    ensures Satisfies(schema, v) <==> v == c && v in literals
  {
    NoDefinitions(schema);
    assert Target([], schema).None?;
    var first, second := schema.fields[0], schema.fields[1];
    assert KeywordOk([], Flat, NoRest, 0, first.key, first.value, 0, v) <==> v == c;
    assert KeywordOk([], Flat, NoRest, 0, second.key, second.value, 0, v) <==> v in literals;
    GetSome(schema.fields, "prefixItems");
  }

  lemma ConstDropped(c: Json, literals: seq<Json>)
    ensures Translated(Obj([Entry("const", c), Entry("enum", Arr(literals))])) == Translated(EnumOf(literals))
  {
    var schema := Obj([Entry("const", c), Entry("enum", Arr(literals))]);
    NoDefinitions(schema);
    NoDefinitions(c);
    NoDefinitions(Arr(literals));
    Single("enum", Arr(literals));
    assert ConstIndex(schema.fields) == Some(0);
    var first, second := Entry("enum", Arr([Translated(c)])), Entry("enum", Translated(Arr(literals)));
    assert Kept([], Flat, schema, 0, 0) == [first];
    assert Kept([], Flat, schema, 0, 1) == [first];
    assert Kept([], Flat, schema, 0, 2) == [first, second];
    FromItemsFixed([first]);
    FromItemsSnoc([first], "enum", second.value);
  }

  // -- Grammars that reject nothing

  const TYPE_NAMES := ["null", "boolean", "number", "string", "array", "object"]

  /** Read off the grammar itself: no keyword that can refuse a value. */
  predicate Permissive(g: Json)
    decreases g, 0
  {
    match g
    case Bool(b) => b
    case Obj(fields) => forall i :: 0 <= i < |fields| ==> PermissiveEntry(fields[i].key, fields[i].value)
    case _ => true
  }

  predicate PermissiveEntry(key: string, value: Json)
    decreases value, 1
  {
    if key == "type" then
      match value
      case Str(_) => false
      case Arr(names) => forall i :: 0 <= i < |TYPE_NAMES| ==> Str(TYPE_NAMES[i]) in names
      case _ => true
    else if key == "enum" then !value.Arr?
    else if key == "required" then value.Arr? ==> forall i :: 0 <= i < |value.items| ==> !value.items[i].Str?
    else if key == "properties" then
      value.Obj? ==> forall j :: 0 <= j < |value.fields| ==> Permissive(value.fields[j].value)
    else if key == "items" then Permissive(value)
    else true
  }

  lemma {:induction false} PermissiveAccepts(g: Json, v: Json)
    requires GrammarShaped(g) && Permissive(g)
    ensures Accepts(g, v)
    decreases g, 0
  {
    ShapedHasNoRefs([], Flat, g, 0);
    match g
    case Obj(fields) =>
      AcceptsEntries(fields, v);
      forall i | 0 <= i < |fields| ensures EntryShaped(fields[i].key, fields[i].value)
        ensures EntryAccepts(fields[i].key, fields[i].value, v)
      {
        PermissiveEntryAccepts(fields[i].key, fields[i].value, v);
      }
    case _ =>
  }

  lemma {:induction false} PermissiveEntryAccepts(key: string, value: Json, v: Json)
    requires EntryShaped(key, value) && PermissiveEntry(key, value)
    ensures EntryAccepts(key, value, v)
    decreases value, 1
  {
    EntryShapedHasNoRefs([], Flat, key, value, 0);
    if key == "type" && value.Arr? {
      TypesCoverAll(value, v);
    } else if key == "items" && v.Arr? {
      forall k | 0 <= k < |v.items| ensures Accepts(value, v.items[k]) {
        PermissiveAccepts(value, v.items[k]);
      }
      ItemsAccept(value, v);
    } else if key == "properties" && value.Obj? && v.Obj? {
      forall j, k | 0 <= j < |value.fields| && 0 <= k < |v.fields|
        ensures Accepts(value.fields[j].value, v.fields[k].value)
      {
        PermissiveAccepts(value.fields[j].value, v.fields[k].value);
      }
    }
  }

  lemma TypesCoverAll(t: Json, v: Json)
    requires t.Arr? && forall i :: 0 <= i < |TYPE_NAMES| ==> Str(TYPE_NAMES[i]) in t.items
    ensures TypeOk(t, v)
  {
    var n: nat := match v
      case Null => 0
      case Bool(_) => 1
      case Num(_) => 2
      case Str(_) => 3
      case Arr(_) => 4
      case Obj(_) => 5;
    assert HasType(TYPE_NAMES[n], v);
    var i :| 0 <= i < |t.items| && t.items[i] == Str(TYPE_NAMES[n]);
  }

  /** A value of one type and no other. */
  function Sample(n: nat): (v: Json)
    requires n < |TYPE_NAMES|
    ensures forall name :: HasType(name, v) ==> name == TYPE_NAMES[n]
  {
    if n == 0 then Null
    else if n == 1 then Bool(true)
    else if n == 2 then Num(0.5)
    else if n == 3 then Str("")
    else if n == 4 then Arr([])
    else Obj([])
  }

  lemma {:induction false} Refused(g: Json) returns (v: Json)
    requires GrammarShaped(g) && !Permissive(g)
    ensures !Accepts(g, v)
    decreases g, 0
  {
    ShapedHasNoRefs([], Flat, g, 0);
    match g
    case Bool(_) => v := Null;
    case Obj(fields) =>
      var i :| 0 <= i < |fields| && !PermissiveEntry(fields[i].key, fields[i].value);
      assert EntryShaped(fields[i].key, fields[i].value);
      v := RefusedEntry(fields[i].key, fields[i].value);
      AcceptsEntries(fields, v);
      assert fields[i] in fields;
  }

  lemma {:induction false} RefusedEntry(key: string, value: Json) returns (v: Json)
    requires EntryShaped(key, value) && !PermissiveEntry(key, value)
    ensures !EntryAccepts(key, value, v)
    decreases value, 1
  {
    EntryShapedHasNoRefs([], Flat, key, value, 0);
    if key == "type" {
      v := RefusedType(value);
    } else if key == "enum" {
      v := value;
    } else if key == "required" {
      v := Obj([]);
    } else if key == "properties" {
      var j :| 0 <= j < |value.fields| && !Permissive(value.fields[j].value);
      var x := Refused(value.fields[j].value);
      v := Obj([Entry(value.fields[j].key, x)]);
      assert v.fields[0].key == value.fields[j].key;
    } else {
      var x := Refused(value);
      v := Arr([x]);
      ItemsAccept(value, v);
      assert v.items[0] == x;
    }
  }

  lemma RefusedType(t: Json) returns (v: Json)
    requires t.Str? || (t.Arr? && exists i :: 0 <= i < |TYPE_NAMES| && Str(TYPE_NAMES[i]) !in t.items)
    ensures !TypeOk(t, v)
  {
    hide HasType;
    if t.Str? {
      v := if t.s == TYPE_NAMES[0] then Sample(1) else Sample(0);
      assert TYPE_NAMES[0] != TYPE_NAMES[1];
    } else {
      var i :| 0 <= i < |TYPE_NAMES| && Str(TYPE_NAMES[i]) !in t.items;
      v := Sample(i);
    }
  }

  /** A grammar accepts every value exactly when it reads as permissive. */
  lemma AcceptsAllIff(g: Json)
    requires GrammarShaped(g)
    ensures AcceptsAll(g) <==> Permissive(g)
  {
    hide Accepts, Permissive;
    if Permissive(g) {
      forall x ensures Accepts(g, x) {
        PermissiveAccepts(g, x);
      }
    } else {
      var v := Refused(g);
      assert !Accepts(g, v);
    }
  }

  // -- Leading elements

  function Positional(p: seq<Json>, items: Json): Json {
    Obj([Entry("prefixItems", Arr(p)), Entry("items", items)])
  }

  lemma PositionalMeaning(p: seq<Json>, items: Json, v: Json)
    ensures Satisfies(Positional(p, items), v) <==>
      (v.Arr? ==> forall k :: |p| <= k < |v.items| ==> Satisfies(items, v.items[k]))
  {
    var schema := Positional(p, items);
    NoDefinitions(schema);
    NoDefinitions(items);
    assert PrefixLength(schema.fields) == |p|;
    assert Target([], schema).None?;
    var first, second := schema.fields[0], schema.fields[1];
    assert KeywordOk([], Flat, NoRest, |p|, first.key, first.value, 0, v);
    assert KeywordOk([], Flat, NoRest, |p|, second.key, second.value, 0, v) <==>
      (v.Arr? ==> forall k :: |p| <= k < |v.items| ==> Satisfies(items, v.items[k]));
  }

  lemma PositionalTranslated(p: seq<Json>, items: Json)
    ensures Translated(Positional(p, items)) == Obj([Entry("items", Translated(items))])
  {
    var schema := Positional(p, items);
    NoDefinitions(schema);
    NoDefinitions(items);
    assert Kept([], Flat, schema, 0, 0) == [];
    assert Kept([], Flat, schema, 0, 1) == [];
    assert Kept([], Flat, schema, 0, 2) == [Entry("items", Translated(items))];
    FromItemsFixed([Entry("items", Translated(items))]);
  }

  lemma PositionalOutput(p: seq<Json>, items: Json, v: Json)
    ensures Accepts(Translated(Positional(p, items)), v) <==>
      (v.Arr? ==> forall k :: 0 <= k < |v.items| ==> Accepts(Translated(items), v.items[k]))
  {
    hide Translated, Accepts, Positional;
    PositionalTranslated(p, items);
    ItemsShaped(items);
    SingleAccepts("items", Translated(items), v);
    if v.Arr? {
      ItemsAccept(Translated(items), v);
    } else {
      ItemsIgnore(Translated(items), v);
    }
  }

  lemma ItemsShaped(items: Json)
    ensures EntryShaped("items", Translated(items))
  {
    hide Translated;
  }

  lemma ItemsIgnore(out: Json, v: Json)
    requires EntryShaped("items", out) && !v.Arr?
    ensures EntryAccepts("items", out, v)
  {
  }

  /** When the leading schemas may be anything, the grammar accepts what the schema accepts
      exactly when the translation of `items`, which it applies to the leading elements too,
      accepts everything: when no keyword in it can refuse a value. */
  lemma PrefixItemsSoundIff(p: seq<Json>, items: Json)
    requires p != []
    ensures Sound(Positional(p, items)) <==> AcceptsAll(Translated(items))
    ensures Sound(Positional(p, items)) <==> Permissive(Translated(items))
  {
    hide Translated, Satisfies, Accepts, Permissive;
    AcceptsAllIff(Translated(items));
    forall v
      ensures Satisfies(Positional(p, items), v) <==>
                (v.Arr? ==> forall k :: |p| <= k < |v.items| ==> Satisfies(items, v.items[k]))
      ensures Accepts(Translated(Positional(p, items)), v) <==>
                (v.Arr? ==> forall k :: 0 <= k < |v.items| ==> Accepts(Translated(items), v.items[k]))
    {
      PositionalMeaning(p, items, v);
      PositionalOutput(p, items, v);
    }
    if Sound(Positional(p, items)) {
      forall x ensures Accepts(Translated(items), x) {
        var v := Arr([x]);
        assert Satisfies(Positional(p, items), v);
        assert v.items[0] == x;
      }
    }
  }

  /** The leading elements meet their own schemas. */
  ghost predicate Leads(p: seq<Json>, v: Json) {
    v.Arr? ==> forall k :: 0 <= k < |p| && k < |v.items| ==> Satisfies(p[k], v.items[k])
  }

  ghost predicate Possible(schema: Json) { exists y :: Satisfies(schema, y) }

  /** Some list gets past the first `k` positions. */
  ghost predicate Reachable(p: seq<Json>, k: nat)
    requires k <= |p|
  {
    forall j :: 0 <= j < k ==> Possible(p[j])
  }

  ghost predicate SoundWithin(schema: Json, grammar: Json)
    requires GrammarShaped(grammar)
  {
    forall x :: Satisfies(schema, x) ==> Accepts(grammar, x)
  }

  ghost function Example(schema: Json): (y: Json)
    requires Possible(schema)
    ensures Satisfies(schema, y)
  {
    var y :| Satisfies(schema, y); y
  }

  ghost function Examples(p: seq<Json>, k: nat): (ys: seq<Json>)
    requires k <= |p| && Reachable(p, k)
    ensures |ys| == k && forall j :: 0 <= j < k ==> Satisfies(p[j], ys[j])
  {
    seq(k, j requires 0 <= j < k => Example(p[j]))
  }

  ghost predicate PositionalSound(p: seq<Json>, items: Json) {
    forall v :: Satisfies(Positional(p, items), v) && Leads(p, v) ==> Accepts(Translated(Positional(p, items)), v)
  }

  /** Counting what the leading schemas themselves require: the grammar accepts what the
      schema accepts exactly when the translation of `items` accepts every value of every
      leading position a list can reach, and of the rest if a list can reach it. */
  lemma PositionalSoundIff(p: seq<Json>, items: Json)
    ensures PositionalSound(p, items) <==>
      && (forall k :: 0 <= k < |p| && Reachable(p, k) ==> SoundWithin(p[k], Translated(items)))
      && (Reachable(p, |p|) ==> SoundWithin(items, Translated(items)))
  {
    hide Translated, Satisfies, Accepts, Positional;
    if PositionalSound(p, items) {
      forall k | 0 <= k <= |p| && Reachable(p, k)
        ensures SoundWithin(if k < |p| then p[k] else items, Translated(items))
      {
        forall x | Satisfies(if k < |p| then p[k] else items, x) ensures Accepts(Translated(items), x) {
          LeadingValue(p, items, k, x);
        }
      }
    }
    if (forall k :: 0 <= k < |p| && Reachable(p, k) ==> SoundWithin(p[k], Translated(items)))
       && (Reachable(p, |p|) ==> SoundWithin(items, Translated(items)))
    {
      forall v | Satisfies(Positional(p, items), v) && Leads(p, v)
        ensures Accepts(Translated(Positional(p, items)), v)
      {
        PositionalMeaning(p, items, v);
        PositionalOutput(p, items, v);
        if v.Arr? {
          forall k | 0 <= k < |v.items| ensures Accepts(Translated(items), v.items[k]) {
            var n := if k < |p| then k else |p|;
            forall j | 0 <= j < n ensures Possible(p[j]) {
              assert Satisfies(p[j], v.items[j]);
            }
            assert Reachable(p, n);
          }
        }
      }
    }
  }

  lemma LeadingValue(p: seq<Json>, items: Json, k: nat, x: Json)
    requires PositionalSound(p, items) && k <= |p| && Reachable(p, k)
    requires Satisfies(if k < |p| then p[k] else items, x)
    ensures Accepts(Translated(items), x)
  {
    hide Translated, Satisfies, Accepts, Positional;
    var v := Arr(Examples(p, k) + [x]);
    assert Leads(p, v);
    PositionalMeaning(p, items, v);
    PositionalOutput(p, items, v);
    assert v.items[k] == x;
  }

  // -- Cycles

  /** The translation of this node follows a reference to this definition. */
  ghost predicate Follows(defs: Fields, node: Json, name: string)
    decreases node, 0
  {
    match node
    case Arr(items) => exists i :: 0 <= i < |items| && Follows(defs, items[i], name)
    case Obj(fields) =>
      if Target(defs, node).Some? then RefName(node).value == name
      else exists i :: 0 <= i < |fields| && EntryFollows(defs, fields[i].key, fields[i].value, name)
    case _ => false
  }

  ghost predicate EntryFollows(defs: Fields, key: string, value: Json, name: string)
    decreases value, 1
  {
    if key == "properties" && value.Obj? then
      exists j :: 0 <= j < |value.fields| && Follows(defs, value.fields[j].value, name)
    else (key == "const" || IsGrammarKey(key)) && Follows(defs, value, name)
  }

  lemma {:induction false} FollowsDrops(defs: Fields, ranks: Ranks, node: Json, r: nat, name: string)
    requires RefsBelow(defs, ranks, node, r) && Follows(defs, node, name)
    ensures ranks.of(name) < r && ranks.of(name) < ranks.top
    ensures Get(defs, name).Some? && Get(defs, name).value.Obj?
    decreases node, 0
  {
    match node
    case Arr(items) =>
      var i :| 0 <= i < |items| && Follows(defs, items[i], name);
      FollowsDrops(defs, ranks, items[i], r, name);
    case Obj(fields) =>
      if Target(defs, node).None? {
        var i :| 0 <= i < |fields| && EntryFollows(defs, fields[i].key, fields[i].value, name);
        var key, value := fields[i].key, fields[i].value;
        assert EntryRefsBelow(defs, ranks, key, value, r);
        if key == "properties" && value.Obj? {
          var j :| 0 <= j < |value.fields| && Follows(defs, value.fields[j].value, name);
          FollowsDrops(defs, ranks, value.fields[j].value, r, name);
        } else {
          FollowsDrops(defs, ranks, value, r, name);
        }
      }
  }

  /** The definition a name stands for, or the schema itself. */
  ghost predicate VisitedFrom(defs: Fields, schema: Json, names: seq<string>, k: nat)
    requires k < |names|
  {
    if k == 0 then Follows(defs, schema, names[0])
    else
      var from := Get(defs, names[k - 1]);
      from.Some? && from.value.Obj? && Follows(defs, from.value, names[k])
  }

  /** Definitions visited one from the other, the first from the schema itself. */
  ghost predicate Visits(defs: Fields, schema: Json, names: seq<string>) {
    forall k :: 0 <= k < |names| ==> VisitedFrom(defs, schema, names, k)
  }

  lemma {:induction false} RanksFall(defs: Fields, ranks: Ranks, schema: Json, r: nat, names: seq<string>, i: nat,
                                     j: nat)
    requires Acyclic(defs, ranks) && RefsBelow(defs, ranks, schema, r) && Visits(defs, schema, names)
    requires i <= j < |names|
    ensures ranks.of(names[j]) <= ranks.of(names[i]) - (j - i) && ranks.of(names[j]) < ranks.top
    decreases j
  {
    hide RefsBelow, Follows;
    assert VisitedFrom(defs, schema, names, j);
    if j == 0 {
      FollowsDrops(defs, ranks, schema, r, names[0]);
    } else {
      RanksFall(defs, ranks, schema, r, names, if i < j then i else j - 1, j - 1);
      FollowsDrops(defs, ranks, Get(defs, names[j - 1]).value, ranks.of(names[j - 1]), names[j]);
    }
  }

  /** No visit comes back to a definition. */
  ghost predicate NoCycle(defs: Fields, schema: Json) {
    forall names :: Visits(defs, schema, names) ==> Distinct(names)
  }

  ghost predicate Distinct(names: seq<string>) { forall i, j :: 0 <= i < j < |names| ==> names[i] != names[j] }

  ghost predicate Ranked(defs: Fields, schema: Json, ranks: Ranks, r: nat) {
    Acyclic(defs, ranks) && RefsBelow(defs, ranks, schema, r)
  }

  lemma RankedHasNoCycle(defs: Fields, schema: Json, ranks: Ranks, r: nat)
    requires Ranked(defs, schema, ranks, r)
    ensures NoCycle(defs, schema)
  {
    hide RefsBelow, Acyclic, Visits;
    forall names | Visits(defs, schema, names) ensures Distinct(names) {
      forall i, j | 0 <= i < j < |names| ensures names[i] != names[j] {
        RanksFall(defs, ranks, schema, r, names, i, j);
      }
    }
  }

  /** A visit of this length ends at this definition. */
  ghost predicate ReachedIn(defs: Fields, schema: Json, name: string, n: nat) {
    exists names :: Visits(defs, schema, names) && |names| == n > 0 && names[n - 1] == name
  }

  ghost predicate Reached(defs: Fields, schema: Json,
                          name: string) { exists n: nat :: ReachedIn(defs, schema, name, n) }

  lemma {:induction false} FollowsDefinition(defs: Fields, node: Json, name: string)
    requires Follows(defs, node, name)
    ensures Get(defs, name).Some? && Get(defs, name).value.Obj?
    decreases node, 0
  {
    match node
    case Arr(items) =>
      var i :| 0 <= i < |items| && Follows(defs, items[i], name);
      FollowsDefinition(defs, items[i], name);
    case Obj(fields) =>
      if Target(defs, node).None? {
        var i :| 0 <= i < |fields| && EntryFollows(defs, fields[i].key, fields[i].value, name);
        var key, value := fields[i].key, fields[i].value;
        if key == "properties" && value.Obj? {
          var j :| 0 <= j < |value.fields| && Follows(defs, value.fields[j].value, name);
          FollowsDefinition(defs, value.fields[j].value, name);
        } else {
          FollowsDefinition(defs, value, name);
        }
      }
  }

  lemma {:induction false} DistinctFit(names: seq<string>, all: set<string>)
    requires Distinct(names) && forall k :: 0 <= k < |names| ==> names[k] in all
    ensures |names| <= |all|
  {
    if names != [] {
      var n := |names| - 1;
      DistinctFit(names[..n], all - {names[n]});
    }
  }

  ghost function Names(defs: Fields): set<string> { set i | 0 <= i < |defs| :: defs[i].key }

  /** Without a cycle no visit is longer than there are definitions. */
  lemma VisitsAreShort(defs: Fields, schema: Json, names: seq<string>)
    requires NoCycle(defs, schema) && Visits(defs, schema, names)
    ensures |names| <= |Names(defs)|
  {
    hide Follows;
    forall k | 0 <= k < |names| ensures names[k] in Names(defs) {
      assert VisitedFrom(defs, schema, names, k);
      FollowsDefinition(defs, if k == 0 then schema else Get(defs, names[k - 1]).value, names[k]);
      GetSome(defs, names[k]);
    }
    DistinctFit(names, Names(defs));
  }

  /** The longest visit that ends at a reached definition. */
  ghost predicate Longest(defs: Fields, schema: Json, name: string, n: nat) {
    ReachedIn(defs, schema, name, n) && forall m: nat :: ReachedIn(defs, schema, name, m) ==> m <= n
  }

  lemma {:induction false} LongestExists(defs: Fields, schema: Json, name: string, n: nat)
    requires NoCycle(defs, schema) && ReachedIn(defs, schema, name, n)
    ensures n <= |Names(defs)| && exists m :: Longest(defs, schema, name, m)
    decreases |Names(defs)| - n
  {
    hide Visits, NoCycle;
    var names :| Visits(defs, schema, names) && |names| == n > 0 && names[n - 1] == name;
    VisitsAreShort(defs, schema, names);
    if !Longest(defs, schema, name, n) {
      var m: nat :| ReachedIn(defs, schema, name, m) && m > n;
      var longer :| Visits(defs, schema, longer) && |longer| == m > 0 && longer[m - 1] == name;
      VisitsAreShort(defs, schema, longer);
      LongestExists(defs, schema, name, m);
    }
  }

  ghost function Depth(defs: Fields, schema: Json, name: string): (n: nat)
    requires NoCycle(defs, schema) && Reached(defs, schema, name)
    ensures Longest(defs, schema, name, n) && 0 < n <= |Names(defs)|
  {
    var m: nat :| ReachedIn(defs, schema, name, m);
    LongestExists(defs, schema, name, m);
    var n :| Longest(defs, schema, name, n);
    LongestExists(defs, schema, name, n);
    n
  }

  /** The further from the schema, the lower; what is not reached is out of range. */
  ghost function ByDepth(defs: Fields, schema: Json): Ranks
    requires NoCycle(defs, schema)
  {
    var top := |Names(defs)|;
    Ranks(name => if Reached(defs, schema, name) then top - Depth(defs, schema, name) else top, top)
  }

  lemma VisitedNext(defs: Fields, schema: Json, name: string, n: nat, next: string)
    requires ReachedIn(defs, schema, name, n) && Get(defs, name).Some? && Get(defs, name).value.Obj?
    requires Follows(defs, Get(defs, name).value, next)
    ensures ReachedIn(defs, schema, next, n + 1)
  {
    hide Follows;
    var names :| Visits(defs, schema, names) && |names| == n > 0 && names[n - 1] == name;
    var longer := names + [next];
    forall k | 0 <= k < |longer| ensures VisitedFrom(defs, schema, longer, k) {
      if k < n {
        assert VisitedFrom(defs, schema, names, k);
      }
    }
    assert Visits(defs, schema, longer) && longer[n] == next;
  }

  lemma VisitedFirst(defs: Fields, schema: Json, name: string)
    requires Follows(defs, schema, name)
    ensures ReachedIn(defs, schema, name, 1)
  {
    hide Follows;
    assert VisitedFrom(defs, schema, [name], 0);
    assert Visits(defs, schema, [name]) && [name][0] == name;
  }

  lemma {:induction false} RefsBelowFollows(defs: Fields, ranks: Ranks, node: Json, r: nat)
    requires forall name :: Follows(defs, node, name) ==> ranks.of(name) < r && ranks.of(name) < ranks.top
    ensures RefsBelow(defs, ranks, node, r)
    decreases node
  {
    match node
    case Arr(items) =>
      forall i | 0 <= i < |items| ensures RefsBelow(defs, ranks, items[i], r) {
        RefsBelowFollows(defs, ranks, items[i], r);
      }
    case Obj(fields) =>
      if Target(defs, node).Some? {
        assert Follows(defs, node, RefName(node).value);
      } else {
        forall i | 0 <= i < |fields| ensures EntryRefsBelow(defs, ranks, fields[i].key, fields[i].value, r) {
          var key, value := fields[i].key, fields[i].value;
          assert forall name :: EntryFollows(defs, key, value, name) ==> Follows(defs, node, name);
          if key == "properties" && value.Obj? {
            forall j | 0 <= j < |value.fields| ensures RefsBelow(defs, ranks, value.fields[j].value, r) {
              assert forall name :: Follows(defs, value.fields[j].value, name) ==> EntryFollows(defs, key, value, name);
              RefsBelowFollows(defs, ranks, value.fields[j].value, r);
            }
          } else if key == "const" || IsGrammarKey(key) {
            assert forall name :: Follows(defs, value, name) ==> EntryFollows(defs, key, value, name);
            RefsBelowFollows(defs, ranks, value, r);
          }
        }
      }
    case _ =>
  }

  lemma DepthRanks(defs: Fields, schema: Json)
    requires NoCycle(defs, schema)
    ensures Ranked(defs, schema, ByDepth(defs, schema), |Names(defs)|)
  {
    hide NoCycle, Follows, RefsBelow, Visits;
    var ranks, top := ByDepth(defs, schema), |Names(defs)|;
    forall name | Follows(defs, schema, name) ensures ranks.of(name) < top {
      VisitedFirst(defs, schema, name);
    }
    RefsBelowFollows(defs, ranks, schema, top);
    forall name | Get(defs, name).Some? && Get(defs, name).value.Obj? && ranks.of(name) < top
      ensures RefsBelow(defs, ranks, Get(defs, name).value, ranks.of(name))
    {
      forall next | Follows(defs, Get(defs, name).value, next) ensures ranks.of(next) < ranks.of(name) {
        VisitedNext(defs, schema, name, Depth(defs, schema, name), next);
      }
      RefsBelowFollows(defs, ranks, Get(defs, name).value, ranks.of(name));
    }
  }

  /** The schemas the translation handles are those on which no visit comes back to a
      definition; on the others the original does not return. Cycles the schema does not
      reach do no harm. */
  lemma RankedIff(defs: Fields, schema: Json)
    ensures (exists ranks: Ranks, r: nat :: Ranked(defs, schema, ranks, r)) <==> NoCycle(defs, schema)
  {
    hide Ranked, NoCycle;
    forall ranks: Ranks, r: nat | Ranked(defs, schema, ranks, r) ensures NoCycle(defs, schema) {
      RankedHasNoCycle(defs, schema, ranks, r);
    }
    if NoCycle(defs, schema) {
      DepthRanks(defs, schema);
    }
  }

  // ---- The recursive procedure of the original

  /** `simplify`: comprehensions over lists, and a dictionary filled keyword by keyword. */
  method SimplifyNode(defs: Fields, ghost ranks: Ranks, node: Json, ghost r: nat) returns (result: Json)
    requires Acyclic(defs, ranks) && RefsBelow(defs, ranks, node, r)
    ensures result == Simplify(defs, ranks, node, r)
    decreases r, node, 1
  {
    match node
    case Arr(items) =>
      var copied: seq<Json> := [];
      for i := 0 to |items|
        invariant copied == Simplify(defs, ranks, node, r).items[..i]
      {
        var item := SimplifyNode(defs, ranks, items[i], r);
        copied := copied + [item];
      }
      result := Arr(copied);
    case Obj(fields) =>
      var target := Target(defs, node);
      if target.Some? {
        result := SimplifyNode(defs, ranks, target.value, ranks.of(RefName(node).value));
      } else {
        var filled: Fields := [];
        var const_ := ConstIndex(fields);
        if const_.Some? {
          assert EntryRefsBelow(defs, ranks, fields[const_.value].key, fields[const_.value].value, r);
          var literal := SimplifyNode(defs, ranks, fields[const_.value].value, r);
          filled := Put(filled, "enum", Arr([literal]));
        }
        assert filled == FromItems(Kept(defs, ranks, node, r, 0));
        for i := 0 to |fields|
          invariant filled == FromItems(Kept(defs, ranks, node, r, i))
        {
          var key := fields[i].key;
          if IsGrammarKey(key) {
            var value := SimplifyKeyword(defs, ranks, key, fields[i].value, r);
            FromItemsSnoc(Kept(defs, ranks, node, r, i), key, value);
            filled := Put(filled, key, value);
          } else {
            assert Kept(defs, ranks, node, r, i + 1) == Kept(defs, ranks, node, r, i);
          }
        }
        result := Obj(filled);
      }
    case _ =>
      result := node;
  }

  method SimplifyKeyword(defs: Fields, ghost ranks: Ranks, key: string, value: Json,
                         ghost r: nat) returns (result: Json)
    requires IsGrammarKey(key) && Acyclic(defs, ranks) && EntryRefsBelow(defs, ranks, key, value, r)
    ensures result == SimplifyEntry(defs, ranks, key, value, r)
    decreases r, value, 2
  {
    if key == "properties" && value.Obj? {
      var copied: Fields := [];
      for j := 0 to |value.fields|
        invariant copied == SimplifyEntry(defs, ranks, key, value, r).fields[..j]
      {
        var schema := SimplifyNode(defs, ranks, value.fields[j].value, r);
        copied := copied + [Entry(value.fields[j].key, schema)];
      }
      result := Obj(copied);
    } else {
      result := SimplifyNode(defs, ranks, value, r);
    }
  }

  function Definitions(schema: Json): Fields {
    if !schema.Obj? then []
    else
      var found := Get(schema.fields, "$defs");
      if found.Some? && found.value.Obj? then found.value.fields else []
  }

  /** The meaning of a schema with its definitions. */
  /** The definitions are the object under "$defs", if there is one. */
  lemma DefinitionsAre(schema: Json, defs: Fields)
    requires schema.Obj?
    ensures Get(schema.fields, "$defs") == Some(Obj(defs)) ==> Definitions(schema) == defs
    ensures (forall d :: Get(schema.fields, "$defs") != Some(Obj(d))) ==> Definitions(schema) == []
  {
    hide Get;
    var found := Get(schema.fields, "$defs");
    assert found.Some? && found.value.Obj? ==> found == Some(Obj(found.value.fields));
  }

  ghost predicate SchemaValid(schema: Json, rest: Rest, v: Json)
    requires NoCycle(Definitions(schema), schema)
  {
    DepthRanks(Definitions(schema), schema);
    Valid(Definitions(schema), ByDepth(Definitions(schema), schema), rest, schema, |Names(Definitions(schema))|, v)
  }

  ghost predicate SchemaFaithful(schema: Json, exact: bool)
    requires NoCycle(Definitions(schema), schema)
  {
    DepthRanks(Definitions(schema), schema);
    Faithful(Definitions(schema), ByDepth(Definitions(schema), schema), exact, schema, |Names(Definitions(schema))|)
  }

  /** `_ollama_grammar_schema`: a schema object always gives a grammar object, so the error
      for anything else is never raised, and the grammar accepts every value the schema does. */
  method OllamaGrammarSchema(schema: Json) returns (grammar: Json)
    requires schema.Obj? && NoCycle(Definitions(schema), schema)
    ensures grammar.Obj? && GrammarShaped(grammar)
    ensures SchemaFaithful(schema, false) ==> forall rest, v :: SchemaValid(schema, rest, v) ==> Accepts(grammar, v)
    ensures SchemaFaithful(schema, true) ==> forall v :: Accepts(grammar, v) <==> SchemaValid(schema, NoRest, v)
  {
    hide NoCycle, Faithful, Valid, Acyclic, RefsBelow, ByDepth;
    var defs := Definitions(schema);
    ghost var ranks, r := ByDepth(defs, schema), |Names(defs)|;
    DepthRanks(defs, schema);
    grammar := SimplifyNode(defs, ranks, schema, r);
    SimplifyShapes(defs, ranks, schema, r);
    forall rest, v | SchemaFaithful(schema, false) && SchemaValid(schema, rest, v)
      ensures Accepts(grammar, v)
    {
      Preserved(defs, ranks, rest, false, schema, r, v);
    }
    forall v | SchemaFaithful(schema, true)
      ensures Accepts(grammar, v) <==> SchemaValid(schema, NoRest, v)
    {
      Preserved(defs, ranks, NoRest, true, schema, r, v);
    }
  }
}
