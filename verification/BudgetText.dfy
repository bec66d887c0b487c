/**
 * Exceeded dimensions travel as text. Which texts a node takes for its own, and what it reads off them, depends
 * on the colons in node ids.
 */
module BudgetText {

  type NodeId = string

  datatype Dim = PromptTokens | CompletionTokens | TotalTokens | ToolCalls | DurationMs | Attempts
               | CostUsd | CostUnavailable

  const DIMS := {PromptTokens, CompletionTokens, TotalTokens, ToolCalls, DurationMs, Attempts, CostUsd, CostUnavailable}

  lemma EveryDim(d: Dim)
    ensures d in DIMS
  {
  }

  /** One entry of a snapshot's list of exceeded dimensions. */
  datatype Item = Exec(dim: Dim) | OfNode(node: NodeId, dim: Dim)

  // ---------- the texts ----------

  function Name(d: Dim): string {
    match d
    case PromptTokens => "prompt_tokens"
    case CompletionTokens => "completion_tokens"
    case TotalTokens => "total_tokens"
    case ToolCalls => "tool_calls"
    case DurationMs => "duration_ms"
    case Attempts => "attempts"
    case CostUsd => "cost_usd"
    case CostUnavailable => "cost_usd_unavailable"
  }

  function NamesOf(ds: set<Dim>): set<string> { set d | d in ds :: Name(d) }

  const NODE := "node:"

  function Prefix(id: NodeId): string { NODE + id + ":" }

  function Text(item: Item): string {
    match item
    case Exec(d) => Name(d)
    case OfNode(id, d) => Prefix(id) + Name(d)
  }

  function Texts(items: set<Item>): set<string> { set item | item in items :: Text(item) }

  /** The last part of splitting at the first `n` colons. */
  function LastPart(s: string, n: nat): string
    decreases |s|
  {
    if n == 0 || ':' !in s then s
    else if s[0] == ':' then LastPart(s[1..], n - 1)
    else LastPart(s[1..], n)
  }

  /** Whether a text is taken for one of node `id`'s, or of the execution's. */
  predicate TakenAsLocal(text: string, id: NodeId) { !(NODE <= text) || Prefix(id) <= text }

  /** The names a commit of node `id` reads off a list of texts. */
  function LocalNames(texts: set<string>, id: NodeId): set<string> {
    set t | t in texts && TakenAsLocal(t, id) :: LastPart(t, 2)
  }

  predicate HasOwnText(texts: set<string>, id: NodeId) { exists t :: t in texts && Prefix(id) <= t }

  /** What follows the node's prefix, for evidence of usage that no commit reports. */
  function OwnTails(texts: set<string>, id: NodeId): set<string> {
    set t | t in texts && Prefix(id) <= t :: t[|Prefix(id)|..]
  }

  function ExecTexts(texts: set<string>): set<string> { set t | t in texts && !(NODE <= t) }

  // ---------- splitting ----------

  lemma NamesHaveNoColon(d: Dim)
    ensures ':' !in Name(d) && Name(d) != "" && Name(d)[0] != 'n'
  {
  }

  lemma {:induction false} PartAfter(s: string, t: string, n: nat)
    requires ':' !in s && n > 0
    ensures LastPart(s + ":" + t, n) == LastPart(t, n - 1)
  {
    var all := s + ":" + t;
    assert all[|s|] == ':';
    if s == "" {
      assert all[1..] == t;
    } else {
      assert all[0] == s[0] && all[1..] == s[1..] + ":" + t;
      assert s[0] in s;
      PartAfter(s[1..], t, n);
    }
  }

  lemma {:induction false} FirstColon(s: string) returns (a: string, b: string)
    requires ':' in s
    ensures s == a + ":" + b && ':' !in a
  {
    if s[0] == ':' {
      a, b := "", s[1..];
    } else {
      a, b := FirstColon(s[1..]);
      a := [s[0]] + a;
    }
  }

  lemma PlainIdSurvives(id: NodeId, name: string)
    requires ':' !in id
    ensures LastPart(Prefix(id) + name, 2) == name
  {
    assert Prefix(id) + name == "node" + ":" + (id + ":" + name);
    PartAfter("node", id + ":" + name, 2);
    PartAfter(id, name, 1);
  }

  lemma ColonIdDoesNot(id: NodeId, name: string)
    requires ':' in id
    ensures ':' in LastPart(Prefix(id) + name, 2)
  {
    assert Prefix(id) + name == "node" + ":" + (id + ":" + name);
    PartAfter("node", id + ":" + name, 2);
    var a, b := FirstColon(id);
    var tail := b + ":" + name;
    assert id + ":" + name == a + ":" + tail;
    PartAfter(a, tail, 1);
    assert tail[|b|] == ':';
  }

  /** A node's dimension survives the text exactly when the node id has no colon. */
  lemma NameSurvives(id: NodeId, d: Dim)
    ensures ':' !in id ==> LastPart(Text(OfNode(id, d)), 2) == Name(d)
    ensures ':' in id ==> forall e :: LastPart(Text(OfNode(id, d)), 2) != Name(e)
  {
    hide Name, LastPart, Prefix;
    if ':' !in id { PlainIdSurvives(id, Name(d)); }
    else {
      ColonIdDoesNot(id, Name(d));
      forall e ensures ':' !in Name(e) { NamesHaveNoColon(e); }
    }
  }

  lemma ExecIsLocal(id: NodeId, d: Dim)
    ensures TakenAsLocal(Text(Exec(d)), id) && LastPart(Text(Exec(d)), 2) == Name(d)
  {
    NamesHaveNoColon(d);
    hide Name;
    assert Name(d)[0] != NODE[0];
  }

  /** Another node's id that begins with this one's and a colon. */
  predicate Extends(m: NodeId, id: NodeId) { id + ":" <= m }

  /** A node takes the texts of its own id and of the ids that extend it, and no others. */
  lemma OwnTextsOnly(id: NodeId, m: NodeId, d: Dim)
    ensures Prefix(id) <= Text(OfNode(m, d)) <==> m == id || Extends(m, id)
    ensures TakenAsLocal(Text(OfNode(m, d)), id) <==> m == id || Extends(m, id)
  {
    hide Name;
    NamesHaveNoColon(d);
    var text, mine := Text(OfNode(m, d)), Prefix(id);
    var tail := m + ":" + Name(d);
    assert text == NODE + tail && mine == NODE + (id + ":");
    assert text[|NODE|..] == tail;
    if mine <= text { PrefixOfTail(id, m, Name(d)); }
    if Extends(m, id) { assert tail == id + ":" + tail[|id| + 1..]; }
  }

  lemma PrefixOfTail(id: NodeId, m: NodeId, name: string)
    requires ':' !in name && NODE + id + ":" <= NODE + m + ":" + name
    ensures m == id || Extends(m, id)
  {
    var tail := m + ":" + name;
    assert NODE + m + ":" + name == NODE + tail;
    assert id + ":" == (NODE + tail)[|NODE|..|NODE| + |id| + 1] == tail[..|id| + 1];
    assert tail[|id|] == ':' && forall k :: 0 <= k < |name| ==> tail[|m| + 1 + k] == name[k] && name[k] in name;
    assert |m| >= |id|;
    assert |m| == |id| ==> tail[..|id|] == m;
    assert |m| > |id| ==> tail[..|id| + 1] == m[..|id| + 1];
  }

  /** The text of an execution entry never looks like a node's. */
  lemma ExecText(id: NodeId, d: Dim)
    ensures !(NODE <= Text(Exec(d))) && !(Prefix(id) <= Text(Exec(d)))
  {
    NamesHaveNoColon(d);
    hide Name;
    assert Name(d)[0] != NODE[0] && NODE <= Prefix(id);
  }

  lemma LocalText(item: Item, id: NodeId)
    requires TakenAsLocal(Text(item), id)
    ensures if item.OfNode? && ':' in item.node
            then ':' in LastPart(Text(item), 2) else LastPart(Text(item), 2) == Name(item.dim)
  {
    hide Name, LastPart, TakenAsLocal, Text;
    match item
    case Exec(d) => ExecIsLocal(id, d);
    case OfNode(m, d) =>
      if ':' in m { ColonText(m, d); } else { NameSurvives(m, d); }
  }

  lemma ColonText(m: NodeId, d: Dim)
    requires ':' in m
    ensures ':' in LastPart(Text(OfNode(m, d)), 2)
  {
    hide Name, LastPart;
    ColonIdDoesNot(m, Name(d));
  }

  /** Whether a text is the name of a dimension. */
  ghost predicate IsName(s: string) { exists d :: s == Name(d) }

  /** A name read off the texts, and the entry it comes from. */
  lemma ReadFrom(items: set<Item>, id: NodeId, s: string) returns (item: Item)
    requires s in LocalNames(Texts(items), id)
    ensures item in items && TakenAsLocal(Text(item), id) && LastPart(Text(item), 2) == s
  {
    hide Text, LastPart, TakenAsLocal;
    var t :| t in Texts(items) && TakenAsLocal(t, id) && LastPart(t, 2) == s;
    item :| item in items && Text(item) == t;
  }

  lemma ReadOff(items: set<Item>, id: NodeId, item: Item)
    requires item in items && TakenAsLocal(Text(item), id)
    ensures LastPart(Text(item), 2) in LocalNames(Texts(items), id)
  {
    hide Text, LastPart, TakenAsLocal;
    assert Text(item) in Texts(items);
  }

  /**
   * A node without a colon reads off the texts exactly its own dimensions and the execution's, and nothing else
   * if and only if no listed node's id begins with its own and a colon.
   */
  lemma TextIsStructure(items: set<Item>, id: NodeId)
    requires ':' !in id
    ensures forall d :: Name(d) in LocalNames(Texts(items), id) <==> Exec(d) in items || OfNode(id, d) in items
    ensures (forall s :: s in LocalNames(Texts(items), id) ==> IsName(s)) <==>
            (forall item :: item in items && item.OfNode? ==> !Extends(item.node, id))
  {
    hide Name, LastPart, TakenAsLocal, Text, Texts, LocalNames, Extends;
    forall d ensures Name(d) in LocalNames(Texts(items), id) <==> Exec(d) in items || OfNode(id, d) in items {
      if Name(d) in LocalNames(Texts(items), id) { ReadsOwn(items, id, d); }
      if Exec(d) in items { ReadsBack(items, id, Exec(d)); }
      if OfNode(id, d) in items { ReadsBack(items, id, OfNode(id, d)); }
    }
    forall item | item in items && item.OfNode? && Extends(item.node, id)
      ensures exists s :: s in LocalNames(Texts(items), id) && !IsName(s)
    {
      ExtendedHasColon(item.node, id);
      Foreign(items, id, item);
    }
    if forall item :: item in items && item.OfNode? ==> !Extends(item.node, id) {
      forall s | s in LocalNames(Texts(items), id) ensures IsName(s) {
        var item := ReadFrom(items, id, s);
        if item.OfNode? { OwnTextsOnly(id, item.node, item.dim); }
        LocalText(item, id);
      }
    }
  }

  lemma ExtendedHasColon(m: NodeId, id: NodeId)
    requires Extends(m, id)
    ensures ':' in m
  {
    assert m[|id|] == ':';
  }

  lemma ReadsOwn(items: set<Item>, id: NodeId, d: Dim)
    requires Name(d) in LocalNames(Texts(items), id)
    ensures Exec(d) in items || OfNode(id, d) in items
  {
    hide Name, LastPart, Text, Texts, LocalNames, TakenAsLocal, Extends;
    var item := ReadFrom(items, id, Name(d));
    LocalText(item, id);
    NamesHaveNoColon(d);
    NamesDiffer(item.dim, d);
    if item.OfNode? {
      OwnTextsOnly(id, item.node, item.dim);
      if item.node != id { ExtendedHasColon(item.node, id); }
    }
  }

  lemma ReadsBack(items: set<Item>, id: NodeId, item: Item)
    requires item in items && (item.Exec? || (item.node == id && ':' !in id))
    ensures Name(item.dim) in LocalNames(Texts(items), id)
  {
    hide Name, LastPart, Text, Texts, LocalNames, TakenAsLocal;
    match item {
      case Exec(d) => ExecIsLocal(id, d);
      case OfNode(m, d) => OwnTextsOnly(id, m, d); NameSurvives(id, d);
    }
    ReadOff(items, id, item);
  }

  lemma Foreign(items: set<Item>, id: NodeId, item: Item)
    requires item in items && item.OfNode? && (item.node == id || Extends(item.node, id)) && ':' in item.node
    ensures exists s :: s in LocalNames(Texts(items), id) && !IsName(s)
  {
    hide Name, LastPart, Text, Texts, LocalNames, TakenAsLocal;
    OwnTextsOnly(id, item.node, item.dim);
    ColonText(item.node, item.dim);
    ReadOff(items, id, item);
    forall d ensures ':' !in Name(d) { NamesHaveNoColon(d); }
  }

  lemma NamesDiffer(d: Dim, e: Dim)
    ensures Name(d) == Name(e) ==> d == e
  {
    assert |"prompt_tokens"| == 13 && |"completion_tokens"| == 17 && |"total_tokens"| == 12 && |"tool_calls"| == 10;
    assert |"duration_ms"| == 11 && |"attempts"| == 8 && |"cost_usd_unavailable"| == 20;
    assert Name(Attempts)[0] == 'a' && Name(CostUsd)[0] == 'c';
  }

  lemma NamesOfIsInjective(xs: set<Dim>, ys: set<Dim>)
    ensures NamesOf(xs) == NamesOf(ys) <==> xs == ys
    ensures NamesOf(xs) <= NamesOf(DIMS)
  {
    hide Name;
    forall d ensures d in DIMS { EveryDim(d); }
    forall d ensures Name(d) in NamesOf(xs) <==> d in xs { NameIn(d, xs); }
    forall d ensures Name(d) in NamesOf(ys) <==> d in ys { NameIn(d, ys); }
  }

  lemma NameIn(d: Dim, ds: set<Dim>)
    ensures Name(d) in NamesOf(ds) <==> d in ds
  {
    hide Name;
    if Name(d) in NamesOf(ds) {
      var e :| e in ds && Name(e) == Name(d);
      NamesDiffer(d, e);
    }
  }

  // ---------- exactly what is read ----------

  /** Some entry a commit of node `id` takes belongs to an id with a colon. */
  predicate Garbled(items: set<Item>, id: NodeId) {
    exists item :: item in items && item.OfNode? && ':' in item.node && (item.node == id || Extends(item.node, id))
  }

  /** Some entry belongs to an id that begins with this one's and a colon. */
  predicate Nested(items: set<Item>, id: NodeId) {
    exists item :: item in items && item.OfNode? && Extends(item.node, id)
  }

  lemma NestedIsGarbled(items: set<Item>, id: NodeId)
    ensures Nested(items, id) ==> Garbled(items, id)
    ensures Garbled(items, id) && ':' !in id ==> Nested(items, id)
  {
    hide Extends;
    if Nested(items, id) {
      var item :| item in items && item.OfNode? && Extends(item.node, id);
      ExtendedHasColon(item.node, id);
    }
  }

  function DimsFor(items: set<Item>, id: NodeId): set<Dim> {
    set d | d in DIMS && (Exec(d) in items || OfNode(id, d) in items)
  }

  lemma GarbledNames(items: set<Item>, id: NodeId)
    requires Garbled(items, id)
    ensures LocalNames(Texts(items), id) != {} && !(LocalNames(Texts(items), id) <= NamesOf(DIMS))
  {
    hide Name, LocalNames, Texts, Extends;
    var item :| item in items && item.OfNode? && ':' in item.node && (item.node == id || Extends(item.node, id));
    Foreign(items, id, item);
    var s :| s in LocalNames(Texts(items), id) && !IsName(s);
    assert s !in NamesOf(DIMS);
  }

  lemma TakenIsOwn(items: set<Item>, id: NodeId, item: Item)
    requires !Garbled(items, id) && item in items && item.OfNode?
    ensures TakenAsLocal(Text(item), id) ==> item.node == id && ':' !in id
    ensures Prefix(id) <= Text(item) <==> item.node == id
  {
    hide Text, Extends, TakenAsLocal, Prefix;
    OwnTextsOnly(id, item.node, item.dim);
    if Extends(item.node, id) { ExtendedHasColon(item.node, id); }
  }

  lemma PlainNames(items: set<Item>, id: NodeId)
    requires !Garbled(items, id)
    ensures LocalNames(Texts(items), id) == NamesOf(DimsFor(items, id))
  {
    hide Name, LastPart, TakenAsLocal, Text, Texts, LocalNames, Garbled, Prefix;
    forall s | s in LocalNames(Texts(items), id) ensures s in NamesOf(DimsFor(items, id)) {
      var item := ReadFrom(items, id, s);
      if item.OfNode? { TakenIsOwn(items, id, item); }
      LocalText(item, id);
      EveryDim(item.dim);
      assert item.dim in DimsFor(items, id);
    }
    forall d | d in DimsFor(items, id) ensures Name(d) in LocalNames(Texts(items), id) {
      if Exec(d) in items { ReadsBack(items, id, Exec(d)); } else { OwnIsPlain(items, id, d); }
    }
  }

  lemma OwnIsPlain(items: set<Item>, id: NodeId, d: Dim)
    requires !Garbled(items, id) && OfNode(id, d) in items
    ensures Name(d) in LocalNames(Texts(items), id)
  {
    hide Name, Texts, LocalNames;
    ReadsBack(items, id, OfNode(id, d));
  }

  lemma PlainScope(items: set<Item>, id: NodeId)
    requires !Garbled(items, id)
    ensures HasOwnText(Texts(items), id) <==> exists d :: d in DIMS && OfNode(id, d) in items
  {
    hide Text, Garbled, Prefix;
    if HasOwnText(Texts(items), id) {
      var item :| item in items && Prefix(id) <= Text(item);
      if item.Exec? { ExecText(id, item.dim); } else { TakenIsOwn(items, id, item); }
      EveryDim(item.dim);
    }
    if d :| d in DIMS && OfNode(id, d) in items {
      TakenIsOwn(items, id, OfNode(id, d));
      assert Text(OfNode(id, d)) in Texts(items);
    }
  }

  /** Where nothing is taken for local, nothing is read. */
  lemma ReadsNothing(items: set<Item>, id: NodeId)
    ensures LocalNames(Texts(items), id) == {} <==> DimsFor(items, id) == {} && !Nested(items, id)
  {
    hide LocalNames, Texts, Extends;
    NestedIsGarbled(items, id);
    if Garbled(items, id) {
      GarbledNames(items, id);
      GarbledIsLocal(items, id);
    } else {
      PlainNames(items, id);
      NamesOfIsInjective(DimsFor(items, id), {});
      assert NamesOf({}) == {};
    }
  }

  lemma GarbledIsLocal(items: set<Item>, id: NodeId)
    requires Garbled(items, id)
    ensures DimsFor(items, id) != {} || Nested(items, id)
  {
    hide Extends;
    var item :| item in items && item.OfNode? && ':' in item.node && (item.node == id || Extends(item.node, id));
    EveryDim(item.dim);
    if item.node == id { assert item.dim in DimsFor(items, id); }
  }

  // ---------- evidence that no commit reports ----------

  lemma TailOf(id: NodeId, m: NodeId, d: Dim)
    requires m == id || Extends(m, id)
    ensures Prefix(id) <= Text(OfNode(m, d))
    ensures var tail := Text(OfNode(m, d))[|Prefix(id)|..];
            if m == id then tail == Name(d) else ':' in tail
  {
    hide Name;
    OwnTextsOnly(id, m, d);
    if m != id { ExtendedTail(id, m, Name(d)); }
  }

  lemma ExtendedTail(id: NodeId, m: NodeId, name: string)
    requires Extends(m, id)
    ensures Prefix(id) <= Prefix(m) + name && ':' in (Prefix(m) + name)[|Prefix(id)|..]
  {
    var rest := m[|id| + 1..];
    var tail := rest + ":" + name;
    assert m == id + ":" + rest;
    assert Prefix(m) + name == Prefix(id) + tail;
    assert tail[|rest|] == ':';
  }

  lemma NestedTails(items: set<Item>, id: NodeId)
    requires Nested(items, id)
    ensures OwnTails(Texts(items), id) != {} && !(OwnTails(Texts(items), id) <= NamesOf(DIMS))
  {
    hide Text, Prefix, Name, Extends;
    var item :| item in items && item.OfNode? && Extends(item.node, id);
    TailOf(id, item.node, item.dim);
    NotItself(item.node, id);
    var t := Text(item);
    assert t in Texts(items);
    var tail := t[|Prefix(id)|..];
    assert tail in OwnTails(Texts(items), id);
    forall d ensures ':' !in Name(d) { NamesHaveNoColon(d); }
  }

  lemma NotItself(m: NodeId, id: NodeId)
    requires Extends(m, id)
    ensures m != id
  {
  }

  lemma PlainTails(items: set<Item>, id: NodeId)
    requires !Nested(items, id)
    ensures OwnTails(Texts(items), id) == NamesOf(set d | d in DIMS && OfNode(id, d) in items)
  {
    hide Text, Prefix, Name, Extends;
    var own := set d | d in DIMS && OfNode(id, d) in items;
    forall s | s in OwnTails(Texts(items), id) ensures s in NamesOf(own) {
      var item :| item in items && Prefix(id) <= Text(item) && Text(item)[|Prefix(id)|..] == s;
      if item.Exec? {
        ExecText(id, item.dim);
      } else {
        OwnTextsOnly(id, item.node, item.dim);
        TailOf(id, item.node, item.dim);
        EveryDim(item.dim);
        assert item.dim in own;
      }
    }
    forall d | d in own ensures Name(d) in OwnTails(Texts(items), id) {
      TailOf(id, id, d);
      assert Text(OfNode(id, d)) in Texts(items);
    }
  }

  lemma ExecNames(items: set<Item>)
    ensures ExecTexts(Texts(items)) == NamesOf(set d | d in DIMS && Exec(d) in items)
  {
    hide Text, Name;
    forall d ensures Text(Exec(d)) == Name(d) && !(NODE <= Text(Exec(d))) {
      ExecText("", d);
      ExecIsItsName(d);
    }
    forall m, d ensures NODE <= Text(OfNode(m, d)) { NodeText(m, d); }
    var whole := set d | d in DIMS && Exec(d) in items;
    forall s | s in ExecTexts(Texts(items)) ensures s in NamesOf(whole) {
      var item :| item in items && Text(item) == s;
      EveryDim(item.dim);
      assert item == Exec(item.dim) && item.dim in whole;
    }
    forall d | d in whole ensures Name(d) in ExecTexts(Texts(items)) { assert Text(Exec(d)) in Texts(items); }
  }

  lemma ExecIsItsName(d: Dim)
    ensures Text(Exec(d)) == Name(d)
  {
  }

  lemma NodeText(m: NodeId, d: Dim)
    ensures NODE <= Text(OfNode(m, d))
  {
  }
}
