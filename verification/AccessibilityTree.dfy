/**
 * The accessibility-tree snapshot of sidecar/browser_ax.go: buildAXElements, with truncateRunes of
 * sidecar/semantic.go. Missing roles and names read as the empty string.
 */
module AccessibilityTree {
  datatype Node = Node(id: string, ignored: bool, role: string, name: string, backend: int, parent: string)

  datatype Segment = Segment(role: string, name: string)

  datatype Element = Element(
    axId: string, backend: int, role: string, name: string, interactive: bool, path: seq<Segment>, ordinal: nat)

  const MAX_ELEMENTS: nat := 300
  const MAX_PATH_DEPTH: nat := 6
  const PATH_NAME_RUNES: nat := 40
  const NAME_RUNES: nat := 100

  const INTERACTIVE_ROLES: set<string> := {
    "button", "link", "textbox", "searchbox", "checkbox", "radio", "combobox", "listbox", "menuitem",
    "menuitemcheckbox", "menuitemradio", "tab", "switch", "slider", "spinbutton", "option", "textfield",
    "MenuListOption"
  }

  const IGNORED_ROLES: set<string> := {"none", "generic", "InlineTextBox", "LineBreak"}

  function Truncate(s: string, n: nat): string {
    if |s| <= n then s else s[..n]
  }

  predicate Interactive(n: Node) {
    n.role in INTERACTIVE_ROLES
  }

  predicate Emittable(n: Node) {
    !n.ignored && n.backend != 0 && (Interactive(n) || n.name != "")
  }

  // ---- Ancestry ----

  type Index = map<string, Node>

  /** byID: of nodes that share an id the last one counts. */
  function ById(nodes: seq<Node>): Index {
    if nodes == [] then map[] else ById(nodes[..|nodes| - 1])[nodes[|nodes| - 1].id := nodes[|nodes| - 1]]
  }

  predicate BelowItsChild(index: Index, rank: map<string, nat>, id: string)
    requires id in index
  {
    id in rank && (index[id].parent in index ==> index[id].parent in rank && rank[index[id].parent] < rank[id])
  }

  /** The parent links form no cycle: each node that is somebody's parent ranks below its children. */
  ghost predicate Acyclic(index: Index, rank: map<string, nat>) {
    forall id | id in index :: BelowItsChild(index, rank, id)
  }

  ghost function Height(index: Index, rank: map<string, nat>, id: string): nat {
    if id in index && id in rank then rank[id] + 1 else 0
  }

  predicate Meaningful(n: Node) {
    !(n.role == "" || (n.role in IGNORED_ROLES && n.name == ""))
  }

  /** All ancestors, nearest first, starting with the node called id. */
  ghost function Ancestors(index: Index, rank: map<string, nat>, id: string): seq<Node>
    requires Acyclic(index, rank)
    decreases Height(index, rank, id)
  {
    if id in index then [index[id]] + Ancestors(index, rank, index[id].parent) else []
  }

  function SegmentOf(n: Node): Segment {
    Segment(n.role, Truncate(n.name, PATH_NAME_RUNES))
  }

  function MeaningfulSegments(ancestors: seq<Node>): seq<Segment> {
    if ancestors == [] then []
    else
      var rest := MeaningfulSegments(ancestors[1..]);
      if Meaningful(ancestors[0]) then [SegmentOf(ancestors[0])] + rest else rest
  }

  function Take<T>(s: seq<T>, n: nat): seq<T> {
    if |s| <= n then s else s[..n]
  }

  function Reversed<T>(s: seq<T>): seq<T> {
    seq(|s|, i requires 0 <= i < |s| => s[|s| - 1 - i])
  }

  /** The nearest at most six meaningful ancestors, root first. */
  ghost function Path(index: Index, rank: map<string, nat>, parent: string): seq<Segment>
    requires Acyclic(index, rank)
  {
    Reversed(Take(MeaningfulSegments(Ancestors(index, rank, parent)), MAX_PATH_DEPTH))
  }

  method ReverseInPlace(slice: seq<Segment>) returns (rev: seq<Segment>)
    ensures rev == Reversed(slice)
  {
    rev := slice;
    var i, j := 0, |rev| - 1;
    while i < j
      invariant |rev| == |slice| && 0 <= i <= j + 1 && i + j == |rev| - 1
      invariant forall k :: i <= k <= j ==> rev[k] == slice[k]
      invariant forall k :: 0 <= k < i ==> rev[k] == slice[|slice| - 1 - k]
      invariant forall k :: j < k < |rev| ==> rev[k] == slice[|slice| - 1 - k]
    {
      rev := rev[i := rev[j]][j := rev[i]];
      i, j := i + 1, j - 1;
    }
  }

  method PathOf(index: Index, ghost rank: map<string, nat>, n: Node) returns (path: seq<Segment>)
    requires Acyclic(index, rank)
    ensures path == Path(index, rank, n.parent)
  {
    path := [];
    var cur := n.parent;
    ghost var whole := MeaningfulSegments(Ancestors(index, rank, n.parent));
    while cur in index
      invariant |path| < MAX_PATH_DEPTH
      invariant whole == path + MeaningfulSegments(Ancestors(index, rank, cur))
      decreases Height(index, rank, cur)
    {
      var node := index[cur];
      ghost var above := Ancestors(index, rank, node.parent);
      assert Ancestors(index, rank, cur) == [node] + above;
      assert ([node] + above)[1..] == above;
      cur := node.parent;
      if node.role == "" || (node.role in IGNORED_ROLES && node.name == "") {
        continue;
      }
      ghost var before := path;
      path := path + [Segment(node.role, Truncate(node.name, PATH_NAME_RUNES))];
      assert whole == before + ([path[|path| - 1]] + MeaningfulSegments(above));
      if |path| >= MAX_PATH_DEPTH {
        break;
      }
    }
    assert path == Take(whole, MAX_PATH_DEPTH);
    path := ReverseInPlace(path);
  }

  // ---- Ordinals ----

  function Name(n: Node): string {
    Truncate(n.name, NAME_RUNES)
  }

  /** The counter's key: parent, role and name run together, so distinct triples may share one. */
  function OrdinalKey(n: Node): string {
    n.parent + "|" + n.role + "|" + Name(n)
  }

  /** How many of the first k nodes are emittable under this key. */
  function KeyCount(nodes: seq<Node>, k: nat, key: string): nat
    requires k <= |nodes|
  {
    if k == 0 then 0
    else KeyCount(nodes, k - 1, key) + if Emittable(nodes[k - 1]) && OrdinalKey(nodes[k - 1]) == key then 1 else 0
  }

  /** The element for node i. */
  ghost function ElementOf(nodes: seq<Node>, rank: map<string, nat>, i: nat): Element
    requires i < |nodes| && Acyclic(ById(nodes), rank)
  {
    var n := nodes[i];
    Element(n.id, n.backend, n.role, Name(n), Interactive(n), Path(ById(nodes), rank, n.parent),
            KeyCount(nodes, i, OrdinalKey(n)))
  }

  // ---- Selection ----

  /** Which of the first k nodes are emitted as interactive (or as context), in tree order. */
  function Chosen(nodes: seq<Node>, k: nat, interactive: bool): (r: seq<nat>)
    requires k <= |nodes|
    ensures forall p :: 0 <= p < |r| ==> r[p] < k
  {
    if k == 0 then []
    else if Emittable(nodes[k - 1]) && Interactive(nodes[k - 1]) == interactive then
      Chosen(nodes, k - 1, interactive) + [k - 1]
    else Chosen(nodes, k - 1, interactive)
  }

  predicate OfKindInOrder(nodes: seq<Node>, c: seq<nat>, interactive: bool) {
    && (forall p :: 0 <= p < |c| ==> c[p] < |nodes| && Emittable(nodes[c[p]]) && Interactive(nodes[c[p]]) == interactive)
    && (forall p, q :: 0 <= p < q < |c| ==> c[p] < c[q])
  }

  lemma {:induction false} ChosenOrdered(nodes: seq<Node>, k: nat, interactive: bool)
    requires k <= |nodes|
    ensures OfKindInOrder(nodes, Chosen(nodes, k, interactive), interactive)
  {
    if k > 0 {
      ChosenOrdered(nodes, k - 1, interactive);
      var before := Chosen(nodes, k - 1, interactive);
      assert Chosen(nodes, k, interactive) == before || Chosen(nodes, k, interactive) == before + [k - 1];
    }
  }

  lemma {:induction false} ChosenCovers(nodes: seq<Node>, k: nat, i: nat) returns (p: nat)
    requires i < k <= |nodes| && Emittable(nodes[i])
    ensures var c := Chosen(nodes, k, Interactive(nodes[i])); p < |c| && c[p] == i
  {
    if i == k - 1 {
      p := |Chosen(nodes, i, Interactive(nodes[i]))|;
    } else {
      p := ChosenCovers(nodes, k - 1, i);
    }
  }

  /** The elements are those of the chosen nodes, in that order. */
  ghost predicate Render(nodes: seq<Node>, rank: map<string, nat>, chosen: seq<nat>, els: seq<Element>)
    requires Acyclic(ById(nodes), rank)
  {
    && |els| == |chosen|
    && forall p :: 0 <= p < |els| ==> chosen[p] < |nodes| && els[p] == ElementOf(nodes, rank, chosen[p])
  }

  /** Every interactive node, then as long a prefix of the context nodes as fits in 300. */
  function Emitted(nodes: seq<Node>): (r: seq<nat>)
    ensures forall p :: 0 <= p < |r| ==> r[p] < |nodes|
  {
    var interactive := Chosen(nodes, |nodes|, true);
    interactive + Take(Chosen(nodes, |nodes|, false), if |interactive| < MAX_ELEMENTS then MAX_ELEMENTS - |interactive| else 0)
  }

  method IndexNodes(nodes: seq<Node>) returns (index: Index)
    ensures index == ById(nodes)
  {
    index := map[];
    for i := 0 to |nodes|
      invariant index == ById(nodes[..i])
    {
      index := index[nodes[i].id := nodes[i]];
      assert nodes[..i + 1][..i] == nodes[..i];
    }
    assert nodes[..|nodes|] == nodes;
  }

  /** The counters hold how many of the first k nodes are emittable under each key. */
  ghost predicate Counted(nodes: seq<Node>, k: nat, counts: map<string, nat>)
    requires k <= |nodes|
  {
    forall key :: (if key in counts then counts[key] else 0) == KeyCount(nodes, k, key)
  }

  lemma CountsOne(nodes: seq<Node>, k: nat, counts: map<string, nat>)
    requires k < |nodes| && Counted(nodes, k, counts)
    ensures var key := OrdinalKey(nodes[k]);
            if Emittable(nodes[k]) then Counted(nodes, k + 1, counts[key := KeyCount(nodes, k, key) + 1])
            else Counted(nodes, k + 1, counts)
  {
  }

  /** Both lists hold the elements of the first k nodes, by kind. */
  ghost predicate Collected(
      nodes: seq<Node>, rank: map<string, nat>, k: nat, interactiveEls: seq<Element>, contextEls: seq<Element>)
    requires k <= |nodes| && Acyclic(ById(nodes), rank)
  {
    && Render(nodes, rank, Chosen(nodes, k, true), interactiveEls)
    && Render(nodes, rank, Chosen(nodes, k, false), contextEls)
  }

  lemma {:induction false} RendersMore(nodes: seq<Node>, rank: map<string, nat>, chosen: seq<nat>, els: seq<Element>, i: nat, el: Element)
    requires Acyclic(ById(nodes), rank) && Render(nodes, rank, chosen, els)
    requires i < |nodes| && el == ElementOf(nodes, rank, i)
    ensures Render(nodes, rank, chosen + [i], els + [el])
  {
    forall p | 0 <= p < |els + [el]|
      ensures (chosen + [i])[p] < |nodes| && (els + [el])[p] == ElementOf(nodes, rank, (chosen + [i])[p])
    {
      assert p < |els| ==> (chosen + [i])[p] == chosen[p] && (els + [el])[p] == els[p];
    }
  }

  lemma ChoosesOne(nodes: seq<Node>, k: nat, interactive: bool)
    requires k < |nodes|
    ensures Chosen(nodes, k + 1, interactive) ==
            Chosen(nodes, k, interactive) +
            if Emittable(nodes[k]) && Interactive(nodes[k]) == interactive then [k] else []
  {
    assert Chosen(nodes, k, interactive) + [] == Chosen(nodes, k, interactive);
  }

  lemma {:induction false} CollectsOne(nodes: seq<Node>, rank: map<string, nat>, k: nat, interactiveEls: seq<Element>, contextEls: seq<Element>)
    requires k < |nodes| && Acyclic(ById(nodes), rank) && Collected(nodes, rank, k, interactiveEls, contextEls)
    ensures var el := ElementOf(nodes, rank, k);
            if !Emittable(nodes[k]) then Collected(nodes, rank, k + 1, interactiveEls, contextEls)
            else if Interactive(nodes[k]) then Collected(nodes, rank, k + 1, interactiveEls + [el], contextEls)
            else Collected(nodes, rank, k + 1, interactiveEls, contextEls + [el])
  {
    var el := ElementOf(nodes, rank, k);
    ChoosesOne(nodes, k, true);
    ChoosesOne(nodes, k, false);
    RendersMore(nodes, rank, Chosen(nodes, k, true), interactiveEls, k, el);
    RendersMore(nodes, rank, Chosen(nodes, k, false), contextEls, k, el);
  }

  method Collect(nodes: seq<Node>, ghost rank: map<string, nat>)
    returns (interactiveEls: seq<Element>, contextEls: seq<Element>)
    requires Acyclic(ById(nodes), rank)
    ensures Render(nodes, rank, Chosen(nodes, |nodes|, true), interactiveEls)
    ensures Render(nodes, rank, Chosen(nodes, |nodes|, false), contextEls)
  {
    var index := IndexNodes(nodes);
    var ordCount: map<string, nat> := map[];
    interactiveEls, contextEls := [], [];
    for i := 0 to |nodes|
      invariant Counted(nodes, i, ordCount)
      invariant Collected(nodes, rank, i, interactiveEls, contextEls)
    {
      var n := nodes[i];
      CountsOne(nodes, i, ordCount);
      CollectsOne(nodes, rank, i, interactiveEls, contextEls);
      if n.ignored || n.backend == 0 {
        continue;
      }
      var name := Truncate(n.name, NAME_RUNES);
      var interactive := n.role in INTERACTIVE_ROLES;
      if !interactive && name == "" {
        continue;
      }
      var key := n.parent + "|" + n.role + "|" + name;
      var ord := if key in ordCount then ordCount[key] else 0;
      ordCount := ordCount[key := ord + 1];
      var path := PathOf(index, rank, n);
      var el := Element(n.id, n.backend, n.role, name, interactive, path, ord);
      assert key == OrdinalKey(n) && el == ElementOf(nodes, rank, i);
      if interactive {
        interactiveEls := interactiveEls + [el];
      } else {
        contextEls := contextEls + [el];
      }
    }
  }

  method BuildElements(nodes: seq<Node>, ghost rank: map<string, nat>) returns (out: seq<Element>)
    requires Acyclic(ById(nodes), rank)
    ensures Render(nodes, rank, Emitted(nodes), out)
  {
    var interactiveEls, contextEls := Collect(nodes, rank);
    out := interactiveEls;
    var room := if |out| < MAX_ELEMENTS then MAX_ELEMENTS - |out| else 0;
    if room > 0 {
      if room > |contextEls| {
        room := |contextEls|;
      }
      out := out + contextEls[..room];
    }
  }

  // ---- What a reader may rely on ----

  /** Nothing appears twice, nothing else appears, and context is cut only to stay within 300. */
  lemma {:induction false} EmittedIsInteractiveFirst(nodes: seq<Node>)
    ensures var out := Emitted(nodes);
            var actionable := |Chosen(nodes, |nodes|, true)|;
            && (forall p :: 0 <= p < |out| ==> Emittable(nodes[out[p]]) && (Interactive(nodes[out[p]]) <==> p < actionable))
            && (forall p, q :: 0 <= p < q < actionable ==> out[p] < out[q])
            && (forall p, q :: actionable <= p < q < |out| ==> out[p] < out[q])
            && |out| == Max(actionable, Min(MAX_ELEMENTS, actionable + |Chosen(nodes, |nodes|, false)|))
  {
    ChosenOrdered(nodes, |nodes|, true);
    ChosenOrdered(nodes, |nodes|, false);
  }

  /** No actionable node is dropped. */
  lemma NoActionableNodeIsDropped(nodes: seq<Node>, i: nat)
    requires i < |nodes| && Emittable(nodes[i]) && Interactive(nodes[i])
    ensures i in Emitted(nodes)
  {
    var p := ChosenCovers(nodes, |nodes|, i);
    assert Emitted(nodes)[p] == i;
  }

  lemma EarlierComesFirst(nodes: seq<Node>, c: seq<nat>, p: nat, q: nat)
    requires OfKindInOrder(nodes, c, false) && p < |c| && q < |c| && c[p] < c[q]
    ensures p < q
  {
  }

  /** Where an emitted context node stands. */
  lemma EmittedContextAt(nodes: seq<Node>, j: nat) returns (q: nat)
    requires j in Emitted(nodes) && j < |nodes| && !Interactive(nodes[j])
    ensures |Chosen(nodes, |nodes|, true)| + q < |Emitted(nodes)|
    ensures q < |Chosen(nodes, |nodes|, false)| && Chosen(nodes, |nodes|, false)[q] == j
  {
    ChosenOrdered(nodes, |nodes|, true);
    var actionable := Chosen(nodes, |nodes|, true);
    var at :| 0 <= at < |Emitted(nodes)| && Emitted(nodes)[at] == j;
    assert forall p :: 0 <= p < |actionable| ==> Emitted(nodes)[p] == actionable[p];
    q := at - |actionable|;
  }

  /** Where a context node stands among the emitted ones, if its position is. */
  lemma {:induction false} ContextPosition(nodes: seq<Node>, p: nat)
    requires p < |Chosen(nodes, |nodes|, false)|
    requires |Chosen(nodes, |nodes|, true)| + p < |Emitted(nodes)|
    ensures Chosen(nodes, |nodes|, false)[p] in Emitted(nodes)
  {
    var at := |Chosen(nodes, |nodes|, true)| + p;
    assert Emitted(nodes)[at] == Chosen(nodes, |nodes|, false)[p];
  }

  /** A context node is left out only when the earlier ones fill the room. */
  lemma DroppedContextComesLast(nodes: seq<Node>, i: nat, j: nat)
    requires i < j < |nodes| && !Interactive(nodes[i]) && !Interactive(nodes[j])
    requires Emittable(nodes[i]) && j in Emitted(nodes)
    ensures i in Emitted(nodes)
  {
    var q := EmittedContextAt(nodes, j);
    var p := ChosenCovers(nodes, |nodes|, i);
    ChosenOrdered(nodes, |nodes|, false);
    EarlierComesFirst(nodes, Chosen(nodes, |nodes|, false), p, q);
    ContextPosition(nodes, p);
  }

  function Max(a: nat, b: nat): nat {
    if a < b then b else a
  }

  function Min(a: nat, b: nat): nat {
    if a < b then a else b
  }

  lemma {:induction false} KeyCountGrows(nodes: seq<Node>, i: nat, j: nat)
    requires i < j <= |nodes| && Emittable(nodes[i])
    ensures KeyCount(nodes, i, OrdinalKey(nodes[i])) < KeyCount(nodes, j, OrdinalKey(nodes[i]))
  {
    if i < j - 1 {
      KeyCountGrows(nodes, i, j - 1);
    }
  }

  /**
   * No two collected elements share parent, role, truncated name and ordinal, even though
   * different triples may share a counter key; and among equals the ordinals follow tree order.
   */
  lemma {:induction false} OrdinalsTellApart(nodes: seq<Node>, rank: map<string, nat>, i: nat, j: nat)
    requires i < j < |nodes| && Acyclic(ById(nodes), rank) && Emittable(nodes[i]) && Emittable(nodes[j])
    requires nodes[i].parent == nodes[j].parent && nodes[i].role == nodes[j].role && Name(nodes[i]) == Name(nodes[j])
    ensures ElementOf(nodes, rank, i).ordinal < ElementOf(nodes, rank, j).ordinal
  {
    KeyCountGrows(nodes, i, j);
  }

  /** Keys do collide: these two nodes have different parents and roles. */
  lemma KeysCanCollide()
    ensures exists a: Node, b: Node :: a.parent != b.parent && a.role != b.role && OrdinalKey(a) == OrdinalKey(b)
  {
    var a := Node("1", false, "c", "", 1, "a|b");
    var b := Node("2", false, "b|c", "", 2, "a");
    assert OrdinalKey(a) == "a|b|c|";
    assert OrdinalKey(b) == "a|b|c|";
  }

  /** Rising places of meaningful nodes. */
  predicate Places(nodes: seq<Node>, at: seq<nat>) {
    && (forall d :: 0 <= d < |at| ==> at[d] < |nodes| && Meaningful(nodes[at[d]]))
    && (forall d, e :: 0 <= d < e < |at| ==> at[d] < at[e])
  }

  /** Where the meaningful nodes from k on stand. */
  function MeaningfulFrom(nodes: seq<Node>, k: nat): seq<nat>
    requires k <= |nodes|
    decreases |nodes| - k
  {
    if k == |nodes| then [] else (if Meaningful(nodes[k]) then [k] else []) + MeaningfulFrom(nodes, k + 1)
  }

  lemma {:induction false} MeaningfulAt(nodes: seq<Node>, k: nat, d: nat)
    requires k <= |nodes| && d < |MeaningfulFrom(nodes, k)|
    ensures k <= MeaningfulFrom(nodes, k)[d] < |nodes| && Meaningful(nodes[MeaningfulFrom(nodes, k)[d]])
    decreases |nodes| - k
  {
    if !Meaningful(nodes[k]) {
      MeaningfulAt(nodes, k + 1, d);
    } else if d > 0 {
      MeaningfulAt(nodes, k + 1, d - 1);
    }
  }

  lemma {:induction false} MeaningfulOrder(nodes: seq<Node>, k: nat, d: nat, e: nat)
    requires k <= |nodes| && d < e < |MeaningfulFrom(nodes, k)|
    ensures MeaningfulFrom(nodes, k)[d] < MeaningfulFrom(nodes, k)[e]
    decreases |nodes| - k
  {
    if !Meaningful(nodes[k]) {
      MeaningfulOrder(nodes, k + 1, d, e);
    } else if d > 0 {
      MeaningfulOrder(nodes, k + 1, d - 1, e - 1);
    } else {
      MeaningfulAt(nodes, k + 1, e - 1);
    }
  }

  lemma {:induction false} MeaningfulRises(nodes: seq<Node>)
    ensures Places(nodes, MeaningfulFrom(nodes, 0))
  {
    var at := MeaningfulFrom(nodes, 0);
    forall d | 0 <= d < |at| ensures at[d] < |nodes| && Meaningful(nodes[at[d]]) {
      MeaningfulAt(nodes, 0, d);
    }
    forall d, e | 0 <= d < e < |at| ensures at[d] < at[e] {
      MeaningfulOrder(nodes, 0, d, e);
    }
  }

  lemma {:induction false} MeaningfulCovers(nodes: seq<Node>, k: nat, i: nat)
    requires k <= i < |nodes| && Meaningful(nodes[i])
    ensures i in MeaningfulFrom(nodes, k)
    decreases |nodes| - k
  {
    if k < i {
      MeaningfulCovers(nodes, k + 1, i);
    }
  }

  lemma {:induction false} SegmentAt(nodes: seq<Node>, k: nat, d: nat)
    requires k <= |nodes| && d < |MeaningfulFrom(nodes, k)| && MeaningfulFrom(nodes, k)[d] < |nodes|
    ensures d < |MeaningfulSegments(nodes[k..])|
    ensures MeaningfulSegments(nodes[k..])[d] == SegmentOf(nodes[MeaningfulFrom(nodes, k)[d]])
    decreases |nodes| - k
  {
    assert nodes[k..][1..] == nodes[k + 1..];
    if !Meaningful(nodes[k]) {
      SegmentAt(nodes, k + 1, d);
    } else if d > 0 {
      SegmentAt(nodes, k + 1, d - 1);
    }
  }

  lemma {:induction false} AsManySegments(nodes: seq<Node>, k: nat)
    requires k <= |nodes|
    ensures |MeaningfulSegments(nodes[k..])| == |MeaningfulFrom(nodes, k)|
    decreases |nodes| - k
  {
    if k < |nodes| {
      assert nodes[k..][1..] == nodes[k + 1..];
      AsManySegments(nodes, k + 1);
    }
  }

  /** The places reach every meaningful node, or n of them do and the rest lie beyond. */
  predicate Reaches(nodes: seq<Node>, at: seq<nat>, n: nat) {
    forall i: nat :: i < |nodes| && Meaningful(nodes[i]) ==> i in at || (|at| == n && 0 < n && at[n - 1] < i)
  }

  lemma {:induction false} TakenReaches(nodes: seq<Node>, n: nat, i: nat)
    requires 0 < n && i < |nodes| && Meaningful(nodes[i])
    ensures var at := Take(MeaningfulFrom(nodes, 0), n); i in at || (|at| == n && at[n - 1] < i)
  {
    var all := MeaningfulFrom(nodes, 0);
    MeaningfulCovers(nodes, 0, i);
    var d: nat :| d < |all| && all[d] == i;
    if d < n {
      assert Take(all, n)[d] == i;
    } else {
      MeaningfulOrder(nodes, 0, n - 1, d);
    }
  }

  lemma {:induction false} TakenPlaces(nodes: seq<Node>, n: nat)
    requires 0 < n
    ensures var at := Take(MeaningfulFrom(nodes, 0), n); Places(nodes, at) && Reaches(nodes, at, n)
  {
    MeaningfulRises(nodes);
    var at := Take(MeaningfulFrom(nodes, 0), n);
    forall i: nat | i < |nodes| && Meaningful(nodes[i]) ensures i in at || (|at| == n && at[n - 1] < i) {
      TakenReaches(nodes, n, i);
    }
  }

  lemma {:induction false} PathAt(index: Index, rank: map<string, nat>, parent: string, d: nat)
    requires Acyclic(index, rank)
    requires d < |Take(MeaningfulFrom(Ancestors(index, rank, parent), 0), MAX_PATH_DEPTH)|
    ensures var path, ancestors := Path(index, rank, parent), Ancestors(index, rank, parent);
            && |path| == |Take(MeaningfulFrom(ancestors, 0), MAX_PATH_DEPTH)|
            && MeaningfulFrom(ancestors, 0)[d] < |ancestors|
            && path[|path| - 1 - d] == SegmentOf(ancestors[MeaningfulFrom(ancestors, 0)[d]])
  {
    var ancestors := Ancestors(index, rank, parent);
    assert ancestors[0..] == ancestors;
    AsManySegments(ancestors, 0);
    MeaningfulAt(ancestors, 0, d);
    SegmentAt(ancestors, 0, d);
  }

  /**
   * A path lists the nearest at most six meaningful ancestors, root first: the one d places from its
   * end belongs to the ancestor at[d], and a meaningful ancestor left out lies beyond the sixth.
   */
  lemma PathIsNearestSix(index: Index, rank: map<string, nat>, parent: string) returns (at: seq<nat>)
    requires Acyclic(index, rank)
    ensures var path, ancestors := Path(index, rank, parent), Ancestors(index, rank, parent);
            && |at| == |path| <= MAX_PATH_DEPTH
            && Places(ancestors, at) && Reaches(ancestors, at, MAX_PATH_DEPTH)
            && forall d :: 0 <= d < |at| ==> path[|path| - 1 - d] == SegmentOf(ancestors[at[d]])
  {
    var ancestors := Ancestors(index, rank, parent);
    at := Take(MeaningfulFrom(ancestors, 0), MAX_PATH_DEPTH);
    TakenPlaces(ancestors, MAX_PATH_DEPTH);
    AsManySegments(ancestors, 0);
    assert ancestors[0..] == ancestors;
    forall d | 0 <= d < |at|
      ensures Path(index, rank, parent)[|at| - 1 - d] == SegmentOf(ancestors[at[d]])
    {
      PathAt(index, rank, parent, d);
    }
  }
}
