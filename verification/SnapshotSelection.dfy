/**
 * Which elements formatBrowserSnapshot of sidecar/browser_snapshot.go lists, in what order, and how
 * many it reports hidden. An absent attribute reads as the empty string.
 */
module SnapshotSelection {
  datatype Element = Element(id: int, tag: string, role: string, ariaLabel: string, editable: string)

  const MAX_ELEMENTS: nat := 80
  const MAX_SAME_ROLE: nat := 15

  predicate HighValue(e: Element) {
    e.tag in {"input", "textarea", "select", "button"} || e.editable == "true" || e.role == "textbox"
  }

  function RoleOf(e: Element): string {
    if e.role == "" then e.tag else e.role
  }

  /** How many of the first k elements carry this aria-label. */
  function LabelCount(els: seq<Element>, k: nat, name: string): nat
    requires k <= |els|
  {
    if k == 0 then 0 else LabelCount(els, k - 1, name) + if els[k - 1].ariaLabel == name then 1 else 0
  }

  predicate UniqueLabel(els: seq<Element>, e: Element) {
    e.ariaLabel != "" && LabelCount(els, |els|, e.ariaLabel) == 1
  }

  predicate Priority(els: seq<Element>, e: Element) {
    HighValue(e) || UniqueLabel(els, e)
  }

  /** How many of the first k elements are ordinary ones of this role. */
  function Ordinary(els: seq<Element>, k: nat, role: string): nat
    requires k <= |els|
  {
    if k == 0 then 0
    else Ordinary(els, k - 1, role) + if !Priority(els, els[k - 1]) && RoleOf(els[k - 1]) == role then 1 else 0
  }

  /** Shown at once: it has priority, or fewer than 15 ordinary elements of its role come before it. */
  predicate FirstPass(els: seq<Element>, i: nat)
    requires i < |els|
  {
    Priority(els, els[i]) || Ordinary(els, i, RoleOf(els[i])) < MAX_SAME_ROLE
  }

  function FirstCount(els: seq<Element>, k: nat): (r: nat)
    requires k <= |els|
    ensures r <= k
  {
    if k == 0 then 0 else FirstCount(els, k - 1) + if FirstPass(els, k - 1) then 1 else 0
  }

  /** Kept: shown at once, or among the first deferred elements that fill the list up to 80. */
  predicate Kept(els: seq<Element>, i: nat)
    requires i < |els|
  {
    FirstPass(els, i) || FirstCount(els, |els|) + (i - FirstCount(els, i)) < MAX_ELEMENTS
  }

  function KeptAmong(els: seq<Element>, k: nat): seq<Element>
    requires k <= |els|
  {
    if k == 0 then [] else KeptAmong(els, k - 1) + if Kept(els, k - 1) then [els[k - 1]] else []
  }

  /** The list shown: the kept elements in page order. */
  function Shown(els: seq<Element>): seq<Element> {
    KeptAmong(els, |els|)
  }

  /** The snapshot script numbers elements 1, 2, 3, ... in page order. */
  predicate Increasing(els: seq<Element>) {
    forall i, j :: 0 <= i < j < |els| ==> els[i].id < els[j].id
  }

  // ---- Sorting by id ----

  predicate DistinctIds(els: seq<Element>) {
    forall i, j :: 0 <= i < j < |els| ==> els[i].id != els[j].id
  }

  lemma InsertKeepsOrder(s: seq<Element>, at: nat, e: Element)
    requires Increasing(s) && at <= |s|
    requires forall i :: 0 <= i < at ==> s[i].id < e.id
    requires forall i :: at <= i < |s| ==> e.id < s[i].id
    ensures Increasing(s[..at] + [e] + s[at..])
  {
    var r := s[..at] + [e] + s[at..];
    forall i, j | 0 <= i < j < |r| ensures r[i].id < r[j].id {
      assert r[i] == if i < at then s[i] else if i == at then e else s[i - 1];
      assert r[j] == if j < at then s[j] else if j == at then e else s[j - 1];
    }
  }

  lemma InsertAddsOne(s: seq<Element>, at: nat, e: Element, x: Element)
    requires at <= |s|
    ensures x in s[..at] + [e] + s[at..] <==> x in s || x == e
  {
    assert s == s[..at] + s[at..];
  }

  method PlaceOf(sorted: seq<Element>, e: Element) returns (at: nat)
    requires Increasing(sorted) && forall i :: 0 <= i < |sorted| ==> sorted[i].id != e.id
    ensures at <= |sorted|
    ensures forall i :: 0 <= i < at ==> sorted[i].id < e.id
    ensures forall i :: at <= i < |sorted| ==> e.id < sorted[i].id
  {
    at := |sorted|;
    while at > 0 && e.id < sorted[at - 1].id
      invariant 0 <= at <= |sorted|
      invariant forall i :: at <= i < |sorted| ==> e.id < sorted[i].id
    {
      at := at - 1;
    }
  }

  method SortById(els: seq<Element>) returns (sorted: seq<Element>)
    requires DistinctIds(els)
    ensures Increasing(sorted) && |sorted| == |els|
    ensures forall x :: x in sorted <==> x in els
  {
    sorted := [];
    for k := 0 to |els|
      invariant Increasing(sorted) && |sorted| == k
      invariant forall x :: x in sorted <==> x in els[..k]
    {
      forall i | 0 <= i < |sorted| ensures sorted[i].id != els[k].id {
        assert sorted[i] in els[..k];
      }
      var at := PlaceOf(sorted, els[k]);
      InsertKeepsOrder(sorted, at, els[k]);
      forall x ensures x in sorted[..at] + [els[k]] + sorted[at..] <==> x in els[..k + 1] {
        InsertAddsOne(sorted, at, els[k], x);
        assert els[..k + 1] == els[..k] + [els[k]];
      }
      sorted := sorted[..at] + [els[k]] + sorted[at..];
    }
    assert els[..|els|] == els;
  }

  lemma LastIsLargest(a: seq<Element>, e: Element)
    requires Increasing(a) && a != [] && e in a
    ensures e.id <= a[|a| - 1].id && (e.id == a[|a| - 1].id ==> e == a[|a| - 1])
  {
    var i :| 0 <= i < |a| && a[i] == e;
  }

  lemma WithoutLast(a: seq<Element>, e: Element)
    requires Increasing(a) && a != []
    ensures e in a[..|a| - 1] <==> e in a && e != a[|a| - 1]
  {
    assert a == a[..|a| - 1] + [a[|a| - 1]];
    if e in a[..|a| - 1] {
      var i :| 0 <= i < |a| - 1 && a[i] == e;
    }
  }

  /** A list in id order is determined by what it contains. */
  lemma {:induction false} SortedIsUnique(a: seq<Element>, b: seq<Element>)
    requires Increasing(a) && Increasing(b) && |a| == |b| && forall e :: e in a <==> e in b
    ensures a == b
  {
    if a != [] {
      var x, y := a[|a| - 1], b[|b| - 1];
      assert x in b && y in a;
      LastIsLargest(a, y);
      LastIsLargest(b, x);
      var a1, b1 := a[..|a| - 1], b[..|b| - 1];
      forall e ensures e in a1 <==> e in b1 {
        WithoutLast(a, e);
        WithoutLast(b, e);
      }
      SortedIsUnique(a1, b1);
      assert a == a1 + [x] && b == b1 + [y];
    }
  }

  // ---- The two passes ----

  function FirstAmong(els: seq<Element>, k: nat): seq<Element>
    requires k <= |els|
  {
    if k == 0 then [] else FirstAmong(els, k - 1) + if FirstPass(els, k - 1) then [els[k - 1]] else []
  }

  function DeferredAmong(els: seq<Element>, k: nat): seq<Element>
    requires k <= |els|
  {
    if k == 0 then [] else DeferredAmong(els, k - 1) + if FirstPass(els, k - 1) then [] else [els[k - 1]]
  }

  lemma {:induction false} PassLengths(els: seq<Element>, k: nat)
    requires k <= |els|
    ensures |FirstAmong(els, k)| == FirstCount(els, k) && |DeferredAmong(els, k)| == k - FirstCount(els, k)
  {
    if k > 0 {
      PassLengths(els, k - 1);
    }
  }

  /** Each element lies in one of the passes, at the place counted by its own kind before it. */
  lemma {:induction false} PlaceInPass(els: seq<Element>, k: nat, i: nat)
    requires i < k <= |els|
    ensures FirstPass(els, i) ==>
              FirstCount(els, i) < |FirstAmong(els, k)| && FirstAmong(els, k)[FirstCount(els, i)] == els[i]
    ensures !FirstPass(els, i) ==>
              i - FirstCount(els, i) < |DeferredAmong(els, k)| && DeferredAmong(els, k)[i - FirstCount(els, i)] == els[i]
  {
    if i < k - 1 {
      PlaceInPass(els, k - 1, i);
    } else {
      PassLengths(els, i);
    }
  }

  lemma {:induction false} FromFirst(els: seq<Element>, k: nat, p: nat) returns (i: nat)
    requires k <= |els| && p < |FirstAmong(els, k)|
    ensures i < k && FirstPass(els, i) && p == FirstCount(els, i) && FirstAmong(els, k)[p] == els[i]
  {
    PassLengths(els, k - 1);
    if p < |FirstAmong(els, k - 1)| {
      i := FromFirst(els, k - 1, p);
    } else {
      i := k - 1;
    }
  }

  lemma {:induction false} FromDeferred(els: seq<Element>, k: nat, p: nat) returns (i: nat)
    requires k <= |els| && p < |DeferredAmong(els, k)|
    ensures i < k && !FirstPass(els, i) && p == i - FirstCount(els, i) && DeferredAmong(els, k)[p] == els[i]
  {
    PassLengths(els, k - 1);
    if p < |DeferredAmong(els, k - 1)| {
      i := FromDeferred(els, k - 1, p);
    } else {
      i := k - 1;
    }
  }

  function Budget(els: seq<Element>): nat {
    if FirstCount(els, |els|) < MAX_ELEMENTS then MAX_ELEMENTS - FirstCount(els, |els|) else 0
  }

  function Take(s: seq<Element>, n: nat): seq<Element> {
    if n < |s| then s[..n] else s
  }

  /** What is listed, before sorting. */
  function Listed(els: seq<Element>): seq<Element> {
    FirstAmong(els, |els|) + Take(DeferredAmong(els, |els|), Budget(els))
  }

  lemma FromListed(els: seq<Element>, p: nat) returns (i: nat)
    requires p < |Listed(els)|
    ensures i < |els| && Kept(els, i) && Listed(els)[p] == els[i]
    ensures p == if FirstPass(els, i) then FirstCount(els, i) else FirstCount(els, |els|) + (i - FirstCount(els, i))
  {
    PassLengths(els, |els|);
    if p < FirstCount(els, |els|) {
      i := FromFirst(els, |els|, p);
    } else {
      i := FromDeferred(els, |els|, p - FirstCount(els, |els|));
    }
  }

  lemma KeptIsListed(els: seq<Element>, i: nat)
    requires i < |els| && Kept(els, i)
    ensures els[i] in Listed(els)
  {
    PassLengths(els, |els|);
    PlaceInPass(els, |els|, i);
    var p := if FirstPass(els, i) then FirstCount(els, i) else FirstCount(els, |els|) + (i - FirstCount(els, i));
    assert Listed(els)[p] == els[i];
  }

  lemma ListedIdsDiffer(els: seq<Element>)
    requires Increasing(els)
    ensures DistinctIds(Listed(els))
  {
    forall p, q | 0 <= p < q < |Listed(els)| ensures Listed(els)[p].id != Listed(els)[q].id {
      var i := FromListed(els, p);
      var j := FromListed(els, q);
      assert i != j;
    }
  }

  method CountLabels(els: seq<Element>) returns (freq: map<string, nat>)
    ensures forall name :: name != "" ==> (if name in freq then freq[name] else 0) == LabelCount(els, |els|, name)
  {
    freq := map[];
    for k := 0 to |els|
      invariant forall name | name != "" :: (if name in freq then freq[name] else 0) == LabelCount(els, k, name)
    {
      var name := els[k].ariaLabel;
      if name != "" {
        freq := freq[name := (if name in freq then freq[name] else 0) + 1];
      }
    }
  }

  method TwoPasses(els: seq<Element>) returns (shown: seq<Element>, deferred: seq<Element>)
    ensures shown == FirstAmong(els, |els|) && deferred == DeferredAmong(els, |els|)
  {
    var labelFreq := CountLabels(els);
    var roleCounts: map<string, nat> := map[];
    shown, deferred := [], [];
    for k := 0 to |els|
      invariant shown == FirstAmong(els, k) && deferred == DeferredAmong(els, k)
      invariant forall role :: Counted(roleCounts, role) == Smaller(Ordinary(els, k, role), MAX_SAME_ROLE)
    {
      var el := els[k];
      var role := RoleOf(el);
      var hasUniqueLabel := el.ariaLabel != "" && el.ariaLabel in labelFreq && labelFreq[el.ariaLabel] == 1;
      assert hasUniqueLabel <==> UniqueLabel(els, el);
      var count := if role in roleCounts then roleCounts[role] else 0;
      assert count == Counted(roleCounts, role);
      if HighValue(el) || hasUniqueLabel {
        shown := shown + [el];
      } else if count < MAX_SAME_ROLE {
        shown := shown + [el];
        roleCounts := roleCounts[role := count + 1];
      } else {
        deferred := deferred + [el];
      }
    }
  }

  function Counted(counts: map<string, nat>, key: string): nat {
    if key in counts then counts[key] else 0
  }

  function Smaller(a: nat, b: nat): nat {
    if a < b then a else b
  }

  /** The sorted list is the kept elements in page order. */
  lemma SortingGivesPageOrder(els: seq<Element>, sorted: seq<Element>)
    requires Increasing(els) && Increasing(sorted) && |sorted| == |Listed(els)|
    requires forall x :: x in sorted <==> x in Listed(els)
    ensures sorted == Shown(els)
  {
    var at := ShownIsSubsequence(els, |els|);
    forall x | x in sorted ensures x in Shown(els) {
      var p :| 0 <= p < |Listed(els)| && Listed(els)[p] == x;
      var i := FromListed(els, p);
      var q := KeptAmongContains(els, |els|, i);
    }
    forall x | x in Shown(els) ensures x in sorted {
      var p :| 0 <= p < |Shown(els)| && Shown(els)[p] == x;
      KeptIsListed(els, at[p]);
    }
    PassLengths(els, |els|);
    ShownLength(els, |els|);
    SortedIsUnique(sorted, Shown(els));
  }

  method Select(els: seq<Element>) returns (shown: seq<Element>, hidden: nat)
    requires Increasing(els)
    ensures shown == Shown(els)
    ensures hidden + |shown| == |els|
  {
    var first, deferred := TwoPasses(els);
    PassLengths(els, |els|);
    shown := first;
    var budget := MAX_ELEMENTS - |shown|;
    if budget > 0 {
      if budget > |deferred| {
        budget := |deferred|;
      }
      shown := shown + deferred[..budget];
    }
    assert shown == Listed(els);
    ListedIdsDiffer(els);
    shown := SortById(shown);
    SortingGivesPageOrder(els, shown);
    hidden := |els| - |shown|;
  }

  // ---- What a reader may rely on ----

  lemma {:induction false} ShownLength(els: seq<Element>, k: nat)
    requires k <= |els|
    ensures |KeptAmong(els, k)| == FirstCount(els, k) + Smaller(k - FirstCount(els, k), Budget(els))
  {
    if k > 0 {
      ShownLength(els, k - 1);
      var all, before := FirstCount(els, |els|), FirstCount(els, k - 1);
      assert Kept(els, k - 1) <==> FirstPass(els, k - 1) || all + (k - 1 - before) < MAX_ELEMENTS;
    }
  }

  lemma {:induction false} KeptAmongContains(els: seq<Element>, k: nat, i: nat) returns (p: nat)
    requires i < k <= |els| && Kept(els, i)
    ensures p < |KeptAmong(els, k)| && KeptAmong(els, k)[p] == els[i]
  {
    if i == k - 1 {
      p := |KeptAmong(els, k - 1)|;
    } else {
      p := KeptAmongContains(els, k - 1, i);
    }
  }

  /** Where each shown element comes from: positions rise, so the list is a subsequence of the page. */
  lemma {:induction false} ShownIsSubsequence(els: seq<Element>, k: nat) returns (at: seq<nat>)
    requires k <= |els|
    ensures |at| == |KeptAmong(els, k)|
    ensures forall p :: 0 <= p < |at| ==> at[p] < k && Kept(els, at[p]) && KeptAmong(els, k)[p] == els[at[p]]
    ensures forall p, q :: 0 <= p < q < |at| ==> at[p] < at[q]
  {
    at := [];
    if k > 0 {
      var before := ShownIsSubsequence(els, k - 1);
      var kept := KeptAmong(els, k - 1);
      if Kept(els, k - 1) {
        at := before + [k - 1];
        assert KeptAmong(els, k) == kept + [els[k - 1]];
      } else {
        at := before;
        assert KeptAmong(els, k) == kept;
      }
    }
  }

  /** Every input, button, textbox and uniquely labelled element is shown, however long the page. */
  lemma PriorityIsAlwaysShown(els: seq<Element>, i: nat)
    requires i < |els| && Priority(els, els[i])
    ensures els[i] in Shown(els)
  {
    var p := KeptAmongContains(els, |els|, i);
    assert Shown(els)[p] == els[i];
  }

  /** The list is as long as the first pass made it, or filled up to 80, and no longer. */
  lemma {:induction false} ShownSize(els: seq<Element>)
    ensures var filled := Smaller(MAX_ELEMENTS, |els|);
            |Shown(els)| == if FirstCount(els, |els|) > filled then FirstCount(els, |els|) else filled
  {
    ShownLength(els, |els|);
  }

  /** Hence nothing at all is hidden from a page of at most 80 elements. */
  lemma {:induction false} SmallPageIsShownWhole(els: seq<Element>, k: nat)
    requires k <= |els| <= MAX_ELEMENTS
    ensures KeptAmong(els, k) == els[..k]
  {
    if k > 0 {
      SmallPageIsShownWhole(els, k - 1);
      FirstCountGap(els, k - 1, |els|);
      assert els[..k] == els[..k - 1] + [els[k - 1]];
    }
  }

  lemma {:induction false} FirstCountGap(els: seq<Element>, i: nat, j: nat)
    requires i <= j <= |els|
    ensures FirstCount(els, j) - FirstCount(els, i) <= j - i
    ensures i < j && !FirstPass(els, i) ==> FirstCount(els, j) - FirstCount(els, i) < j - i
  {
    if i < j {
      FirstCountGap(els, i, j - 1);
    }
  }

  // ---- "All inputs, buttons, and textboxes are shown above" ----

  /** The list of key elements prints these as buttons. */
  predicate IsButton(e: Element) {
    e.tag == "button" || e.role == "button"
  }

  predicate OrdinaryButton(els: seq<Element>, e: Element) {
    !Priority(els, e) && RoleOf(e) == "button"
  }

  /** Where the last ordinary button among the first k elements stands, if there is one. */
  function LastButton(els: seq<Element>, k: nat): (last: nat)
    requires k <= |els|
    ensures last <= k
  {
    if k == 0 then 0 else if OrdinaryButton(els, els[k - 1]) then k - 1 else LastButton(els, k - 1)
  }

  /** An element is in the list exactly if it is kept. */
  lemma ShownIsKept(els: seq<Element>, i: nat)
    requires Increasing(els) && i < |els|
    ensures els[i] in Shown(els) <==> Kept(els, i)
  {
    if els[i] in Shown(els) {
      var at := ShownIsSubsequence(els, |els|);
      var p :| 0 <= p < |Shown(els)| && Shown(els)[p] == els[i];
      assert at[p] == i;
    }
    if Kept(els, i) {
      var p := KeptAmongContains(els, |els|, i);
      assert Shown(els)[p] == els[i];
    }
  }

  lemma {:induction false} LastButtonIsLast(els: seq<Element>, k: nat, i: nat)
    requires i < k <= |els| && OrdinaryButton(els, els[i])
    ensures i <= LastButton(els, k) < k && OrdinaryButton(els, els[LastButton(els, k)])
  {
    if !OrdinaryButton(els, els[k - 1]) {
      LastButtonIsLast(els, k - 1, i);
    }
  }

  lemma {:induction false} OrdinaryGrows(els: seq<Element>, i: nat, k: nat, role: string)
    requires i <= k <= |els|
    ensures Ordinary(els, i, role) <= Ordinary(els, k, role)
    ensures i < k && !Priority(els, els[i]) && RoleOf(els[i]) == role ==> Ordinary(els, i, role) < Ordinary(els, k, role)
  {
    if i < k {
      OrdinaryGrows(els, i, k - 1, role);
    }
  }

  /** The last ordinary button is counted last. */
  lemma {:induction false} BeforeLastButton(els: seq<Element>, k: nat)
    requires k <= |els| && Ordinary(els, k, "button") > 0
    ensures LastButton(els, k) < k && OrdinaryButton(els, els[LastButton(els, k)])
    ensures Ordinary(els, LastButton(els, k), "button") + 1 == Ordinary(els, k, "button")
  {
    if !OrdinaryButton(els, els[k - 1]) {
      BeforeLastButton(els, k - 1);
    }
  }

  ghost predicate AllButtonsShown(els: seq<Element>) {
    forall i :: 0 <= i < |els| && IsButton(els[i]) ==> els[i] in Shown(els)
  }

  /** The condition under which the sentence is true. */
  predicate RoomForButtons(els: seq<Element>) {
    var last := LastButton(els, |els|);
    || Ordinary(els, |els|, "button") <= MAX_SAME_ROLE
    || FirstCount(els, |els|) + (last - FirstCount(els, last)) < MAX_ELEMENTS
  }

  lemma ButtonWithRoom(els: seq<Element>, i: nat)
    requires i < |els| && IsButton(els[i]) && RoomForButtons(els)
    ensures Kept(els, i)
  {
    if !FirstPass(els, i) {
      var last := LastButton(els, |els|);
      LastButtonIsLast(els, |els|, i);
      OrdinaryGrows(els, i, |els|, "button");
      FirstCountGap(els, i, last);
    }
  }

  /**
   * Every button is shown if and only if there are at most fifteen ordinary ones, that is, elements
   * with the role but neither the tag nor a label of their own, or the elements shown at once and
   * those deferred before the last ordinary button leave it a place among the eighty.
   */
  lemma ButtonsShownExactly(els: seq<Element>)
    requires Increasing(els)
    ensures AllButtonsShown(els) <==> RoomForButtons(els)
  {
    if RoomForButtons(els) {
      forall i | 0 <= i < |els| && IsButton(els[i]) ensures els[i] in Shown(els) {
        ButtonWithRoom(els, i);
        ShownIsKept(els, i);
      }
    } else {
      BeforeLastButton(els, |els|);
      ShownIsKept(els, LastButton(els, |els|));
    }
  }

  /** A page of n elements that are buttons by role only, all with the same label. */
  function ButtonsByRole(n: nat): (els: seq<Element>)
    ensures |els| == n && Increasing(els)
    ensures forall i :: 0 <= i < n ==> els[i] == Element(i + 1, "div", "button", "Delete", "")
  {
    seq(n, i => Element(i + 1, "div", "button", "Delete", ""))
  }

  lemma {:induction false} SameLabels(n: nat, k: nat)
    requires k <= n
    ensures LabelCount(ButtonsByRole(n), k, "Delete") == k
  {
    if k > 0 {
      SameLabels(n, k - 1);
    }
  }

  lemma {:induction false} FirstFifteen(n: nat, k: nat)
    requires k <= n && n > 1
    ensures var els := ButtonsByRole(n);
            Ordinary(els, k, "button") == k && FirstCount(els, k) == Smaller(k, MAX_SAME_ROLE)
  {
    SameLabels(n, n);
    if k > 0 {
      FirstFifteen(n, k - 1);
    }
  }

  /** A page with a hidden element and the sentence under its list, and yet a button is not in it. */
  lemma ButtonCanBeHidden()
    ensures exists els: seq<Element> ::
              Increasing(els) && |Shown(els)| < |els| && !AllButtonsShown(els)
  {
    var n: nat := MAX_ELEMENTS + 1;
    var els := ButtonsByRole(n);
    SameLabels(n, n);
    FirstFifteen(n, n);
    FirstFifteen(n, n - 1);
    assert OrdinaryButton(els, els[n - 1]);
    ButtonsShownExactly(els);
    ShownSize(els);
  }
}
