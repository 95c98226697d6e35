/** Merging duplicates in the VOD library: titles that differ only in case become one entry,
    the best described one in front, the others as its alternates. */
module VodMerge {

  datatype Item = Item(id: string, name: string, url: string, group: string,
                       tmdbID: int, poster: string, overview: string, rating: real, year: string)
  datatype Alt = Alt(id: string, name: string, url: string, group: string)
  datatype Entry = Entry(item: Item, alternates: seq<Alt>)

  /** Lower-casing is left to the caller: everything here holds for any such function. */
  type Lower = string -> string

  function AltOf(x: Item): Alt {
    Alt(x.id, x.name, x.url, x.group)
  }

  function Score(x: Item): nat {
    (if x.tmdbID > 0 then 10 else 0) + (if x.poster != "" then 5 else 0) + (if x.overview != "" then 3 else 0)
    + (if x.rating > 0.0 then 2 else 0) + (if x.year != "" then 1 else 0)
  }

  /** scoreItem, which adds up as it goes. */
  method ScoreItem(x: Item) returns (score: nat)
    ensures score == Score(x)
  {
    score := 0;
    if x.tmdbID > 0 { score := score + 10; }
    if x.poster != "" { score := score + 5; }
    if x.overview != "" { score := score + 3; }
    if x.rating > 0.0 { score := score + 2; }
    if x.year != "" { score := score + 1; }
  }

  function Weight(known: bool, weight: nat): nat {
    if known then weight else 0
  }

  /** What the score of an item is made of, and what an alternate keeps of it. */
  lemma ItemValues(x: Item)
    ensures Score(x) == Weight(x.tmdbID > 0, 10) + Weight(x.poster != "", 5) + Weight(x.overview != "", 3)
                        + Weight(x.rating > 0.0, 2) + Weight(x.year != "", 1)
    ensures var a := AltOf(x); a.id == x.id && a.name == x.name && a.url == x.url && a.group == x.group
  {
  }

  /** One more item for an entry: the better one stays in front, the earlier one if they are equal. */
  function Absorb(e: Entry, x: Item): Entry {
    if Score(x) > Score(e.item) then Entry(x, e.alternates + [AltOf(e.item)])
    else Entry(e.item, e.alternates + [AltOf(x)])
  }

  // ----- The result, group by group -----

  /** The items with key k, in order. */
  function Group(items: seq<Item>, lower: Lower, k: string): seq<Item> {
    if items == [] then []
    else
      var front, last := Group(items[..|items| - 1], lower, k), items[|items| - 1];
      if lower(last.name) == k then front + [last] else front
  }

  /** The distinct keys in order of first appearance. */
  function Keys(items: seq<Item>, lower: Lower): seq<string> {
    if items == [] then []
    else
      var front, k := Keys(items[..|items| - 1], lower), lower(items[|items| - 1].name);
      if k in front then front else front + [k]
  }

  function MergeGroup(g: seq<Item>): Entry
    requires g != []
  {
    if |g| == 1 then Entry(g[0], []) else Absorb(MergeGroup(g[..|g| - 1]), g[|g| - 1])
  }

  /** The merged library: one entry for each key, in order, made of that key's items. */
  ghost predicate MergedByKey(items: seq<Item>, lower: Lower, merged: seq<Entry>) {
    var keys := Keys(items, lower);
    && |merged| == |keys|
    && forall i | 0 <= i < |keys| ::
         Group(items, lower, keys[i]) != [] && merged[i] == MergeGroup(Group(items, lower, keys[i]))
  }

  // ----- The loop -----

  /** The index of the loop: every key seen so far with its place in the list. */
  ghost predicate Indexed(keys: seq<string>, deduped: map<string, nat>) {
    && (forall k | k in deduped :: deduped[k] < |keys| && keys[deduped[k]] == k)
    && (forall i | 0 <= i < |keys| :: keys[i] in deduped && deduped[keys[i]] == i)
  }

  method Merge(items: seq<Item>, lower: Lower) returns (merged: seq<Entry>)
    ensures MergedByKey(items, lower, merged)
    ensures Contents(merged) == multiset(Alts(items))
  {
    var deduped: map<string, nat> := map[];
    merged := [];
    for n := 0 to |items|
      invariant MergedByKey(items[..n], lower, merged)
      invariant Indexed(Keys(items[..n], lower), deduped)
    {
      var x := items[n];
      var key := lower(x.name);
      ghost var before, after := items[..n], items[..n + 1];
      assert after[..n] == before && after[n] == x;
      MergeStep(before, after, lower, merged);
      if key in deduped {
        var idx := deduped[key];
        var best := ScoreItem(merged[idx].item);
        var mine := ScoreItem(x);
        var existing := merged[idx];
        if mine > best {
          merged := merged[idx := Entry(x, existing.alternates + [AltOf(existing.item)])];
        } else {
          merged := merged[idx := existing.(alternates := existing.alternates + [AltOf(x)])];
        }
      } else {
        deduped := deduped[key := |merged|];
        merged := merged + [Entry(x, [])];
      }
    }
    assert items[..|items|] == items;
    MergeMeans(items, lower, merged);
  }

  lemma {:induction false} KeysDistinct(items: seq<Item>, lower: Lower)
    ensures forall i, j | 0 <= i < j < |Keys(items, lower)| :: Keys(items, lower)[i] != Keys(items, lower)[j]
  {
    if items != [] {
      KeysDistinct(items[..|items| - 1], lower);
    }
  }

  /** The keys of the items, one by one. */
  function KeyList(items: seq<Item>, lower: Lower): seq<string> {
    seq(|items|, i requires 0 <= i < |items| => lower(items[i].name))
  }

  /** Each key together with its first place in the list; the places are in order. */
  ghost predicate InFirstOrder(at: seq<nat>, list: seq<string>, keys: seq<string>) {
    && |at| == |keys|
    && (forall i | 0 <= i < |at| :: at[i] < |list| && list[at[i]] == keys[i] && keys[i] !in list[..at[i]])
    && (forall i, j | 0 <= i < j < |at| :: at[i] < at[j])
    && (forall k | k in list :: k in keys)
  }

  lemma OneMoreKey(at: seq<nat>, list: seq<string>, keys: seq<string>, k: string)
    requires InFirstOrder(at, list, keys)
    ensures k in keys ==> InFirstOrder(at, list + [k], keys)
    ensures k !in keys ==> InFirstOrder(at + [|list|], list + [k], keys + [k])
  {
    var more := list + [k];
    forall i | 0 <= i < |at| ensures more[at[i]] == list[at[i]] && more[..at[i]] == list[..at[i]] {}
    assert more[..|list|] == list;
  }

  lemma {:induction false} KeysInOrder(items: seq<Item>, lower: Lower) returns (at: seq<nat>)
    ensures InFirstOrder(at, KeyList(items, lower), Keys(items, lower))
  {
    if items == [] {
      at := [];
    } else {
      var front, k := items[..|items| - 1], lower(items[|items| - 1].name);
      at := KeysInOrder(front, lower);
      OneMoreKey(at, KeyList(front, lower), Keys(front, lower), k);
      assert KeyList(items, lower) == KeyList(front, lower) + [k];
      if k !in Keys(front, lower) {
        at := at + [|front|];
      }
    }
  }

  /** A key is listed exactly if some item has it. */
  lemma {:induction false} KeyIffGroup(items: seq<Item>, lower: Lower, k: string)
    ensures k in Keys(items, lower) <==> Group(items, lower, k) != []
  {
    if items != [] {
      KeyIffGroup(items[..|items| - 1], lower, k);
    }
  }

  /** What one more item does to the merged list: its key's entry absorbs it, or it starts a new one. */
  lemma MergeStep(before: seq<Item>, after: seq<Item>, lower: Lower, merged: seq<Entry>)
    requires after != [] && after[..|after| - 1] == before && MergedByKey(before, lower, merged)
    ensures var x := after[|after| - 1];
            var keys, k := Keys(before, lower), lower(x.name);
            && (k !in keys ==> MergedByKey(after, lower, merged + [Entry(x, [])]))
            && (forall i | 0 <= i < |keys| && keys[i] == k :: MergedByKey(after, lower, merged[i := Absorb(merged[i], x)]))
  {
    var x := after[|after| - 1];
    var keys, k := Keys(before, lower), lower(x.name);
    KeysDistinct(before, lower);
    KeyIffGroup(before, lower, k);
    if k !in keys {
      var out := merged + [Entry(x, [])];
      assert Group(after, lower, k) == [x];
      forall j | 0 <= j < |keys| ensures Group(after, lower, keys[j]) == Group(before, lower, keys[j]) {}
    } else {
      forall i | 0 <= i < |keys| && keys[i] == k ensures MergedByKey(after, lower, merged[i := Absorb(merged[i], x)]) {
        var g := Group(before, lower, k);
        assert (g + [x])[..|g|] == g;
        forall j | 0 <= j < |keys| && j != i ensures Group(after, lower, keys[j]) == Group(before, lower, keys[j]) {
          assert keys[j] != k;
        }
      }
    }
  }

  // ----- What a merged list is worth -----

  function Scores(g: seq<Item>): seq<nat> {
    seq(|g|, i requires 0 <= i < |g| => Score(g[i]))
  }

  /** i is the earliest place of the highest score. */
  ghost predicate EarliestBest(scores: seq<nat>, i: nat) {
    && i < |scores|
    && (forall j | 0 <= j < |scores| :: scores[j] <= scores[i])
    && (forall j | 0 <= j < i :: scores[j] < scores[i])
  }

  lemma BestOneMore(scores: seq<nat>, s: nat, i: nat)
    requires EarliestBest(scores, i)
    ensures EarliestBest(scores + [s], if s > scores[i] then |scores| else i)
  {
  }

  /** The item in front of an entry is the earliest of maximal score in its group. */
  lemma {:induction false} PrimaryIsBest(g: seq<Item>) returns (i: nat)
    requires g != []
    ensures EarliestBest(Scores(g), i) && MergeGroup(g).item == g[i]
  {
    if |g| == 1 {
      i := 0;
    } else {
      var front, x := g[..|g| - 1], g[|g| - 1];
      i := PrimaryIsBest(front);
      BestOneMore(Scores(front), Score(x), i);
      assert Scores(g) == Scores(front) + [Score(x)];
      if Score(x) > Score(front[i]) {
        i := |g| - 1;
      }
    }
  }

  /** Alternate j is the worse one of item j + 1 and the best item before it. */
  ghost predicate IsAlternate(a: Alt, g: seq<Item>, j: nat)
    requires j + 1 < |g|
  {
    var best, x := MergeGroup(g[..j + 1]).item, g[j + 1];
    a == AltOf(if Score(x) > Score(best) then best else x)
  }

  lemma AlternateStays(a: Alt, g: seq<Item>, j: nat)
    requires j + 2 < |g| && IsAlternate(a, g[..|g| - 1], j)
    ensures IsAlternate(a, g, j)
  {
    assert g[..|g| - 1][..j + 1] == g[..j + 1];
  }

  /** The alternates of an entry: one for each item of the group after the first, in order. */
  lemma {:induction false} AlternatesInOrder(g: seq<Item>)
    requires g != []
    ensures |MergeGroup(g).alternates| == |g| - 1
    ensures forall j: nat | j < |g| - 1 :: IsAlternate(MergeGroup(g).alternates[j], g, j)
  {
    if |g| > 1 {
      var front := g[..|g| - 1];
      AlternatesInOrder(front);
      forall j: nat | j < |front| - 1 ensures IsAlternate(MergeGroup(g).alternates[j], g, j) {
        AlternateStays(MergeGroup(front).alternates[j], g, j);
      }
    }
  }

  function Alts(g: seq<Item>): seq<Alt> {
    seq(|g|, i requires 0 <= i < |g| => AltOf(g[i]))
  }

  lemma AltsOneMore(g: seq<Item>)
    requires g != []
    ensures multiset(Alts(g)) == multiset(Alts(g[..|g| - 1])) + multiset{AltOf(g[|g| - 1])}
  {
    assert Alts(g) == Alts(g[..|g| - 1]) + [AltOf(g[|g| - 1])];
  }

  /** Everything in an entry, and in a merged list. */
  function Holdings(e: Entry): multiset<Alt> {
    multiset{AltOf(e.item)} + multiset(e.alternates)
  }

  function Contents(merged: seq<Entry>): multiset<Alt> {
    if merged == [] then multiset{}
    else Contents(merged[..|merged| - 1]) + Holdings(merged[|merged| - 1])
  }

  lemma AbsorbKeeps(e: Entry, x: Item)
    ensures Holdings(Absorb(e, x)) == Holdings(e) + multiset{AltOf(x)}
  {
  }

  /** An entry holds each item of its group once, in front or as an alternate. */
  lemma {:induction false} GroupKept(g: seq<Item>)
    requires g != []
    ensures Holdings(MergeGroup(g)) == multiset(Alts(g))
  {
    if |g| == 1 {
      assert Alts(g) == [AltOf(g[0])];
    } else {
      var front, x := g[..|g| - 1], g[|g| - 1];
      GroupKept(front);
      AltsOneMore(g);
      AbsorbKeeps(MergeGroup(front), x);
    }
  }

  lemma ContentsOneMore(merged: seq<Entry>, e: Entry)
    ensures Contents(merged + [e]) == Contents(merged) + Holdings(e)
  {
    assert (merged + [e])[..|merged|] == merged;
  }

  lemma Swap(a: multiset<Alt>, b: multiset<Alt>, c: multiset<Alt>)
    ensures a + b + c == a + c + b && a + (b + c) == a + b + c
  {
  }

  lemma {:induction false} ContentsUpdate(merged: seq<Entry>, i: nat, e: Entry, a: Alt)
    requires i < |merged| && Holdings(e) == Holdings(merged[i]) + multiset{a}
    ensures Contents(merged[i := e]) == Contents(merged) + multiset{a}
    decreases |merged|
  {
    var front, last := merged[..|merged| - 1], merged[|merged| - 1];
    var out := merged[i := e];
    if i == |merged| - 1 {
      assert out[..|out| - 1] == front;
      Swap(Contents(front), Holdings(last), multiset{a});
    } else {
      assert out[..|out| - 1] == front[i := e];
      ContentsUpdate(front, i, e, a);
      Swap(Contents(front), Holdings(last), multiset{a});
    }
  }

  lemma MergedIsUnique(items: seq<Item>, lower: Lower, a: seq<Entry>, b: seq<Entry>)
    requires MergedByKey(items, lower, a) && MergedByKey(items, lower, b)
    ensures a == b
  {
  }

  lemma MergeStepKeeps(front: seq<Item>, items: seq<Item>, lower: Lower, m: seq<Entry>) returns (merged: seq<Entry>)
    requires items != [] && items[..|items| - 1] == front && MergedByKey(front, lower, m)
    ensures MergedByKey(items, lower, merged)
    ensures Contents(merged) == Contents(m) + multiset{AltOf(items[|items| - 1])}
  {
    var x := items[|items| - 1];
    var keys, k := Keys(front, lower), lower(x.name);
    MergeStep(front, items, lower, m);
    if k in keys {
      var i :| 0 <= i < |keys| && keys[i] == k;
      merged := m[i := Absorb(m[i], x)];
      AbsorbKeeps(m[i], x);
      ContentsUpdate(m, i, Absorb(m[i], x), AltOf(x));
    } else {
      merged := m + [Entry(x, [])];
      ContentsOneMore(m, Entry(x, []));
    }
  }

  /** Nothing is lost and nothing invented: over primaries and alternates together, every item's ID, name,
      URL and group appears as often as it came in. */
  lemma {:induction false} MergeKeepsAll(items: seq<Item>, lower: Lower) returns (merged: seq<Entry>)
    ensures MergedByKey(items, lower, merged)
    ensures Contents(merged) == multiset(Alts(items))
  {
    if items == [] {
      merged := [];
    } else {
      var front, x := items[..|items| - 1], items[|items| - 1];
      var m := MergeKeepsAll(front, lower);
      merged := MergeStepKeeps(front, items, lower, m);
      AltsOneMore(items);
    }
  }

  /** The merged library as a client sees it: one entry for each distinct key in order of first
      appearance, each primary the earliest best item of its key, and nothing lost. */
  lemma MergeMeans(items: seq<Item>, lower: Lower, merged: seq<Entry>)
    requires MergedByKey(items, lower, merged)
    ensures |merged| == |Keys(items, lower)|
    ensures forall i, j | 0 <= i < j < |merged| :: Keys(items, lower)[i] != Keys(items, lower)[j]
    ensures exists at :: InFirstOrder(at, KeyList(items, lower), Keys(items, lower))
    ensures forall k, x :: x in Group(items, lower, k) <==> x in items && lower(x.name) == k
    ensures forall i | 0 <= i < |merged| :: IsBestOf(merged[i].item, Group(items, lower, Keys(items, lower)[i]))
    ensures Contents(merged) == multiset(Alts(items))
  {
    var m := MergeKeepsAll(items, lower);
    MergedIsUnique(items, lower, m, merged);
    KeysDistinct(items, lower);
    var at := KeysInOrder(items, lower);
    forall k ensures forall x :: x in Group(items, lower, k) <==> x in items && lower(x.name) == k {
      GroupIsKey(items, lower, k);
    }
    forall i | 0 <= i < |merged| ensures IsBestOf(merged[i].item, Group(items, lower, Keys(items, lower)[i])) {
      BestOfGroup(Group(items, lower, Keys(items, lower)[i]));
    }
  }

  ghost predicate IsBestOf(x: Item, g: seq<Item>) {
    exists j: nat :: EarliestBest(Scores(g), j) && x == g[j]
  }

  lemma BestOfGroup(g: seq<Item>)
    requires g != []
    ensures IsBestOf(MergeGroup(g).item, g)
  {
    var j := PrimaryIsBest(g);
  }

  /** The items of a group all have its key, and every item is in the group of its key. */
  lemma {:induction false} GroupIsKey(items: seq<Item>, lower: Lower, k: string)
    ensures forall x | x in Group(items, lower, k) :: x in items && lower(x.name) == k
    ensures forall x | x in items && lower(x.name) == k :: x in Group(items, lower, k)
  {
    if items != [] {
      var front, last := items[..|items| - 1], items[|items| - 1];
      GroupIsKey(front, lower, k);
      assert items == front + [last];
    }
  }
}
