/** The WireGuard failover pool: every request tries the proxies in order of
    their failure counts, stops at the first one that answers, and keeps the
    counts up to date.  The direct connection takes part as an ordinary entry
    whose count starts high. */
module FailoverPool {
  import opened Basics

  /** What one proxy answers: a transport error, or a response with a status. */
  datatype Attempt = Error | Response(status: int)

  predicate Rejected(a: Attempt) {
    a.Error? || a.status == 403
  }

  /** Only a transport error and a 403 send a request on to the next entry. */
  lemma RejectedIff(a: Attempt)
    ensures Rejected(a) <==> a in {Error, Response(403)}
  {
  }

  // ----- The order in which entries are tried -----

  /** Entry a is tried before entry b: fewer failures, or as many and added earlier. */
  predicate Before(counts: seq<int>, a: nat, b: nat)
    requires a < |counts| && b < |counts|
  {
    counts[a] < counts[b] || (counts[a] == counts[b] && a < b)
  }

  /** `order` lists exactly the entries 0..n, in the order they are tried. */
  ghost predicate IsTryOrder(order: seq<nat>, counts: seq<int>, n: nat)
    requires n <= |counts|
  {
    && |order| == n
    && (forall k | 0 <= k < n :: order[k] < n)
    && (forall e | 0 <= e < n :: e in order)
    && (forall i, j | 0 <= i < j < n :: Before(counts, order[i], order[j]))
  }

  /** One insertion: x moves left past the entries with strictly more failures. */
  function Insert(order: seq<nat>, x: nat, counts: seq<int>): (r: seq<nat>)
    requires x < |counts|
    requires forall k | 0 <= k < |order| :: order[k] < x
    ensures |r| == |order| + 1
    ensures forall k | 0 <= k < |r| :: r[k] <= x
  {
    if order == [] || counts[order[|order| - 1]] <= counts[x] then
      order + [x]
    else
      Insert(order[..|order| - 1], x, counts) + [order[|order| - 1]]
  }

  function TryOrder(counts: seq<int>, n: nat): (r: seq<nat>)
    requires n <= |counts|
    ensures |r| == n && forall k | 0 <= k < n :: r[k] < n
  {
    if n == 0 then [] else Insert(TryOrder(counts, n - 1), n - 1, counts)
  }

  /** The insertion sort yields the stable order by failure count. */
  lemma {:induction false} TryOrderSpec(counts: seq<int>, n: nat)
    requires n <= |counts|
    ensures IsTryOrder(TryOrder(counts, n), counts, n)
  {
    if n > 0 {
      TryOrderSpec(counts, n - 1);
      InsertKeepsOrder(TryOrder(counts, n - 1), n - 1, counts);
    }
  }

  /** Where Insert puts x: after `p` entries, all others keeping their places. */
  lemma {:induction false} InsertPosition(order: seq<nat>, x: nat, counts: seq<int>) returns (p: nat)
    requires x < |counts|
    requires forall k | 0 <= k < |order| :: order[k] < x
    ensures p <= |order| && Insert(order, x, counts) == order[..p] + [x] + order[p..]
    ensures p > 0 ==> counts[order[p - 1]] <= counts[x]
    ensures forall k | p <= k < |order| :: counts[x] < counts[order[k]]
  {
    if order == [] || counts[order[|order| - 1]] <= counts[x] {
      p := |order|;
    } else {
      var front := order[..|order| - 1];
      p := InsertPosition(front, x, counts);
      assert front[..p] == order[..p];
      assert front[p..] + [order[|order| - 1]] == order[p..];
    }
  }

  lemma {:induction false} InsertAt(order: seq<nat>, x: nat, counts: seq<int>, p: nat)
    requires x < |counts| && p <= |order|
    requires forall k | 0 <= k < |order| :: order[k] < x
    requires p > 0 ==> counts[order[p - 1]] <= counts[x]
    requires forall k | p <= k < |order| :: counts[x] < counts[order[k]]
    ensures Insert(order, x, counts) == order[..p] + [x] + order[p..]
  {
    var front := order[..|order| - if order == [] then 0 else 1];
    if p < |order| {
      InsertAt(front, x, counts, p);
      assert front[..p] == order[..p];
      assert front[p..] + [order[|order| - 1]] == order[p..];
    }
  }

  lemma InsertKeepsOrder(order: seq<nat>, x: nat, counts: seq<int>)
    requires x < |counts|
    requires IsTryOrder(order, counts, x)
    ensures IsTryOrder(Insert(order, x, counts), counts, x + 1)
  {
    var p := InsertPosition(order, x, counts);
    var r := order[..p] + [x] + order[p..];
    forall e | 0 <= e < x + 1 ensures e in r {
      if e == x {
        assert r[p] == x;
      } else {
        assert e in order;
        var k :| 0 <= k < |order| && order[k] == e;
        assert r[if k < p then k else k + 1] == e;
      }
    }
    forall i, j | 0 <= i < j < |r| ensures Before(counts, r[i], r[j]) {
      var i', j' := if i < p then i else i - 1, if j < p then j else j - 1;
      if i != p && j != p {
        assert Before(counts, order[i'], order[j']);
      } else if j == p {
        assert i < p - 1 ==> Before(counts, order[i], order[p - 1]);
      }
    }
  }

  // ----- One request -----

  /** What a request leaves behind: the new counts, the entries tried, and the one that answered. */
  datatype Outcome = Outcome(counts: seq<int>, tried: seq<nat>, winner: Option<nat>)

  function TryFrom(counts: seq<int>, order: seq<nat>, answer: nat -> Attempt, k: nat): (o: Outcome)
    requires k <= |order|
    requires forall i | 0 <= i < |order| :: order[i] < |counts|
    ensures |o.counts| == |counts|
    decreases |order| - k
  {
    if k == |order| then
      Outcome(counts, order, None)
    else if Rejected(answer(k)) then
      TryFrom(counts[order[k] := counts[order[k]] + 1], order, answer, k + 1)
    else
      Outcome(counts[order[k] := 0], order[..k + 1], Some(order[k]))
  }

  lemma TryFromStep(counts: seq<int>, order: seq<nat>, answer: nat -> Attempt, k: nat)
    requires k < |order| && forall i | 0 <= i < |order| :: order[i] < |counts|
    ensures TryFrom(counts, order, answer, k) ==
            if Rejected(answer(k)) then TryFrom(counts[order[k] := counts[order[k]] + 1], order, answer, k + 1)
            else Outcome(counts[order[k] := 0], order[..k + 1], Some(order[k]))
  {
  }

  /** A whole request against the pool. */
  function Serve(counts: seq<int>, answer: nat -> Attempt): (o: Outcome)
    ensures |o.counts| == |counts|
  {
    TryFrom(counts, TryOrder(counts, |counts|), answer, 0)
  }

  /** The reply of a request that went through the entries: that of its last attempt, if it was an answer. */
  function ReplyOf(o: Outcome, answer: nat -> Attempt): Option<Attempt> {
    if o.winner.Some? && o.tried != [] then Some(answer(|o.tried| - 1)) else None
  }

  /** The first attempt from k on that is not rejected, or n. */
  function FirstAnswer(answer: nat -> Attempt, k: nat, n: nat): (f: nat)
    requires k <= n
    ensures k <= f <= n
    ensures forall i | k <= i < f :: Rejected(answer(i))
    ensures f < n ==> !Rejected(answer(f))
    decreases n - k
  {
    if k == n || !Rejected(answer(k)) then k else FirstAnswer(answer, k + 1, n)
  }

  /** The counts after attempts k..f of a duplicate-free order failed and attempt f, if there is one, answered. */
  ghost predicate CountsAfter(before: seq<int>, after: seq<int>, order: seq<nat>, k: nat, f: nat)
    requires |before| == |after|
    requires forall i | 0 <= i < |order| :: order[i] < |before|
  {
    forall i | 0 <= i < |order| ::
      after[order[i]] == if k <= i < f then before[order[i]] + 1 else if i == f then 0 else before[order[i]]
  }

  /** The attempts of a request whose first answer is attempt f of `order`. */
  function Tried(order: seq<nat>, f: nat): seq<nat>
    requires f <= |order|
  {
    if f == |order| then order else order[..f + 1]
  }

  function Winner(order: seq<nat>, f: nat): Option<nat>
    requires f <= |order|
  {
    if f == |order| then None else Some(order[f])
  }

  lemma {:induction false} TryFromShape(counts: seq<int>, order: seq<nat>, answer: nat -> Attempt, k: nat)
    requires k <= |order|
    requires forall i | 0 <= i < |order| :: order[i] < |counts|
    requires forall i, j | 0 <= i < j < |order| :: order[i] != order[j]
    ensures var f := FirstAnswer(answer, k, |order|);
            var o := TryFrom(counts, order, answer, k);
            && CountsAfter(counts, o.counts, order, k, f)
            && o.tried == Tried(order, f)
            && o.winner == Winner(order, f)
    decreases |order| - k
  {
    if k == |order| {
    } else if Rejected(answer(k)) {
      var counts' := counts[order[k] := counts[order[k]] + 1];
      TryFromShape(counts', order, answer, k + 1);
      var f := FirstAnswer(answer, k, |order|);
      var o := TryFrom(counts, order, answer, k);
      forall i | 0 <= i < |order|
        ensures o.counts[order[i]] == if k <= i < f then counts[order[i]] + 1 else if i == f then 0 else counts[order[i]]
      {
        assert i != k ==> order[i] != order[k];
      }
    } else {
      forall i | 0 <= i < |order| && i != k ensures order[i] != order[k] {}
    }
  }

  /** In every request the entries are tried in order of (failures, age); those
      before the first answer gain one failure, the one that answers is reset to
      zero, and nothing else changes. */
  lemma ServeShape(counts: seq<int>, answer: nat -> Attempt)
    ensures IsTryOrder(TryOrder(counts, |counts|), counts, |counts|)
    ensures CountsAfter(counts, Serve(counts, answer).counts, TryOrder(counts, |counts|), 0, FirstAnswer(answer, 0, |counts|))
    ensures Serve(counts, answer).tried == Tried(TryOrder(counts, |counts|), FirstAnswer(answer, 0, |counts|))
    ensures Serve(counts, answer).winner == Winner(TryOrder(counts, |counts|), FirstAnswer(answer, 0, |counts|))
  {
    var order := TryOrder(counts, |counts|);
    TryOrderSpec(counts, |counts|);
    forall i, j | 0 <= i < j < |order| ensures order[i] != order[j] {
      assert Before(counts, order[i], order[j]);
    }
    TryFromShape(counts, order, answer, 0);
  }

  /** What comes of a request: the entries are tried in order up to the first attempt that is not rejected, that
      entry is the winner, and its answer is the reply; without such an attempt all are tried in vain. */
  lemma RequestMeans(counts: seq<int>, answer: nat -> Attempt)
    ensures var n, order, o := |counts|, TryOrder(counts, |counts|), Serve(counts, answer);
            var f := FirstAnswer(answer, 0, n);
            && |order| == n
            && o.tried == (if f < n then order[..f + 1] else order)
            && o.winner == (if f < n then Some(order[f]) else None)
            && ReplyOf(o, answer) == (if f < n then Some(answer(f)) else None)
  {
    ServeShape(counts, answer);
  }

  /** The reply is the first of n answers that is neither an error nor a 403, or there is no such answer and no reply. */
  ghost predicate IsFirstReply(reply: Option<Attempt>, answer: nat -> Attempt, n: nat) {
    match reply
    case Some(a) =>
      && a !in {Error, Response(403)}
      && exists f: nat :: f < n && answer(f) == a && forall j: nat | j < f :: answer(j) in {Error, Response(403)}
    case None => forall j: nat | j < n :: answer(j) in {Error, Response(403)}
  }

  lemma ReplyIsFirst(counts: seq<int>, answer: nat -> Attempt)
    ensures IsFirstReply(ReplyOf(Serve(counts, answer), answer), answer, |counts|)
  {
    RequestMeans(counts, answer);
    forall j: nat | j < |counts| ensures Rejected(answer(j)) <==> answer(j) in {Error, Response(403)} {
      RejectedIff(answer(j));
    }
  }

  // ----- Runs of requests: is 1000 always enough? -----

  type Requests = seq<nat -> Attempt>

  function CountsAfterRun(counts: seq<int>, reqs: Requests): (r: seq<int>)
    ensures |r| == |counts|
  {
    if reqs == [] then counts
    else Serve(CountsAfterRun(counts, reqs[..|reqs| - 1]), reqs[|reqs| - 1]).counts
  }

  /** The number of requests of the run in which every entry failed. */
  function Losses(counts: seq<int>, reqs: Requests): nat
  {
    if reqs == [] then 0
    else
      var front := reqs[..|reqs| - 1];
      Losses(counts, front) + (if Serve(CountsAfterRun(counts, front), reqs[|reqs| - 1]).winner.None? then 1 else 0)
  }

  /** No request of the run was answered by entry d. */
  ghost predicate NeverWins(counts: seq<int>, reqs: Requests, d: nat)
  {
    forall i | 0 <= i < |reqs| :: Serve(CountsAfterRun(counts, reqs[..i]), reqs[i]).winner != Some(d)
  }

  /** n tunnels without failures and, added last, the direct entry with count `start`. */
  function StartCounts(n: nat, start: int): (r: seq<int>)
    ensures |r| == n + 1
  {
    seq(n, _ => 0) + [start]
  }

  /** If entry n is tried in this request, all entries below n were tried before it in this request and failed. */
  ghost predicate LastResort(counts: seq<int>, answer: nat -> Attempt, n: nat)
  {
    var tried := Serve(counts, answer).tried;
    forall m | 0 <= m < |tried| && tried[m] == n ::
      && (forall e: nat | e < n :: e in tried[..m])
      && (forall j | 0 <= j < m :: Rejected(answer(j)))
  }

  /** The property for every run: until the direct entry first answers, it is a last resort. */
  ghost predicate AlwaysLastResort(n: nat, start: int)
  {
    forall reqs: Requests, answer: nat -> Attempt ::
      NeverWins(StartCounts(n, start), reqs, n) ==>
      LastResort(CountsAfterRun(StartCounts(n, start), reqs), answer, n)
  }

  /** q lists 0..n without repetition. */
  ghost predicate Permutation(q: seq<nat>, n: nat)
  {
    && |q| == n
    && (forall k | 0 <= k < n :: q[k] < n)
    && (forall e: nat | e < n :: e in q)
    && (forall i, j | 0 <= i < j < n :: q[i] != q[j])
  }

  /** The rank invariant: arranged along q, the i-th tunnel count is at most i plus the
      number `lost` of requests in which everything failed. */
  ghost predicate RankedAlong(counts: seq<int>, q: seq<nat>, n: nat, lost: nat)
    requires n <= |counts|
  {
    Permutation(q, n) && forall i | 0 <= i < n :: counts[q[i]] <= i + lost
  }

  ghost predicate Ranked(counts: seq<int>, n: nat, start: int, lost: nat)
  {
    && |counts| == n + 1
    && counts[n] == start + lost
    && exists q :: RankedAlong(counts, q, n, lost)
  }

  ghost predicate Distinct(q: seq<nat>)
  {
    forall i, j | 0 <= i < j < |q| :: q[i] != q[j]
  }

  ghost function Elements(q: seq<nat>): set<nat>
  {
    set e | e in q
  }

  lemma {:induction false} ElementCount(q: seq<nat>)
    ensures |Elements(q)| <= |q|
    ensures Distinct(q) ==> |Elements(q)| == |q|
  {
    if q != [] {
      var front, last := q[..|q| - 1], q[|q| - 1];
      ElementCount(front);
      assert q == front + [last];
      assert Elements(q) == Elements(front) + {last};
      assert Distinct(q) ==> last !in front;
    }
  }

  /** Pigeonhole: if i + 1 entries have a count of at most v, so has the i-th in sorted order. */
  lemma RankBound(counts: seq<int>, p: seq<nat>, q: seq<nat>, n: nat, i: nat, v: int)
    requires n <= |counts| && i < n
    requires Permutation(p, n) && Permutation(q, n)
    requires forall a, b | 0 <= a < b < n :: counts[p[a]] <= counts[p[b]]
    requires forall j | 0 <= j <= i :: counts[q[j]] <= v
    ensures counts[p[i]] <= v
  {
    if counts[p[i]] > v {
      var low, head := q[..i + 1], p[..i];
      forall e | e in low ensures e in head {
        var j :| 0 <= j < |low| && low[j] == e;
        assert q[j] == e && q[j] in p;
        var m :| 0 <= m < n && p[m] == e;
        assert m < i;
        assert head[m] == e;
      }
      SubsetSize(Elements(low), Elements(head));
      ElementCount(low);
      ElementCount(head);
      assert false;
    }
  }

  lemma {:induction false} SubsetSize(a: set<nat>, b: set<nat>)
    requires a <= b
    ensures |a| <= |b|
  {
    assert b == a + (b - a);
  }

  lemma TryOrderIsPermutation(counts: seq<int>, n: nat)
    requires n <= |counts|
    ensures Permutation(TryOrder(counts, n), n)
    ensures forall a, b | 0 <= a < b < n :: counts[TryOrder(counts, n)[a]] <= counts[TryOrder(counts, n)[b]]
  {
    var p := TryOrder(counts, n);
    TryOrderSpec(counts, n);
    forall a, b | 0 <= a < b < n ensures p[a] != p[b] && counts[p[a]] <= counts[p[b]] {
      assert Before(counts, p[a], p[b]);
    }
  }

  /** Ranked along any arrangement means ranked along the order of trying. */
  lemma SortedIsRanked(counts: seq<int>, q: seq<nat>, n: nat, lost: nat)
    requires n <= |counts|
    requires RankedAlong(counts, q, n, lost)
    ensures RankedAlong(counts, TryOrder(counts, n), n, lost)
  {
    TryOrderIsPermutation(counts, n);
    forall i | 0 <= i < n ensures counts[TryOrder(counts, n)[i]] <= i + lost {
      RankBound(counts, TryOrder(counts, n), q, n, i, i + lost);
    }
  }

  /** If no tunnel has more failures than the direct entry, the direct entry is tried last. */
  lemma DirectGoesLast(counts: seq<int>, n: nat)
    requires |counts| == n + 1
    requires forall e: nat | e < n :: counts[e] <= counts[n]
    ensures TryOrder(counts, n + 1) == TryOrder(counts, n) + [n]
  {
    if n > 0 {
      assert TryOrder(counts, n)[n - 1] < n;
    }
  }

  lemma RankedBoundsTunnels(counts: seq<int>, n: nat, start: int, lost: nat)
    requires Ranked(counts, n, start, lost) && n <= start + 1
    ensures forall e: nat | e < n :: counts[e] <= counts[n]
  {
    var q :| RankedAlong(counts, q, n, lost);
    forall e: nat | e < n ensures counts[e] <= counts[n] {
      assert e in q;
      var i :| 0 <= i < n && q[i] == e;
    }
  }

  lemma RankedIsLastResort(counts: seq<int>, n: nat, start: int, lost: nat, answer: nat -> Attempt)
    requires Ranked(counts, n, start, lost) && n <= start + 1
    ensures LastResort(counts, answer, n)
  {
    RankedBoundsTunnels(counts, n, start, lost);
    DirectGoesLast(counts, n);
    ServeShape(counts, answer);
    var p := TryOrder(counts, n);
    var order := p + [n];
    assert forall i | 0 <= i < n :: order[i] == p[i] < n;
    var tried := Serve(counts, answer).tried;
    forall m | 0 <= m < |tried| && tried[m] == n
      ensures forall e: nat | e < n :: e in tried[..m]
      ensures forall j | 0 <= j < m :: Rejected(answer(j))
    {
      assert tried[m] == order[m];
      assert tried[..m] == p;
      TryOrderIsPermutation(counts, n);
    }
  }

  /** Moving the winner to the front keeps an arrangement an arrangement. */
  lemma RotateIsPermutation(p: seq<nat>, n: nat, f: nat)
    requires Permutation(p, n) && f < n
    ensures Permutation([p[f]] + p[..f] + p[f + 1..], n)
  {
    var q: seq<nat> := [p[f]] + p[..f] + p[f + 1..];
    forall e: nat | e < n ensures e in q {
      assert e in p;
      var k :| 0 <= k < n && p[k] == e;
      assert q[if k == f then 0 else if k < f then k + 1 else k] == e;
    }
  }

  lemma LossKeepsRanks(counts: seq<int>, after: seq<int>, p: seq<nat>, n: nat, lost: nat)
    requires |counts| == |after| == n + 1 && RankedAlong(counts, p, n, lost)
    requires CountsAfter(counts, after, p + [n], 0, n + 1)
    ensures RankedAlong(after, p, n, lost + 1) && after[n] == counts[n] + 1
  {
    var order := p + [n];
    assert order[n] == n;
    forall i | 0 <= i < n ensures after[p[i]] <= i + lost + 1 {
      assert order[i] == p[i];
    }
  }

  lemma WinKeepsRanks(counts: seq<int>, after: seq<int>, p: seq<nat>, n: nat, f: nat, lost: nat)
    requires |counts| == |after| == n + 1 && f < n && RankedAlong(counts, p, n, lost)
    requires CountsAfter(counts, after, p + [n], 0, f)
    ensures RankedAlong(after, [p[f]] + p[..f] + p[f + 1..], n, lost) && after[n] == counts[n]
  {
    var order, q := p + [n], [p[f]] + p[..f] + p[f + 1..];
    RotateIsPermutation(p, n, f);
    assert order[n] == n;
    forall i | 0 <= i < n ensures after[q[i]] <= i + lost {
      if i == 0 {
        assert order[f] == p[f];
      } else if i <= f {
        assert order[i - 1] == p[i - 1] == q[i];
      } else {
        assert order[i] == p[i] == q[i];
      }
    }
  }

  /** One request keeps the rank invariant, unless the direct entry answered it. */
  lemma RankedStep(counts: seq<int>, n: nat, start: int, lost: nat, answer: nat -> Attempt)
    requires Ranked(counts, n, start, lost) && n <= start + 1
    requires Serve(counts, answer).winner != Some(n)
    ensures Ranked(Serve(counts, answer).counts, n, start, if Serve(counts, answer).winner.None? then lost + 1 else lost)
  {
    RankedBoundsTunnels(counts, n, start, lost);
    DirectGoesLast(counts, n);
    ServeShape(counts, answer);
    var q :| RankedAlong(counts, q, n, lost);
    SortedIsRanked(counts, q, n, lost);
    var p, f, after := TryOrder(counts, n), FirstAnswer(answer, 0, n + 1), Serve(counts, answer).counts;
    if f == n + 1 {
      LossKeepsRanks(counts, after, p, n, lost);
    } else {
      WinKeepsRanks(counts, after, p, n, f, lost);
    }
  }

  function Identity(n: nat): (q: seq<nat>)
    ensures |q| == n && forall i | 0 <= i < n :: q[i] == i
  {
    seq(n, i requires 0 <= i => i)
  }

  lemma IdentityIsPermutation(n: nat)
    ensures Permutation(Identity(n), n)
  {
    forall e: nat | e < n ensures e in Identity(n) {
      assert Identity(n)[e] == e;
    }
  }

  lemma StartIsRanked(n: nat, start: int)
    ensures Ranked(StartCounts(n, start), n, start, 0)
  {
    IdentityIsPermutation(n);
    assert RankedAlong(StartCounts(n, start), Identity(n), n, 0);
  }

  lemma NeverWinsPrefix(counts: seq<int>, reqs: Requests, d: nat)
    requires NeverWins(counts, reqs, d) && reqs != []
    ensures NeverWins(counts, reqs[..|reqs| - 1], d)
    ensures Serve(CountsAfterRun(counts, reqs[..|reqs| - 1]), reqs[|reqs| - 1]).winner != Some(d)
  {
    var front := reqs[..|reqs| - 1];
    forall i | 0 <= i < |front| ensures Serve(CountsAfterRun(counts, front[..i]), front[i]).winner != Some(d) {
      assert front[..i] == reqs[..i];
    }
  }

  lemma {:induction false} RunIsRanked(n: nat, start: int, reqs: Requests)
    requires n <= start + 1
    requires NeverWins(StartCounts(n, start), reqs, n)
    ensures Ranked(CountsAfterRun(StartCounts(n, start), reqs), n, start, Losses(StartCounts(n, start), reqs))
    decreases |reqs|
  {
    var counts0 := StartCounts(n, start);
    if reqs == [] {
      StartIsRanked(n, start);
    } else {
      var front := reqs[..|reqs| - 1];
      NeverWinsPrefix(counts0, reqs, n);
      RunIsRanked(n, start, front);
      LastRequestRanked(counts0, n, start, reqs);
    }
  }

  lemma LastRequestRanked(counts0: seq<int>, n: nat, start: int, reqs: Requests)
    requires n <= start + 1 && reqs != [] && NeverWins(counts0, reqs, n)
    requires Ranked(CountsAfterRun(counts0, reqs[..|reqs| - 1]), n, start, Losses(counts0, reqs[..|reqs| - 1]))
    ensures Ranked(CountsAfterRun(counts0, reqs), n, start, Losses(counts0, reqs))
  {
    var front, last := reqs[..|reqs| - 1], reqs[|reqs| - 1];
    assert Serve(CountsAfterRun(counts0, front), last).winner != Some(n);
    RankedStep(CountsAfterRun(counts0, front), n, start, Losses(counts0, front), last);
  }

  // ----- Too many tunnels: the order breaks -----

  function Min(a: int, b: int): int {
    if a < b then a else b
  }

  /** Arranged along q the tunnel counts are 0, 1, .., k, k, ..., and the direct entry still has `start`. */
  ghost predicate StairAlong(counts: seq<int>, q: seq<nat>, n: nat, start: int, k: nat)
  {
    && |counts| == n + 1
    && counts[n] == start
    && Permutation(q, n)
    && forall i | 0 <= i < n :: counts[q[i]] == Min(i, k)
  }

  lemma StairInTryOrder(counts: seq<int>, q: seq<nat>, n: nat, start: int, k: nat)
    requires StairAlong(counts, q, n, start, k)
    ensures StairAlong(counts, TryOrder(counts, n), n, start, k)
  {
    var p := TryOrder(counts, n);
    TryOrderIsPermutation(counts, n);
    forall i | 0 <= i < n ensures counts[p[i]] == Min(i, k) {
      RankBound(counts, p, q, n, i, Min(i, k));
      RankBound(counts, q, p, n, i, counts[p[i]]);
    }
  }

  /** All but the last tunnel fail, and the last one answers. */
  function OnlyLastAnswers(n: nat): nat -> Attempt {
    i => if i + 1 == n then Response(200) else Error
  }

  lemma WinGrowsStair(counts: seq<int>, after: seq<int>, p: seq<nat>, n: nat, start: int, k: nat)
    requires 0 < n && StairAlong(counts, p, n, start, k)
    requires |after| == n + 1 && CountsAfter(counts, after, p + [n], 0, n - 1)
    ensures StairAlong(after, [p[n - 1]] + p[..n - 1] + p[n..], n, start, k + 1)
  {
    var order, q := p + [n], [p[n - 1]] + p[..n - 1] + p[n..];
    RotateIsPermutation(p, n, n - 1);
    assert order[n] == n;
    forall i | 0 <= i < n ensures after[q[i]] == Min(i, k + 1) {
      if i == 0 {
        assert order[n - 1] == p[n - 1];
      } else {
        assert order[i - 1] == p[i - 1] == q[i];
      }
    }
  }

  lemma StairStep(counts: seq<int>, n: nat, start: int, k: nat)
    requires |counts| == n + 1 && 0 < n && k <= start
    requires StairAlong(counts, TryOrder(counts, n), n, start, k)
    ensures var o := Serve(counts, OnlyLastAnswers(n));
            && o.winner != Some(n)
            && StairAlong(o.counts, TryOrder(o.counts, n), n, start, k + 1)
  {
    var p, answer := TryOrder(counts, n), OnlyLastAnswers(n);
    forall e: nat | e < n ensures counts[e] <= counts[n] {
      assert e in p;
    }
    DirectGoesLast(counts, n);
    ServeShape(counts, answer);
    assert !Rejected(answer(n - 1));
    assert FirstAnswer(answer, 0, n + 1) == n - 1;
    var after := Serve(counts, answer).counts;
    WinGrowsStair(counts, after, p, n, start, k);
    StairInTryOrder(after, [p[n - 1]] + p[..n - 1] + p[n..], n, start, k + 1);
  }

  lemma NeverWinsOneMore(counts: seq<int>, reqs: Requests, answer: nat -> Attempt, d: nat)
    requires NeverWins(counts, reqs, d)
    requires Serve(CountsAfterRun(counts, reqs), answer).winner != Some(d)
    ensures NeverWins(counts, reqs + [answer], d)
  {
    var more := reqs + [answer];
    forall i | 0 <= i < |more| ensures Serve(CountsAfterRun(counts, more[..i]), more[i]).winner != Some(d) {
      if i < |reqs| {
        assert more[..i] == reqs[..i];
      } else {
        assert more[..i] == reqs;
      }
    }
  }

  lemma RunOneMore(counts: seq<int>, reqs: Requests, answer: nat -> Attempt)
    ensures CountsAfterRun(counts, reqs + [answer]) == Serve(CountsAfterRun(counts, reqs), answer).counts
  {
    assert (reqs + [answer])[..|reqs|] == reqs;
  }

  ghost predicate Stair(counts: seq<int>, n: nat, start: int, k: nat)
  {
    |counts| == n + 1 && StairAlong(counts, TryOrder(counts, n), n, start, k)
  }

  lemma StartIsStair(n: nat, start: int)
    ensures Stair(StartCounts(n, start), n, start, 0)
  {
    IdentityIsPermutation(n);
    StairInTryOrder(StartCounts(n, start), Identity(n), n, start, 0);
  }

  lemma {:induction false} StairRun(n: nat, start: int, k: nat) returns (reqs: Requests)
    requires 0 < n && k <= start + 1
    ensures NeverWins(StartCounts(n, start), reqs, n)
    ensures Stair(CountsAfterRun(StartCounts(n, start), reqs), n, start, k)
    decreases k
  {
    if k == 0 {
      reqs := [];
      StartIsStair(n, start);
    } else {
      var front := StairRun(n, start, k - 1);
      var counts := CountsAfterRun(StartCounts(n, start), front);
      StairStep(counts, n, start, k - 1);
      NeverWinsOneMore(StartCounts(n, start), front, OnlyLastAnswers(n), n);
      RunOneMore(StartCounts(n, start), front, OnlyLastAnswers(n));
      reqs := front + [OnlyLastAnswers(n)];
    }
  }

  function AllFail(): nat -> Attempt {
    _ => Error
  }

  lemma StairIsNoLastResort(counts: seq<int>, n: nat, start: int, k: nat)
    requires |counts| == n + 1 && start < k < n
    requires StairAlong(counts, TryOrder(counts, n), n, start, k)
    ensures !LastResort(counts, AllFail(), n)
  {
    var answer := AllFail();
    ServeShape(counts, answer);
    var order := TryOrder(counts, n + 1);
    var tried := Serve(counts, answer).tried;
    assert FirstAnswer(answer, 0, n + 1) == n + 1;
    assert tried == order;
    assert n in order;
    var m :| 0 <= m < n + 1 && order[m] == n;
    var worst := TryOrder(counts, n)[n - 1];
    assert counts[worst] == k;
    forall j | 0 <= j < m ensures tried[j] != worst {
      assert Before(counts, order[j], order[m]);
    }
    assert worst !in tried[..m];
  }

  /** The exact bound.  In every run over n tunnels and a direct entry that starts at `start`
      and was added last, the direct entry stays a last resort until it first answers,
      if and only if n is at most start + 1. */
  lemma LastResortIff(n: nat, start: nat)
    ensures AlwaysLastResort(n, start) <==> n <= start + 1
  {
    var counts0 := StartCounts(n, start);
    if n <= start + 1 {
      forall reqs: Requests, answer: nat -> Attempt | NeverWins(counts0, reqs, n)
        ensures LastResort(CountsAfterRun(counts0, reqs), answer, n)
      {
        RunIsRanked(n, start, reqs);
        RankedIsLastResort(CountsAfterRun(counts0, reqs), n, start, Losses(counts0, reqs), answer);
      }
    } else {
      var reqs := StairRun(n, start, start + 1);
      StairIsNoLastResort(CountsAfterRun(counts0, reqs), n, start, start + 1);
    }
  }

  const DIRECT_START := 1000

  /** The i-th smallest tunnel count never exceeds i plus the number of requests that
      failed everywhere, whatever the network does; the direct entry sits exactly
      1000 above that number. */
  lemma TunnelCountsStayRanked(n: nat, reqs: Requests)
    requires n <= 1001 && NeverWins(StartCounts(n, DIRECT_START), reqs, n)
    ensures var counts := CountsAfterRun(StartCounts(n, DIRECT_START), reqs);
            var lost := Losses(StartCounts(n, DIRECT_START), reqs);
            && counts[n] == 1000 + lost
            && forall i | 0 <= i < n :: counts[TryOrder(counts, n)[i]] <= i + lost
  {
    RunIsRanked(n, DIRECT_START, reqs);
    var counts, lost := CountsAfterRun(StartCounts(n, DIRECT_START), reqs), Losses(StartCounts(n, DIRECT_START), reqs);
    var q :| RankedAlong(counts, q, n, lost);
    SortedIsRanked(counts, q, n, lost);
  }

  // ----- After the direct entry has answered -----

  ghost predicate NoneNegative(counts: seq<int>) {
    forall e: nat | e < |counts| :: counts[e] >= 0
  }

  lemma ServeNoneNegative(counts: seq<int>, answer: nat -> Attempt)
    requires NoneNegative(counts)
    ensures NoneNegative(Serve(counts, answer).counts)
  {
    ServeShape(counts, answer);
    var order := TryOrder(counts, |counts|);
    forall e: nat | e < |counts| ensures Serve(counts, answer).counts[e] >= 0 {
      assert e in order;
    }
  }

  lemma {:induction false} RunNoneNegative(counts: seq<int>, reqs: Requests)
    requires NoneNegative(counts)
    ensures NoneNegative(CountsAfterRun(counts, reqs))
  {
    if reqs != [] {
      RunNoneNegative(counts, reqs[..|reqs| - 1]);
      ServeNoneNegative(CountsAfterRun(counts, reqs[..|reqs| - 1]), reqs[|reqs| - 1]);
    }
  }

  /** A last resort that answers has fewer failures than every other entry. */
  lemma LastResortAnswers(counts: seq<int>, answer: nat -> Attempt, n: nat)
    requires |counts| == n + 1 && NoneNegative(counts) && LastResort(counts, answer, n)
    requires Serve(counts, answer).winner == Some(n)
    ensures var after := Serve(counts, answer).counts; after[n] == 0 && forall e: nat | e < n :: after[e] > 0
  {
    ServeShape(counts, answer);
    var order, f, o := TryOrder(counts, n + 1), FirstAnswer(answer, 0, n + 1), Serve(counts, answer);
    assert o.tried == order[..f + 1] && o.tried[f] == n;
    forall e: nat | e < n ensures o.counts[e] > 0 {
      assert e in o.tried[..f];
      var i :| 0 <= i < f && o.tried[..f][i] == e;
      assert order[i] == e;
    }
  }

  lemma FirstInLine(counts: seq<int>, n: nat)
    requires |counts| == n + 1 && forall e: nat | e < n :: counts[n] < counts[e]
    ensures TryOrder(counts, n + 1)[0] == n
    ensures n > 0 ==> forall answer :: !LastResort(counts, answer, n)
  {
    FirstIsLeast(counts, n);
    if n > 0 {
      forall answer ensures !LastResort(counts, answer, n) {
        ServeShape(counts, answer);
        var tried := Serve(counts, answer).tried;
        assert tried[0] == n && 0 !in tried[..0];
      }
    }
  }

  /** The bound does not outlive the first answer of the direct entry: in the very next request it is tried
      first, whatever the network does, and so it is no last resort if there is any tunnel. */
  lemma DirectComesFirst(n: nat, start: nat, reqs: Requests, answer: nat -> Attempt)
    requires n <= start + 1
    ensures FirstAnswerOfDirect(n, start, reqs, answer) ==>
              var after := CountsAfterRun(StartCounts(n, start), reqs + [answer]);
              TryOrder(after, n + 1)[0] == n && (n > 0 ==> forall next :: !LastResort(after, next, n))
  {
    if FirstAnswerOfDirect(n, start, reqs, answer) {
      var counts0 := StartCounts(n, start);
      LastResortIff(n, start);
      RunNoneNegative(counts0, reqs);
      LastResortAnswers(CountsAfterRun(counts0, reqs), answer, n);
      RunOneMore(counts0, reqs, answer);
      FirstInLine(CountsAfterRun(counts0, reqs + [answer]), n);
    }
  }

  /** After these requests the direct entry answers for the first time. */
  ghost predicate FirstAnswerOfDirect(n: nat, start: nat, reqs: Requests, answer: nat -> Attempt) {
    && NeverWins(StartCounts(n, start), reqs, n)
    && Serve(CountsAfterRun(StartCounts(n, start), reqs), answer).winner == Some(n)
  }

  // ----- The pool itself -----

  class PoolEntry {
    const profileID: string
    var failCount: int

    constructor (profileID: string, failCount: int)
      ensures this.profileID == profileID && this.failCount == failCount
    {
      this.profileID := profileID;
      this.failCount := failCount;
    }
  }

  function CountsOf(entries: seq<PoolEntry>): (r: seq<int>)
    reads entries
    ensures |r| == |entries| && forall i | 0 <= i < |r| :: r[i] == entries[i].failCount
  {
    seq(|entries|, i requires 0 <= i < |entries| reads entries => entries[i].failCount)
  }

  function ProfilesOf(entries: seq<PoolEntry>): (r: seq<string>)
    ensures |r| == |entries| && forall i | 0 <= i < |r| :: r[i] == entries[i].profileID
  {
    seq(|entries|, i requires 0 <= i < |entries| => entries[i].profileID)
  }

  class Pool {
    var proxies: seq<PoolEntry>

    ghost predicate Valid()
      reads this
    {
      forall i, j | 0 <= i < j < |proxies| :: proxies[i] != proxies[j]
    }

    constructor ()
      ensures Valid() && proxies == []
    {
      proxies := [];
    }

    /** `started` tells whether the local proxy for the entry could be started. */
    method AddProxy(profileID: string, started: bool) returns (ok: bool)
      requires Valid()
      modifies this
      ensures Valid() && ok == started
      ensures !ok ==> proxies == old(proxies)
      ensures ok ==> |proxies| == |old(proxies)| + 1 && proxies[..|old(proxies)|] == old(proxies)
      ensures CountsOf(proxies) == old(CountsOf(proxies)) + (if ok then [0] else [])
      ensures ProfilesOf(proxies) == old(ProfilesOf(proxies)) + (if ok then [profileID] else [])
    {
      if !started { return false; }
      var e := new PoolEntry(profileID, 0);
      proxies := proxies + [e];
      return true;
    }

    method AddDirect(profileID: string, started: bool)
      requires Valid()
      modifies this
      ensures Valid()
      ensures !started ==> proxies == old(proxies)
      ensures started ==> |proxies| == |old(proxies)| + 1 && proxies[..|old(proxies)|] == old(proxies)
      ensures CountsOf(proxies) == old(CountsOf(proxies)) + (if started then [1000] else [])
      ensures ProfilesOf(proxies) == old(ProfilesOf(proxies)) + (if started then [profileID] else [])
    {
      if !started { return; }
      var e := new PoolEntry(profileID, DIRECT_START);
      proxies := proxies + [e];
    }

    /** One round of the insertion sort: the i-th entry moves left past those with more failures. */
    method SiftLeft(sorted: array<PoolEntry>, i: nat, ghost entries: seq<PoolEntry>, ghost counts: seq<int>, ghost order: seq<nat>)
      requires i < sorted.Length == |entries| == |counts| && |order| == i
      requires forall k | 0 <= k < |entries| :: entries[k].failCount == counts[k]
      requires forall k | 0 <= k < i :: order[k] < i && sorted[k] == entries[order[k]]
      requires forall k | i <= k < sorted.Length :: sorted[k] == entries[k]
      modifies sorted
      ensures forall k | 0 <= k <= i :: sorted[k] == entries[Insert(order, i, counts)[k]]
      ensures forall k | i < k < sorted.Length :: sorted[k] == entries[k]
    {
      var j := i;
      while j > 0 && sorted[j].failCount < sorted[j - 1].failCount
        invariant 0 <= j <= i
        invariant forall k | 0 <= k < j :: sorted[k] == entries[order[k]]
        invariant sorted[j] == entries[i]
        invariant forall k | j < k <= i :: sorted[k] == entries[order[k - 1]]
        invariant forall k | i < k < sorted.Length :: sorted[k] == entries[k]
        invariant forall k | j <= k < i :: counts[i] < counts[order[k]]
      {
        sorted[j], sorted[j - 1] := sorted[j - 1], sorted[j];
        j := j - 1;
      }
      InsertAt(order, i, counts, j);
    }

    /** The insertion sort of a request: a copy of the entries, in the order of trying. */
    method SortByFailures(entries: seq<PoolEntry>) returns (sorted: array<PoolEntry>)
      ensures fresh(sorted) && sorted.Length == |entries|
      ensures forall k | 0 <= k < sorted.Length ::
                sorted[k] == entries[TryOrder(CountsOf(entries), |entries|)[k]]
    {
      sorted := new PoolEntry[|entries|](i requires 0 <= i < |entries| => entries[i]);
      ghost var counts := CountsOf(entries);
      if sorted.Length == 0 { return; }
      ghost var order: seq<nat> := [0];
      assert order == TryOrder(counts, 1) by { assert TryOrder(counts, 0) == []; }
      var i := 1;
      while i < sorted.Length
        invariant 1 <= i <= sorted.Length && order == TryOrder(counts, i)
        invariant forall k | 0 <= k < i :: sorted[k] == entries[order[k]]
        invariant forall k | i <= k < sorted.Length :: sorted[k] == entries[k]
        invariant forall k | 0 <= k < |entries| :: entries[k].failCount == counts[k]
      {
        SiftLeft(sorted, i, entries, counts, order);
        order := Insert(order, i, counts);
        i := i + 1;
      }
      assert CountsOf(entries) == counts;
    }

    static method MarkFail(e: PoolEntry)
      modifies e
      ensures e.failCount == old(e.failCount) + 1
    {
      e.failCount := e.failCount + 1;
    }

    static method MarkSuccess(e: PoolEntry)
      modifies e
      ensures e.failCount == 0
    {
      e.failCount := 0;
    }

    /** The loop over the sorted entries. */
    method TryEach(sorted: seq<PoolEntry>, answer: nat -> Attempt, ghost order: seq<nat>)
      returns (reply: Option<Attempt>)
      requires Valid() && |sorted| == |order|
      requires forall i | 0 <= i < |order| :: order[i] < |proxies| && sorted[i] == proxies[order[i]]
      modifies proxies
      ensures var o := TryFrom(old(CountsOf(proxies)), order, answer, 0);
              && CountsOf(proxies) == o.counts
              && reply == ReplyOf(o, answer)
    {
      ghost var counts := CountsOf(proxies);
      ghost var outcome := TryFrom(counts, order, answer, 0);
      var k := 0;
      while k < |sorted|
        invariant 0 <= k <= |sorted| && |counts| == |proxies|
        invariant forall i | 0 <= i < |proxies| :: proxies[i].failCount == counts[i]
        invariant TryFrom(counts, order, answer, k) == outcome
      {
        TryFromStep(counts, order, answer, k);
        if Rejected(answer(k)) {
          MarkFail(sorted[k]);
          counts := counts[order[k] := counts[order[k]] + 1];
        } else {
          MarkSuccess(sorted[k]);
          counts := counts[order[k] := 0];
          assert CountsOf(proxies) == counts;
          return Some(answer(k));
        }
        k := k + 1;
      }
      assert CountsOf(proxies) == counts;
      return None;
    }

    /** One request.  `answer(k)` is what the k-th attempt gets; with no entries the
        request goes to the default transport, which gives `answer(0)`. */
    method Do(answer: nat -> Attempt) returns (reply: Option<Attempt>)
      requires Valid()
      modifies proxies
      ensures CountsOf(proxies) == Serve(old(CountsOf(proxies)), answer).counts
      ensures proxies == [] ==> reply == Some(answer(0))
      ensures proxies != [] ==> IsFirstReply(reply, answer, |proxies|)
    {
      if |proxies| == 0 {
        return Some(answer(0));
      }
      ReplyIsFirst(CountsOf(proxies), answer);
      var sorted := SortByFailures(proxies);
      reply := TryEach(sorted[..], answer, TryOrder(CountsOf(proxies), |proxies|));
    }

    /** The entry through which a stream is proxied: the active profile if it is in
        the pool, otherwise the entry that `Do` would try first. */
    method PickEntry(activeID: string) returns (pick: Option<nat>)
      ensures pick.None? <==> proxies == []
      ensures pick.Some? ==> pick.value < |proxies|
      ensures var named := exists i :: 0 <= i < |proxies| && activeID != "" && proxies[i].profileID == activeID;
              && (pick.Some? && named ==>
                  && proxies[pick.value].profileID == activeID
                  && forall i | 0 <= i < pick.value :: proxies[i].profileID != activeID)
              && (pick.Some? && !named ==>
                  pick.value == TryOrder(CountsOf(proxies), |proxies|)[0])
    {
      if proxies == [] { return None; }
      if activeID != "" {
        for i := 0 to |proxies|
          invariant forall k | 0 <= k < i :: proxies[k].profileID != activeID
        {
          if proxies[i].profileID == activeID { return Some(i); }
        }
      }
      var best := 0;
      for i := 1 to |proxies|
        invariant 0 <= best < i
        invariant forall k | 0 <= k < i :: proxies[best].failCount <= proxies[k].failCount
        invariant forall k | 0 <= k < best :: proxies[best].failCount < proxies[k].failCount
      {
        if proxies[i].failCount < proxies[best].failCount { best := i; }
      }
      FirstIsLeast(CountsOf(proxies), best);
      return Some(best);
    }
  }

  /** The profiles whose local proxy started, in order. */
  function Started(profiles: seq<string>, started: seq<bool>): seq<string>
    requires |started| == |profiles|
  {
    if started == [] then []
    else
      var n := |started| - 1;
      Started(profiles[..n], started[..n]) + if started[n] then [profiles[n]] else []
  }

  /** The start-up wiring: one entry per connected tunnel whose local proxy started, then the direct entry if its
      local proxy started. */
  method Wire(profiles: seq<string>, started: seq<bool>, direct: bool) returns (pool: Pool)
    requires |started| == |profiles|
    ensures fresh(pool) && pool.Valid()
    ensures ProfilesOf(pool.proxies) == Started(profiles, started) + if direct then ["default"] else []
    ensures var n := |Started(profiles, started)|;
            CountsOf(pool.proxies) == seq(n, _ => 0) + if direct then [1000] else []
  {
    pool := new Pool();
    for i := 0 to |profiles|
      invariant fresh(pool) && pool.Valid()
      invariant ProfilesOf(pool.proxies) == Started(profiles[..i], started[..i])
      invariant CountsOf(pool.proxies) == seq(|pool.proxies|, _ => 0)
    {
      assert started[..i + 1][..i] == started[..i] && profiles[..i + 1][..i] == profiles[..i];
      var _ := pool.AddProxy(profiles[i], started[i]);
    }
    assert started[..|started|] == started && profiles[..|profiles|] == profiles;
    pool.AddDirect("default", direct);
  }

  /** Any sequence of requests moves the pool's counts as the run function says. */
  method ServeAll(pool: Pool, reqs: Requests)
    requires pool.Valid()
    modifies pool.proxies
    ensures CountsOf(pool.proxies) == CountsAfterRun(old(CountsOf(pool.proxies)), reqs)
  {
    ghost var counts := CountsOf(pool.proxies);
    assert reqs[..0] == [];
    for i := 0 to |reqs|
      invariant CountsOf(pool.proxies) == CountsAfterRun(counts, reqs[..i])
    {
      var _ := pool.Do(reqs[i]);
      RunOneMore(counts, reqs[..i], reqs[i]);
      assert reqs[..i + 1] == reqs[..i] + [reqs[i]];
    }
    assert reqs[..|reqs|] == reqs;
  }

  /** The head of the order of trying is the entry before all others. */
  lemma FirstIsLeast(counts: seq<int>, best: nat)
    requires best < |counts|
    requires forall k: nat | k < |counts| && k != best :: Before(counts, best, k)
    ensures TryOrder(counts, |counts|)[0] == best
  {
    var order := TryOrder(counts, |counts|);
    TryOrderSpec(counts, |counts|);
    assert best in order;
    var m :| 0 <= m < |order| && order[m] == best;
    assert m != 0 ==> Before(counts, order[0], order[m]);
    assert order[0] != best ==> Before(counts, best, order[0]);
  }
}
