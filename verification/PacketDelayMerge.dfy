/** One sequence merges all lanes. */
module PacketDelayMerge {
  // It is in order of shifted DTS, then of arrival.

  import opened Options
  import opened Timestamps
  import opened PacketTypes
  import opened PacketDelaySpec
  import opened PacketDelayStep
  import opened PacketDelayInvariant

  lemma StrictlyTransitive(s: State, a: Queued, b: Queued, c: Queued)
    requires Strictly(s, a, b) && Strictly(s, b, c)
    ensures Strictly(s, a, c)
  {
    PrecedesTransitive(s, a, b, c);
    if Precedes(s, c, a) {
      PrecedesTransitive(s, c, a, b);
    }
  }

  lemma StrictlyTotal(s: State, a: Queued, b: Queued)
    requires Ordering(s, a.packet).Some? && Ordering(s, b.packet).Some? && a.sequence != b.sequence
    ensures Strictly(s, a, b) || Strictly(s, b, a)
  {
  }

  predicate Datable(s: State, q: Queue) {
    forall i :: 0 <= i < |q| ==> Ordering(s, q[i].packet).Some?
  }

  function Insert(s: State, q: Queue, x: Queued): Queue {
    if q == [] || Strictly(s, x, q[0]) then [x] + q else [q[0]] + Insert(s, q[1..], x)
  }

  predicate Fresh(q: Queue, x: Queued) {
    forall i :: 0 <= i < |q| ==> q[i].sequence != x.sequence
  }

  lemma {:induction false} InsertItems(s: State, q: Queue, x: Queued)
    ensures multiset(Insert(s, q, x)) == multiset(q) + multiset{x}
  {
    if q != [] && !Strictly(s, x, q[0]) {
      InsertItems(s, q[1..], x);
      assert q == [q[0]] + q[1..];
    }
  }

  lemma InsertMember(s: State, q: Queue, x: Queued, y: Queued)
    requires y in Insert(s, q, x)
    ensures y == x || y in q
  {
    InsertItems(s, q, x);
    assert y in multiset(Insert(s, q, x));
  }

  lemma {:induction false} InsertSorted(s: State, q: Queue, x: Queued)
    requires Sorted(s, q) && Datable(s, q) && Ordering(s, x.packet).Some? && Fresh(q, x)
    ensures Sorted(s, Insert(s, q, x))
  {
    if q == [] {
    } else if Strictly(s, x, q[0]) {
      forall j | 0 <= j < |q| ensures Strictly(s, x, q[j]) {
        if j > 0 { StrictlyTransitive(s, x, q[0], q[j]); }
      }
    } else {
      StrictlyTotal(s, x, q[0]);
      InsertSorted(s, q[1..], x);
      var rest := Insert(s, q[1..], x);
      forall j | 0 <= j < |rest| ensures Strictly(s, q[0], rest[j]) {
        InsertMember(s, q[1..], x, rest[j]);
      }
    }
  }

  lemma {:induction false} InsertWeight(s: State, q: Queue, x: Queued, w: Queued -> nat)
    ensures SeqWeight(Insert(s, q, x), w) == SeqWeight(q, w) + w(x)
  {
    var r := Insert(s, q, x);
    if q == [] || Strictly(s, x, q[0]) {
      assert r[1..] == q;
    } else {
      InsertWeight(s, q[1..], x, w);
      assert r[1..] == Insert(s, q[1..], x);
    }
  }

  // ---------------------------------------------------------------------
  // A strictly sorted sequence is determined by its elements

  ghost predicate SameItems(q: Queue, r: Queue) {
    (forall x :: x in q ==> x in r) && (forall x :: x in r ==> x in q)
  }

  lemma EmptyTogether(q: Queue, r: Queue)
    requires SameItems(q, r)
    ensures q == [] <==> r == []
  {
    if q != [] { assert q[0] in q; }
    if r != [] { assert r[0] in r; }
  }

  lemma SameHead(s: State, q: Queue, r: Queue)
    requires Sorted(s, q) && Sorted(s, r) && SameItems(q, r) && q != [] && r != []
    ensures q[0] == r[0]
  {
    assert q[0] in q && r[0] in r;
    var j :| 0 <= j < |r| && r[j] == q[0];
    var i :| 0 <= i < |q| && q[i] == r[0];
    if i > 0 && j > 0 {
      assert false;
    }
  }

  lemma {:induction false} SortedUnique(s: State, q: Queue, r: Queue)
    requires Sorted(s, q) && Sorted(s, r) && SameItems(q, r)
    ensures q == r
  {
    EmptyTogether(q, r);
    if q != [] {
      SameHead(s, q, r);
      forall x | x in q[1..] ensures x in r[1..] {
        assert x in q;
        assert x != q[0];
      }
      forall x | x in r[1..] ensures x in q[1..] {
        assert x in r;
        assert x != r[0];
      }
      SortedUnique(s, q[1..], r[1..]);
      assert q == [q[0]] + q[1..] && r == [r[0]] + r[1..];
    }
  }

  // ---------------------------------------------------------------------
  // Merging lanes one packet at a time

  lemma MergeOne(s: State, q: Queue, x: Queued, w: Queued -> nat) returns (r: Queue)
    requires Sorted(s, q) && Datable(s, q) && Ordering(s, x.packet).Some? && Fresh(q, x)
    ensures Sorted(s, r) && Datable(s, r)
    ensures multiset(r) == multiset(q) + multiset{x}
    ensures SeqWeight(r, w) == SeqWeight(q, w) + w(x)
  {
    r := Insert(s, q, x);
    InsertSorted(s, q, x);
    InsertItems(s, q, x);
    InsertWeight(s, q, x, w);
    forall i | 0 <= i < |r| ensures Ordering(s, r[i].packet).Some? {
      InsertMember(s, q, x, r[i]);
    }
  }

  lemma LastWeight(lane: Queue, w: Queued -> nat)
    requires lane != []
    ensures SeqWeight(lane, w) == SeqWeight(lane[..|lane| - 1], w) + w(lane[|lane| - 1])
  {
    var n := |lane| - 1;
    SeqWeightSplit(lane, n, w);
    assert lane[n..] == [lane[n]] && SeqWeight([lane[n]][1..], w) == 0;
  }

  lemma {:induction false} MergeLane(s: State, q: Queue, lane: Queue, w: Queued -> nat) returns (r: Queue)
    requires Sorted(s, q) && Datable(s, q) && Datable(s, lane) && Arrived(lane) && Apart(q, lane)
    ensures Sorted(s, r) && Datable(s, r)
    ensures multiset(r) == multiset(q) + multiset(lane)
    ensures SeqWeight(r, w) == SeqWeight(q, w) + SeqWeight(lane, w)
  {
    if lane == [] {
      r := q;
    } else {
      var n := |lane| - 1;
      var before := MergeLane(s, q, lane[..n], w);
      assert lane == lane[..n] + [lane[n]];
      assert Fresh(before, lane[n]) by {
        forall i | 0 <= i < |before| ensures before[i].sequence != lane[n].sequence {
          assert before[i] in multiset(before);
        }
      }
      r := MergeOne(s, before, lane[n], w);
      LastWeight(lane, w);
    }
  }

  ghost predicate Mergeable(s: State, m: Queues) {
    DistinctLanes(m) && forall k :: k in m ==> Datable(s, m[k]) && Arrived(m[k])
  }

  lemma {:induction false} MergeLanes(s: State, m: Queues, w: Queued -> nat) returns (r: Queue)
    requires Mergeable(s, m)
    ensures Merges(s, m, r) && Datable(s, r) && SeqWeight(r, w) == Weight(m, w)
  {
    if m == map[] {
      r := [];
    } else {
      var k :| k in m;
      var rest := MergeLanes(s, m - {k}, w);
      assert Apart(rest, m[k]) by {
        forall i, j | 0 <= i < |rest| && 0 <= j < |m[k]| ensures rest[i].sequence != m[k][j].sequence {
          assert rest[i] in rest;
          var l :| l in m - {k} && rest[i] in m[l];
          assert Apart(m[l], m[k]);
        }
      }
      r := MergeLane(s, rest, m[k], w);
      WeightRemove(m, k, w);
      MergeMembers(m, k, rest, r);
    }
  }

  lemma MergeMembers(m: Queues, k: StreamKey, rest: Queue, r: Queue)
    requires k in m && multiset(r) == multiset(rest) + multiset(m[k])
    requires forall x :: x in rest ==> InLane(m - {k}, x)
    requires forall j, x :: j in m - {k} && x in m[j] ==> x in rest
    ensures forall x :: x in r ==> InLane(m, x)
    ensures forall j, x :: j in m && x in m[j] ==> x in r
  {
    forall x | x in r ensures InLane(m, x) {
      assert x in multiset(r);
      if x !in m[k] {
        assert x in rest;
        var j :| j in m - {k} && x in m[j];
      }
    }
    forall j, x | j in m && x in m[j] ensures x in r {
      if j == k {
        assert x in multiset(m[k]);
      } else {
        assert j in (m - {k}).Keys && (m - {k})[j] == m[j];
        assert x in rest;
        assert x in multiset(rest);
      }
      assert x in multiset(r);
    }
  }

  /** Merging loses nothing: the merged sequence exists, is unique and weighs what the lanes weigh. */
  lemma MergeCorrect(s: State, m: Queues, w: Queued -> nat)
    requires Mergeable(s, m)
    ensures Merges(s, m, Merge(s, m)) && Datable(s, Merge(s, m)) && SeqWeight(Merge(s, m), w) == Weight(m, w)
  {
    var q := MergeLanes(s, m, w);
    assert Merges(s, m, q);
    MergesUnique(s, m, q, Merge(s, m));
  }

  lemma MergesUnique(s: State, m: Queues, q: Queue, r: Queue)
    requires Merges(s, m, q) && Merges(s, m, r)
    ensures q == r
  {
    forall x | x in q ensures x in r {
      assert InLane(m, x);
    }
    forall x | x in r ensures x in q {
      assert InLane(m, x);
    }
    SortedUnique(s, q, r);
  }
}
