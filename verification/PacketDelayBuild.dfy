/** Building the pending return. */
module PacketDelayBuild {
  // What stays live of each lane, sorted into one list.

  import opened Options
  import opened Timestamps
  import opened PacketTypes
  import opened PacketDelaySpec
  import opened PacketDelayStep
  import opened PacketDelayInvariant
  import opened PacketDelayMerge
  import opened PacketDelayRun
  import opened PacketDelayScan
  import opened PacketDelayOffsets
  import opened PacketDelayCounts

  method CollectKept(c: Config, s: State, cut: Option<i64>, ghost bound: nat) returns (kept: Queues)
    requires LanesOk(c, s.queues, bound, s.lastObserved)
    ensures kept == KeptQueues(c, s, cut)
  {
    hide KeptFrom, LanesOk;
    kept := map[];
    var lanes := s.queues.Keys;
    while lanes != {}
      invariant lanes <= s.queues.Keys && kept.Keys <= s.queues.Keys - lanes
      invariant forall k :: k in s.queues && k !in lanes ==>
                  (k in kept <==> KeptFrom(c, s, cut, k, s.queues[k]) < |s.queues[k]|)
      invariant forall k :: k in kept ==> kept[k] == s.queues[k][KeptFrom(c, s, cut, k, s.queues[k])..]
      decreases |lanes|
    {
      var lane :| lane in lanes;
      LaneShape(c, s, lane, bound);
      var live := ScanKept(c, s, cut, lane, s.queues[lane]);
      if live != [] {
        kept := kept[lane := live];
      }
      lanes := lanes - {lane};
    }
  }

  method CheckOrdered(s: State, m: Queues) returns (ok: bool)
    ensures ok == AllOrdered(s, m)
  {
    hide Ordering;
    var lanes := m.Keys;
    while lanes != {}
      invariant lanes <= m.Keys
      invariant forall k, i :: k in m && k !in lanes && 0 <= i < |m[k]| ==> Ordering(s, m[k][i].packet).Some?
      decreases |lanes|
    {
      var lane :| lane in lanes;
      var i := 0;
      while i < |m[lane]|
        invariant i <= |m[lane]| && forall j :: 0 <= j < i ==> Ordering(s, m[lane][j].packet).Some?
      {
        if Ordering(s, m[lane][i].packet).None? {
          return false;
        }
        i := i + 1;
      }
      lanes := lanes - {lane};
    }
    ok := true;
  }

  /** Sorts the packets of one lane into an already sorted list. */
  method SortLane(s: State, q: Queue, lane: Queue) returns (r: Queue)
    requires Sorted(s, q) && Datable(s, q) && Datable(s, lane) && Arrived(lane) && Apart(q, lane)
    ensures Sorted(s, r) && Datable(s, r) && multiset(r) == multiset(q) + multiset(lane)
  {
    hide Sorted, Datable, Strictly, Insert;
    r := q;
    var i := 0;
    assert lane[..0] == [];
    while i < |lane|
      invariant i <= |lane| && Sorted(s, r) && Datable(s, r) && multiset(r) == multiset(q) + multiset(lane[..i])
    {
      LanePacket(s, q, lane, r, i);
      ghost var before := r;
      InsertGood(s, r, lane[i]);
      r := Insert(s, r, lane[i]);
      assert lane[..i + 1] == lane[..i] + [lane[i]];
      i := i + 1;
    }
    assert lane[..i] == lane;
  }

  lemma InsertGood(s: State, q: Queue, x: Queued)
    requires Sorted(s, q) && Datable(s, q) && Ordering(s, x.packet).Some? && Fresh(q, x)
    ensures var r := Insert(s, q, x); Sorted(s, r) && Datable(s, r) && multiset(r) == multiset(q) + multiset{x}
  {
    InsertSorted(s, q, x);
    InsertItems(s, q, x);
    var r := Insert(s, q, x);
    forall i | 0 <= i < |r| ensures Ordering(s, r[i].packet).Some? {
      InsertMember(s, q, x, r[i]);
    }
  }

  lemma LanePacket(s: State, q: Queue, lane: Queue, r: Queue, i: nat)
    requires i < |lane| && Datable(s, lane) && Arrived(lane) && Apart(q, lane)
    requires multiset(r) == multiset(q) + multiset(lane[..i])
    ensures Ordering(s, lane[i].packet).Some? && Fresh(r, lane[i])
  {
    forall j | 0 <= j < |r| ensures r[j].sequence != lane[i].sequence {
      assert r[j] in multiset(r);
      if r[j] !in q {
        assert r[j] in lane[..i];
      }
    }
  }

  /** All lanes in one list, by shifted DTS and arrival. */
  method SortAll(s: State, m: Queues) returns (q: Queue)
    requires Mergeable(s, m)
    ensures q == Merge(s, m)
  {
    hide Sorted, Datable, Apart, Arrived;
    q := [];
    assert Sorted(s, q) && Datable(s, q) by { EmptySorted(s); }
    var lanes := m.Keys;
    while lanes != {}
      invariant lanes <= m.Keys && Sorted(s, q) && Datable(s, q)
      invariant Gathers(m, m.Keys - lanes, q)
      decreases |lanes|
    {
      var lane :| lane in lanes;
      GatheredApart(m, m.Keys - lanes, q, lane);
      ghost var before := q;
      q := SortLane(s, q, m[lane]);
      GathersMore(m, m.Keys - lanes, before, lane, q);
      assert m.Keys - lanes + {lane} == m.Keys - (lanes - {lane});
      lanes := lanes - {lane};
    }
    assert m.Keys - lanes == m.Keys;
    GathersAll(s, m, q);
  }

  lemma EmptySorted(s: State)
    ensures Sorted(s, []) && Datable(s, [])
  {
  }

  /** The list holds exactly the packets of some lanes. */
  ghost predicate Gathers(m: Queues, lanes: set<StreamKey>, q: Queue) {
    && (forall x :: x in q ==> exists k :: k in lanes && k in m && x in m[k])
    && (forall k, x :: k in lanes && k in m && x in m[k] ==> x in q)
  }

  lemma GatheredApart(m: Queues, lanes: set<StreamKey>, q: Queue, k: StreamKey)
    requires Gathers(m, lanes, q) && DistinctLanes(m) && k in m && k !in lanes
    ensures Apart(q, m[k])
  {
    forall i, j | 0 <= i < |q| && 0 <= j < |m[k]| ensures q[i].sequence != m[k][j].sequence {
      assert q[i] in q;
      var l :| l in lanes && l in m && q[i] in m[l];
      assert Apart(m[l], m[k]);
    }
  }

  lemma GathersMore(m: Queues, lanes: set<StreamKey>, q: Queue, k: StreamKey, r: Queue)
    requires Gathers(m, lanes, q) && k in m && multiset(r) == multiset(q) + multiset(m[k])
    ensures Gathers(m, lanes + {k}, r)
  {
    forall x | x in r ensures exists j :: j in lanes + {k} && j in m && x in m[j] {
      assert x in multiset(r);
      if x in m[k] {
        assert k in lanes + {k};
      } else {
        assert x in multiset(q) && x in q;
        var j :| j in lanes && j in m && x in m[j];
        assert j in lanes + {k};
      }
    }
    forall j, x | j in lanes + {k} && j in m && x in m[j] ensures x in r {
      if j == k {
        assert x in multiset(m[k]);
      } else {
        assert j in lanes && x in q;
        assert x in multiset(q);
      }
      assert x in multiset(r);
    }
  }

  lemma GathersAll(s: State, m: Queues, q: Queue)
    requires Mergeable(s, m) && Sorted(s, q) && Gathers(m, m.Keys, q)
    ensures q == Merge(s, m)
  {
    hide Sorted;
    forall x | x in q ensures InLane(m, x) {
    }
    assert Merges(s, m, q);
    MergeCorrect(s, m, One);
    MergesUnique(s, m, q, Merge(s, m));
  }

  /** Packet, payload and retained counts of a list. */
  method Measure(q: Queue) returns (counts: Counts)
    ensures counts == Counts(|q|, SeqWeight(q, Payload), SeqWeight(q, Retained))
  {
    counts := Counts(0, 0, 0);
    var i := 0;
    assert q[..0] == [] && q[..|q|] == q;
    while i < |q|
      invariant i <= |q| && counts == Counts(i, SeqWeight(q[..i], Payload), SeqWeight(q[..i], Retained))
    {
      SnocWeight(q, i, Payload);
      SnocWeight(q, i, Retained);
      counts := Counts(counts.packets + 1, counts.payload + q[i].packet.retained, counts.retained + q[i].retained);
      i := i + 1;
    }
  }

  lemma SnocWeight(q: Queue, i: nat, w: Queued -> nat)
    requires i < |q|
    ensures SeqWeight(q[..i + 1], w) == SeqWeight(q[..i], w) + w(q[i])
  {
    LastWeight(q[..i + 1], w);
    assert q[..i + 1][..i] == q[..i];
  }

  /** The shifted fronts of the kept lanes open the live epoch. */
  lemma BuiltFrom(c: Config, s: State, offsets: map<StreamKey, i64>, bound: nat)
    requires Ok(c, s, bound)
    ensures var kept := KeptQueues(c, s, LiveCut(s));
            && Keyed(QueueFronts(kept)) && (forall k :: k in kept ==> kept[k] != [])
            && (UnifiedOffsets(s, QueueFronts(kept), 0).None? ==> BuildPending(c, s).None?)
            && (UnifiedOffsets(s, QueueFronts(kept), 0) == Some(offsets) ==>
                  var s1 := s.(offsets := offsets);
                  if AllOrdered(s1, kept) then
                    && Mergeable(s1, kept)
                    && BuildPending(c, s) == Some(s1.(queues := map[], pending := Merge(s1, kept), active := {},
                                                     latest := map[], seen := map[]))
                  else BuildPending(c, s).None?)
  {
    hide UnifiedOffsets, LiveCut, AllOrdered, Merge, Mergeable, Ok;
    var kept := KeptQueues(c, s, LiveCut(s));
    var s1 := s.(offsets := offsets);
    if AllOrdered(s1, kept) {
      KeptMergeable(c, s, s1, LiveCut(s), bound);
    }
    KeptKeyed(c, s, LiveCut(s), bound);
  }

  lemma KeptKeyed(c: Config, s: State, cut: Option<i64>, bound: nat)
    requires Ok(c, s, bound)
    ensures var kept := KeptQueues(c, s, cut);
            Keyed(QueueFronts(kept)) && forall k :: k in kept ==> kept[k] != []
  {
    hide KeptFrom;
    var kept: Queues := KeptQueues(c, s, cut);
    forall k: StreamKey | k in kept ensures kept[k] != [] && kept[k][0].packet.stream == k {
      assert LaneOk(c, k, s.queues[k], bound, s.lastObserved);
    }
  }
}
