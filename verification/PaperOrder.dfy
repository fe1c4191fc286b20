/** When the paper counters depend on which observations were made, and not on their order or repetition. */
module PaperOrder {
  import opened PaperLedger
  import opened PaperRuns

  /** The records after observing `snaps` in turn. */
  ghost function RecordedBy(snaps: seq<Snapshot>): Records {
    if snaps == [] then map[]
    else
      var m, s := RecordedBy(snaps[..|snaps| - 1]), snaps[|snaps| - 1];
      if s.key in m then m else m[s.key := s]
  }

  ghost function Seen(snaps: seq<Snapshot>): set<Snapshot> {
    set s | s in snaps
  }

  /** The snapshots observed by the first `k` operations. */
  ghost function Snapshots(ops: seq<Op>, k: nat): seq<Snapshot>
    requires k <= |ops|
  {
    if k == 0 then []
    else Snapshots(ops, k - 1) + if ops[k - 1].Observe? then [ops[k - 1].snap] else []
  }

  lemma StepRecords(w: World, op: Op)
    ensures Step(w, op).records
         == if op.Observe? && op.snap.key !in w.records then w.records[op.snap.key := op.snap] else w.records
  {
  }

  lemma RecordedNext(snaps: seq<Snapshot>, s: Snapshot)
    ensures
      var m := RecordedBy(snaps);
      RecordedBy(snaps + [s]) == if s.key in m then m else m[s.key := s]
  {
    assert (snaps + [s])[..|snaps|] == snaps;
  }

  lemma {:induction false} RunRecords(run: seq<World>, ops: seq<Op>, k: nat)
    requires IsRun(run, ops) && k <= |ops|
    ensures run[k].records == RecordedBy(Snapshots(ops, k))
  {
    if k > 0 {
      RunRecords(run, ops, k - 1);
      var w, op := run[k - 1], ops[k - 1];
      assert run[k - 1 + 1] == Step(w, op);
      StepRecords(w, op);
      if op.Observe? {
        RecordedNext(Snapshots(ops, k - 1), op.snap);
      } else {
        assert Snapshots(ops, k) == Snapshots(ops, k - 1);
      }
    }
  }

  /** Whatever interruptions, audits and idle cycles come in between, the counters are those of the observations. */
  lemma RunTally(run: seq<World>, ops: seq<Op>, k: nat)
    requires IsRun(run, ops) && k <= |ops|
    ensures run[k].row.tally == TallyOf(RecordedBy(Snapshots(ops, k)))
  {
    RunIsConsistent(run, ops, k);
    RunRecords(run, ops, k);
  }

  lemma {:induction false} RecordedFromSeen(snaps: seq<Snapshot>)
    ensures
      var m := RecordedBy(snaps);
      && (forall k :: k in m ==> m[k] in snaps && m[k].key == k)
      && (forall s :: s in snaps ==> s.key in m)
  {
    if snaps != [] {
      var n := |snaps| - 1;
      RecordedFromSeen(snaps[..n]);
      assert snaps == snaps[..n] + [snaps[n]];
    }
  }

  /** Snapshots of one fingerprint count alike: the later ones found the entry and the exit the first found. */
  ghost predicate Coherent(seen: set<Snapshot>) {
    forall a, b :: a in seen && b in seen && a.key == b.key ==> CountAlike(a, b)
  }

  predicate CountAlike(a: Snapshot, b: Snapshot) {
    && IsNoTrade(a) == IsNoTrade(b) && a.entry.Some? == b.entry.Some? && a.exit.Some? == b.exit.Some?
  }

  lemma CountSame(m: Records, m': Records, p: Snapshot -> bool)
    requires m.Keys == m'.Keys && forall k :: k in m ==> p(m[k]) == p(m'[k])
    ensures Count(m, p) == Count(m', p)
  {
    assert (set k | k in m && p(m[k])) == (set k | k in m' && p(m'[k]));
  }

  lemma TallySame(m: Records, m': Records)
    requires m.Keys == m'.Keys
    requires forall k :: k in m ==> m[k].key == k && m'[k].key == k && CountAlike(m[k], m'[k])
    ensures TallyOf(m) == TallyOf(m')
  {
    CountSame(m, m', BOUGHT);
    CountSame(m, m', SOLD);
    CountSame(m, m', IDLE);
    CountSame(m, m', ENTERED);
    CountSame(m, m', EXITED);
    CountSame(m, m', OPEN);
    assert |m| == |m.Keys| && |m'| == |m'.Keys|;
  }

  ghost function KeysOf(snaps: seq<Snapshot>): set<Key> {
    set s | s in snaps :: s.key
  }

  lemma {:induction false} RecordedKeys(snaps: seq<Snapshot>)
    ensures RecordedBy(snaps).Keys == KeysOf(snaps)
  {
    if snaps != [] {
      var n := |snaps| - 1;
      RecordedKeys(snaps[..n]);
      assert snaps == snaps[..n] + [snaps[n]];
      assert KeysOf(snaps) == KeysOf(snaps[..n]) + {snaps[n].key};
    }
  }

  /** Evaluated, buy and sell counts depend on the fingerprints alone, whatever the outcomes. */
  lemma FingerprintsDecideSides(snaps: seq<Snapshot>, snaps': seq<Snapshot>)
    requires KeysOf(snaps) == KeysOf(snaps')
    ensures
      var t, t' := TallyOf(RecordedBy(snaps)), TallyOf(RecordedBy(snaps'));
      t.total == t'.total && t.buy == t'.buy && t.sell == t'.sell
  {
    RecordedKeys(snaps);
    RecordedKeys(snaps');
    RecordedFromSeen(snaps);
    RecordedFromSeen(snaps');
    var m, m' := RecordedBy(snaps), RecordedBy(snaps');
    CountSame(m, m', BOUGHT);
    CountSame(m, m', SOLD);
    assert |m| == |m.Keys| && |m'| == |m'.Keys|;
  }

  lemma CoherentTallies(snaps: seq<Snapshot>, snaps': seq<Snapshot>)
    requires Seen(snaps) == Seen(snaps') && Coherent(Seen(snaps))
    ensures TallyOf(RecordedBy(snaps)) == TallyOf(RecordedBy(snaps'))
  {
    RecordedFromSeen(snaps);
    RecordedFromSeen(snaps');
    forall s ensures s in snaps <==> s in snaps' {
      assert s in snaps <==> s in Seen(snaps);
      assert s in snaps' <==> s in Seen(snaps');
    }
    var m, m' := RecordedBy(snaps), RecordedBy(snaps');
    assert m.Keys == m'.Keys;
    forall k | k in m ensures CountAlike(m[k], m'[k]) {
      assert m[k] in Seen(snaps) && m'[k] in Seen(snaps);
    }
    TallySame(m, m');
  }

  /** The first observation of a fingerprint decides its record. */
  lemma {:induction false} FirstWins(s: Snapshot, rest: seq<Snapshot>)
    ensures RecordedBy([s] + rest) == RecordedBy(rest)[s.key := s]
  {
    if rest == [] {
      assert ([s] + rest)[..0] == [];
    } else {
      var n := |rest| - 1;
      assert ([s] + rest)[..|[s] + rest| - 1] == [s] + rest[..n];
      FirstWins(s, rest[..n]);
    }
  }

  lemma {:induction false} Listed(seen: set<Snapshot>) returns (snaps: seq<Snapshot>)
    ensures Seen(snaps) == seen
  {
    if seen == {} {
      snaps := [];
    } else {
      var s :| s in seen;
      snaps := Listed(seen - {s});
      assert Seen(snaps + [s]) == Seen(snaps) + {s};
      snaps := snaps + [s];
    }
  }

  lemma CountedApart(t: Tally, a: Snapshot, b: Snapshot)
    requires !CountAlike(a, b)
    ensures Counted(t, a) != Counted(t, b)
  {
    var ta, tb := Counted(t, a), Counted(t, b);
    assert ta.noTrade == tb.noTrade ==> IsNoTrade(a) == IsNoTrade(b);
    assert ta.positionsOpened == tb.positionsOpened ==> a.entry.Some? == b.entry.Some?;
    assert ta.positionsClosed == tb.positionsClosed ==> a.exit.Some? == b.exit.Some?;
  }

  lemma OthersAdded(rest: seq<Snapshot>, s: Snapshot)
    ensures TallyOf(RecordedBy([s] + rest)) == Counted(TallyOf(RecordedBy(rest) - {s.key}), s)
  {
    var m := RecordedBy(rest);
    FirstWins(s, rest);
    assert (m - {s.key})[s.key := s] == m[s.key := s];
    TallyAdded(m - {s.key}, s);
  }

  lemma ConflictShows(a: Snapshot, b: Snapshot, rest: seq<Snapshot>)
    requires a.key == b.key && !CountAlike(a, b)
    ensures TallyOf(RecordedBy([a] + rest)) != TallyOf(RecordedBy([b] + rest))
  {
    OthersAdded(rest, a);
    OthersAdded(rest, b);
    CountedApart(TallyOf(RecordedBy(rest) - {a.key}), a, b);
  }

  ghost predicate OrderIndependent(seen: set<Snapshot>) {
    forall snaps, snaps' :: Seen(snaps) == seen && Seen(snaps') == seen ==>
      TallyOf(RecordedBy(snaps)) == TallyOf(RecordedBy(snaps'))
  }

  lemma SeenWith(s: Snapshot, rest: seq<Snapshot>)
    requires s in Seen(rest)
    ensures Seen([s] + rest) == Seen(rest)
  {
  }

  lemma CoherentIsIndependent(seen: set<Snapshot>)
    requires Coherent(seen)
    ensures OrderIndependent(seen)
  {
    forall snaps, snaps' | Seen(snaps) == seen && Seen(snaps') == seen
      ensures TallyOf(RecordedBy(snaps)) == TallyOf(RecordedBy(snaps'))
    {
      CoherentTallies(snaps, snaps');
    }
  }

  lemma TalliesDiffer(seen: set<Snapshot>, snaps: seq<Snapshot>, snaps': seq<Snapshot>)
    requires Seen(snaps) == seen && Seen(snaps') == seen && TallyOf(RecordedBy(snaps)) != TallyOf(RecordedBy(snaps'))
    ensures !OrderIndependent(seen)
  {
  }

  lemma ConflictIsDependent(seen: set<Snapshot>, a: Snapshot, b: Snapshot)
    requires a in seen && b in seen && a.key == b.key && !CountAlike(a, b)
    ensures !OrderIndependent(seen)
  {
    var rest := Listed(seen);
    SeenWith(a, rest);
    SeenWith(b, rest);
    ConflictShows(a, b, rest);
    TalliesDiffer(seen, [a] + rest, [b] + rest);
  }

  /**
   All counters depend only on the set of observations, in whatever order and however
   often they were made, exactly when no fingerprint was observed with two outcomes.
   */
  lemma OrderIndependentIff(seen: set<Snapshot>)
    ensures OrderIndependent(seen) <==> Coherent(seen)
  {
    if Coherent(seen) {
      CoherentIsIndependent(seen);
    } else {
      var a, b :| a in seen && b in seen && a.key == b.key && !CountAlike(a, b);
      ConflictIsDependent(seen, a, b);
    }
  }
}
