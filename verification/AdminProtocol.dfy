/**
 The same operations as concurrent transactions: read the administrator ids, lock those
 rows and the target in ascending id, re-read and check, write and commit.  Statements
 see what is committed; row locks are held to the end of the transaction.
 */
module AdminProtocol {
  import opened Wrappers
  import opened UserAdmin

  datatype Phase =
    | Idle
    | Locking(todo: set<nat>, held: set<nat>)
    | Checked(held: set<nat>, row: User)
    | Finished

  datatype Txn = Txn(request: Request, phase: Phase)

  datatype Sys = Sys(users: Users, txns: seq<Txn>)

  datatype Act =
    | Start(i: nat)
    | Lock(i: nat, id: nat)
    | Check(i: nat)
    | Commit(i: nat)

  function Held(p: Phase): set<nat> {
    match p
    case Locking(_, held) => held
    case Checked(held, _) => held
    case _ => {}
  }

  /** Rows a transaction in flight has locked or will lock. */
  function LockList(p: Phase): set<nat> {
    match p
    case Locking(todo, held) => todo + held
    case Checked(held, _) => held
    case _ => {}
  }

  predicate InFlight(p: Phase) {
    p.Locking? || p.Checked?
  }

  predicate IsNextLock(p: Phase, id: nat) {
    p.Locking? && id in p.todo && forall x :: x in p.todo ==> id <= x
  }

  ghost predicate Free(s: Sys, id: nat) {
    forall j :: 0 <= j < |s.txns| ==> id !in Held(s.txns[j].phase)
  }

  function SetPhase(s: Sys, i: nat, p: Phase): Sys
    requires i < |s.txns|
  {
    s.(txns := s.txns[i := s.txns[i].(phase := p)])
  }

  /** The administrators read first, and the target, as far as rows exist. */
  function LockRows(users: Users, target: nat): set<nat> {
    (AdminIds(users) + {target}) * users.Keys
  }

  ghost predicate Enabled(s: Sys, a: Act) {
    && a.i < |s.txns|
    && var p := s.txns[a.i].phase;
       match a
       case Start(_) => p == Idle
       case Lock(_, id) => IsNextLock(p, id) && Free(s, id)
       case Check(_) => p.Locking? && p.todo == {}
       case Commit(_) => p.Checked?
  }

  /** A refused check ends the transaction, releasing its locks; a commit writes the row and does so too. */
  function Do(s: Sys, a: Act): Sys
    requires a.i < |s.txns|
  {
    var t := s.txns[a.i];
    match a
    case Start(i) => SetPhase(s, i, Locking(LockRows(s.users, t.request.target), {}))
    case Lock(i, id) =>
      if t.phase.Locking? then SetPhase(s, i, Locking(t.phase.todo - {id}, t.phase.held + {id})) else s
    case Check(i) =>
      (match Decide(s.users, t.request)
       case Ok(row) => SetPhase(s, i, Checked(Held(t.phase), row))
       case Err(_) => SetPhase(s, i, Finished))
    case Commit(i) =>
      if t.phase.Checked? then SetPhase(s.(users := s.users[t.request.target := t.phase.row]), i, Finished) else s
  }

  ghost predicate Init(s: Sys) {
    forall i :: 0 <= i < |s.txns| ==> s.txns[i].phase == Idle
  }

  ghost predicate IsRun(run: seq<Sys>, acts: seq<Act>) {
    && |run| == |acts| + 1 && Init(run[0])
    && forall k :: 0 <= k < |acts| ==> Enabled(run[k], acts[k]) && run[k + 1] == Do(run[k], acts[k])
  }

  // ---------------------------------------------------------------------------
  // Locking
  // ---------------------------------------------------------------------------

  ghost predicate LocksOrdered(s: Sys, i: nat)
    requires i < |s.txns|
  {
    var p := s.txns[i].phase;
    && (p.Locking? ==> forall x, y :: x in p.held && y in p.todo ==> x < y)
    && LockList(p) <= s.users.Keys
    && (p.Locking? && s.txns[i].request.target in s.users ==> s.txns[i].request.target in LockList(p))
  }

  /** No row has two holders, and every transaction holds smaller ids than it still waits for. */
  ghost predicate LockInv(s: Sys) {
    && (forall i, j :: 0 <= i < j < |s.txns| ==> Held(s.txns[i].phase) !! Held(s.txns[j].phase))
    && (forall i: nat :: i < |s.txns| ==> LocksOrdered(s, i))
  }

  /** A checked row belongs to a locked target, whose committed row has not changed since. */
  ghost predicate CheckedInv(s: Sys, i: nat)
    requires i < |s.txns|
  {
    var t := s.txns[i];
    t.phase.Checked? ==> t.request.target in t.phase.held && t.request.target in s.users
  }

  lemma DoKeepsLocks(s: Sys, a: Act)
    requires LockInv(s) && Enabled(s, a) && (forall i: nat :: i < |s.txns| ==> CheckedInv(s, i))
    ensures LockInv(Do(s, a)) && forall i: nat :: i < |s.txns| ==> CheckedInv(Do(s, a), i)
  {
    var s' := Do(s, a);
    assert LocksOrdered(s, a.i) && CheckedInv(s, a.i);
    forall i: nat | i < |s'.txns| ensures LocksOrdered(s', i) && CheckedInv(s', i) {
      assert LocksOrdered(s, i) && CheckedInv(s, i);
    }
    forall i, j | 0 <= i < j < |s'.txns| ensures Held(s'.txns[i].phase) !! Held(s'.txns[j].phase) {
      assert Held(s.txns[i].phase) !! Held(s.txns[j].phase);
    }
  }

  /** `i` waits for a row that `j` holds. */
  ghost predicate WaitsFor(s: Sys, i: nat, j: nat) {
    && i < |s.txns| && j < |s.txns|
    && exists id: nat :: IsNextLock(s.txns[i].phase, id) && id in Held(s.txns[j].phase)
  }

  /** The row a transaction waits for. */
  ghost function Wanting(p: Phase): (id: nat)
    requires p.Locking? && p.todo != {}
    ensures IsNextLock(p, id)
  {
    Minimum(p.todo);
    var id: nat :| id in p.todo && forall y :: y in p.todo ==> id <= y;
    id
  }

  lemma {:induction false} Minimum(s: set<nat>)
    requires s != {}
    ensures exists x: nat :: x in s && forall y :: y in s ==> x <= y
  {
    var x: nat :| x in s;
    var rest := s - {x};
    var least: nat := x;
    if rest != {} {
      Minimum(rest);
      var m: nat :| m in rest && forall y :: y in rest ==> m <= y;
      least := if x < m then x else m;
    }
    forall y | y in s ensures least <= y {
      assert y == x || y in rest;
    }
  }

  /** A chain of waiting transactions waits for larger and larger rows. */
  lemma {:induction false} WaitingChainAscends(s: Sys, chain: seq<nat>, k: nat)
    requires LockInv(s) && 0 < k < |chain|
    requires forall m :: 0 <= m < k ==> WaitsFor(s, chain[m], chain[m + 1])
    requires chain[k] < |s.txns| && s.txns[chain[k]].phase.Locking? && s.txns[chain[k]].phase.todo != {}
    ensures chain[0] < |s.txns| && s.txns[chain[0]].phase.Locking? && s.txns[chain[0]].phase.todo != {}
    ensures Wanting(s.txns[chain[0]].phase) < Wanting(s.txns[chain[k]].phase)
  {
    var i, j := chain[k - 1], chain[k];
    assert WaitsFor(s, i, chain[k - 1 + 1]);
    var id: nat :| IsNextLock(s.txns[i].phase, id) && id in Held(s.txns[j].phase);
    assert LocksOrdered(s, j);
    assert Wanting(s.txns[i].phase) == id < Wanting(s.txns[j].phase);
    if k > 1 {
      WaitingChainAscends(s, chain, k - 1);
    }
  }

  /** Locking in ascending id rules out circular waiting, for cycles of every length. */
  lemma NoCircularWait(s: Sys, cycle: seq<nat>)
    requires LockInv(s) && |cycle| > 0
    requires forall m :: 0 <= m < |cycle| - 1 ==> WaitsFor(s, cycle[m], cycle[m + 1])
    ensures !WaitsFor(s, cycle[|cycle| - 1], cycle[0])
  {
    var last := |cycle| - 1;
    if WaitsFor(s, cycle[last], cycle[0]) {
      var closed := cycle + [cycle[0]];
      forall m | 0 <= m < |cycle| ensures WaitsFor(s, closed[m], closed[m + 1]) {
        if m < last {
          assert WaitsFor(s, cycle[m], cycle[m + 1]);
        }
      }
      assert WaitsFor(s, closed[0], closed[1]);
      WaitingChainAscends(s, closed, |cycle|);
    }
  }

  /** Every unfinished transaction can act or waits, through others, for one that can. */
  lemma {:induction false} SomeoneCanAct(s: Sys, i: nat, bound: nat) returns (a: Act)
    requires LockInv(s) && i < |s.txns| && s.txns[i].phase != Finished
    requires forall id :: id in s.users ==> id < bound
    ensures Enabled(s, a)
    decreases if s.txns[i].phase.Locking? && s.txns[i].phase.todo != {} then bound - Wanting(s.txns[i].phase) else 0
  {
    var p := s.txns[i].phase;
    assert LocksOrdered(s, i);
    match p
    case Idle => a := Start(i);
    case Checked(_, _) => a := Commit(i);
    case Locking(todo, held) =>
      if todo == {} {
        a := Check(i);
      } else {
        var id := Wanting(p);
        assert id in s.users;
        if Free(s, id) {
          a := Lock(i, id);
        } else {
          var j: nat :| j < |s.txns| && id in Held(s.txns[j].phase);
          assert LocksOrdered(s, j);
          a := SomeoneCanAct(s, j, bound);
        }
      }
  }

  lemma {:induction false} LocksAlwaysHold(run: seq<Sys>, acts: seq<Act>, k: nat)
    requires IsRun(run, acts) && k <= |acts|
    ensures LockInv(run[k]) && forall i: nat :: i < |run[k].txns| ==> CheckedInv(run[k], i)
  {
    if k > 0 {
      LocksAlwaysHold(run, acts, k - 1);
      assert Enabled(run[k - 1], acts[k - 1]) && run[k - 1 + 1] == Do(run[k - 1], acts[k - 1]);
      DoKeepsLocks(run[k - 1], acts[k - 1]);
    }
  }

  lemma {:induction false} Bounded(s: set<nat>) returns (bound: nat)
    ensures forall x :: x in s ==> x < bound
  {
    if s == {} {
      bound := 0;
    } else {
      var x: nat :| x in s;
      bound := Bounded(s - {x});
      if bound <= x {
        bound := x + 1;
      }
      forall y | y in s ensures y < bound {
        assert y == x || y in s - {x};
      }
    }
  }

  /** No reachable state is a deadlock: while a transaction is unfinished, some act is enabled. */
  lemma NoDeadlock(run: seq<Sys>, acts: seq<Act>, k: nat, i: nat)
    requires IsRun(run, acts) && k <= |acts| && i < |run[k].txns| && run[k].txns[i].phase != Finished
    ensures exists a :: Enabled(run[k], a)
  {
    LocksAlwaysHold(run, acts, k);
    var bound := Bounded(run[k].users.Keys);
    var a := SomeoneCanAct(run[k], i, bound);
  }

  // ---------------------------------------------------------------------------
  // Safety
  // ---------------------------------------------------------------------------

  /** Any two transactions in flight want a common row, so only one of them can have it. */
  ghost predicate LockListsMeet(s: Sys) {
    forall i, j :: 0 <= i < j < |s.txns| && InFlight(s.txns[i].phase) && InFlight(s.txns[j].phase) ==>
      exists id :: id in LockList(s.txns[i].phase) && id in LockList(s.txns[j].phase)
  }

  /** The committed table keeps an administrator whichever checked transaction commits next. */
  ghost predicate Safe(s: Sys) {
    && AdminIds(s.users) != {}
    && forall i: nat :: i < |s.txns| && s.txns[i].phase.Checked? ==>
         AdminIds(s.users[s.txns[i].request.target := s.txns[i].phase.row]) != {}
  }

  ghost predicate Inv(s: Sys) {
    LockInv(s) && Safe(s) && forall i: nat :: i < |s.txns| ==> CheckedInv(s, i)
  }

  /** Overlapping lock lists leave at most one transaction between its check and its commit. */
  lemma OneChecked(s: Sys, i: nat, j: nat)
    requires LockInv(s) && LockListsMeet(s) && i < |s.txns| && j < |s.txns|
    requires s.txns[i].phase.Checked? && s.txns[j].phase.Checked?
    ensures i == j
  {
    var mine, theirs := Held(s.txns[i].phase), Held(s.txns[j].phase);
  }

  lemma DoKeepsSafe(s: Sys, a: Act)
    requires Inv(s) && Enabled(s, a) && LockListsMeet(Do(s, a)) && LockListsMeet(s)
    ensures Inv(Do(s, a))
  {
    var s' := Do(s, a);
    DoKeepsLocks(s, a);
    forall i: nat | i < |s'.txns| && s'.txns[i].phase.Checked?
      ensures AdminIds(s'.users[s'.txns[i].request.target := s'.txns[i].phase.row]) != {}
    {
      assert CheckedInv(s', i);
      if a.Commit? {
        OneChecked(s, a.i, i);
      } else if a.Check? && i == a.i {
        ApplyKeepsAdmin(s.users, s.txns[i].request);
      }
    }
  }

  /**
   At least one effective administrator in every reachable state, for any number of
   transactions, as long as those in flight together want a common row.
   */
  lemma {:induction false} AdminAlwaysRemains(run: seq<Sys>, acts: seq<Act>, k: nat)
    requires IsRun(run, acts) && k <= |acts| && AdminIds(run[0].users) != {}
    requires forall m :: 0 <= m <= k ==> LockListsMeet(run[m])
    ensures Inv(run[k]) && AdminIds(run[k].users) != {}
  {
    if k > 0 {
      AdminAlwaysRemains(run, acts, k - 1);
      assert Enabled(run[k - 1], acts[k - 1]) && run[k - 1 + 1] == Do(run[k - 1], acts[k - 1]);
      DoKeepsSafe(run[k - 1], acts[k - 1]);
    }
  }

  /** A commit that makes its target an administrator who was not one. */
  ghost predicate Promotes(s: Sys, a: Act) {
    && a.Commit? && a.i < |s.txns| && s.txns[a.i].phase.Checked?
    && EffectiveAdmin(s.txns[a.i].phase.row) && s.txns[a.i].request.target !in AdminIds(s.users)
  }

  /** The promoted user is already on the lock list of every other transaction in flight. */
  ghost predicate PromotionSeen(s: Sys, a: Act) {
    Promotes(s, a) ==> forall j :: 0 <= j < |s.txns| && j != a.i && InFlight(s.txns[j].phase) ==>
      s.txns[a.i].request.target in LockList(s.txns[j].phase)
  }

  /** Every transaction in flight has all present administrators on its lock list. */
  ghost predicate ListsCoverAdmins(s: Sys) {
    forall j :: 0 <= j < |s.txns| && InFlight(s.txns[j].phase) ==> AdminIds(s.users) <= LockList(s.txns[j].phase)
  }

  lemma CoverMeansMeet(s: Sys)
    requires ListsCoverAdmins(s) && AdminIds(s.users) != {}
    ensures LockListsMeet(s)
  {
    var w :| w in AdminIds(s.users);
    forall i, j | 0 <= i < j < |s.txns| && InFlight(s.txns[i].phase) && InFlight(s.txns[j].phase)
      ensures exists id :: id in LockList(s.txns[i].phase) && id in LockList(s.txns[j].phase)
    {
      assert w in LockList(s.txns[i].phase) && w in LockList(s.txns[j].phase);
    }
  }

  lemma DoKeepsCover(s: Sys, a: Act)
    requires Inv(s) && ListsCoverAdmins(s) && Enabled(s, a) && PromotionSeen(s, a)
    ensures ListsCoverAdmins(Do(s, a))
  {
    var s' := Do(s, a);
    assert CheckedInv(s, a.i) && LocksOrdered(s, a.i);
    if a.Commit? {
      AdminsAfter(s.users, s.txns[a.i].request.target, s.txns[a.i].phase.row);
    }
    forall j | 0 <= j < |s'.txns| && InFlight(s'.txns[j].phase)
      ensures AdminIds(s'.users) <= LockList(s'.txns[j].phase)
    {
      if j != a.i {
        assert AdminIds(s.users) <= LockList(s.txns[j].phase);
      }
    }
  }

  /**
   The same without reference to lock lists in between: it is enough that no user becomes
   an administrator unseen by a transaction between its first read and its end.
   */
  lemma {:induction false} AdminRemainsWithoutUnseenPromotion(run: seq<Sys>, acts: seq<Act>, k: nat)
    requires IsRun(run, acts) && k <= |acts| && AdminIds(run[0].users) != {}
    requires forall m :: 0 <= m < k ==> PromotionSeen(run[m], acts[m])
    ensures Inv(run[k]) && ListsCoverAdmins(run[k]) && AdminIds(run[k].users) != {}
  {
    if k > 0 {
      AdminRemainsWithoutUnseenPromotion(run, acts, k - 1);
      var s, a := run[k - 1], acts[k - 1];
      assert Enabled(s, a) && run[k - 1 + 1] == Do(s, a) && PromotionSeen(s, a);
      DoKeepsCover(s, a);
      CoverMeansMeet(s);
      CommitKeepsSomeAdmin(s, a);
      CoverMeansMeet(Do(s, a));
      DoKeepsSafe(s, a);
    }
  }

  lemma CommitKeepsSomeAdmin(s: Sys, a: Act)
    requires Inv(s) && Enabled(s, a)
    ensures AdminIds(Do(s, a).users) != {}
  {
  }

  // ---------------------------------------------------------------------------
  // What a commit carries out
  // ---------------------------------------------------------------------------

  /** A checked transaction will write what its request asks of the present row, and is no owner's disabling. */
  ghost predicate CheckedRow(s: Sys, i: nat)
    requires i < |s.txns|
  {
    var t := s.txns[i];
    t.phase.Checked? ==>
      && t.request.target in t.phase.held && t.request.target in s.users
      && t.phase.row == Wanted(s.users, t.request) && !DisablesItself(s.users, t.request)
  }

  lemma CheckAsks(users: Users, r: Request)
    requires Decide(users, r).Ok?
    ensures r.target in users && Decide(users, r) == Ok(Wanted(users, r)) && !DisablesItself(users, r)
  {
    OwnAccountRefusedIff(users, r);
    RefusedIffLastAdmin(users, r);
  }

  lemma DoKeepsCheckedRow(s: Sys, a: Act, i: nat)
    requires LockInv(s) && Enabled(s, a) && i < |s.txns| && CheckedInv(s, a.i)
    requires CheckedRow(s, i) && CheckedRow(s, a.i)
    ensures CheckedRow(Do(s, a), i)
  {
    assert LocksOrdered(s, i);
    if a.Check? && a.i == i && Decide(s.users, s.txns[i].request).Ok? {
      CheckAsks(s.users, s.txns[i].request);
    }
    if a.Commit? && a.i != i && s.txns[i].phase.Checked? {
      assert Held(s.txns[a.i].phase) !! Held(s.txns[i].phase);
    }
  }

  lemma {:induction false} RowsStayAsked(run: seq<Sys>, acts: seq<Act>, k: nat, i: nat)
    requires IsRun(run, acts) && k <= |acts| && i < |run[k].txns|
    ensures CheckedRow(run[k], i)
  {
    if k > 0 {
      var s, a := run[k - 1], acts[k - 1];
      assert Enabled(s, a) && run[k - 1 + 1] == Do(s, a);
      LocksAlwaysHold(run, acts, k - 1);
      RowsStayAsked(run, acts, k - 1, i);
      RowsStayAsked(run, acts, k - 1, a.i);
      DoKeepsCheckedRow(s, a, i);
    }
  }

  /** In every run a commit changes its target's row only, to what its request asks of the row as it is then. */
  lemma CommitCarriesOut(run: seq<Sys>, acts: seq<Act>, k: nat)
    requires IsRun(run, acts) && k < |acts|
    ensures acts[k].Commit? ==>
      && acts[k].i < |run[k].txns| && run[k].txns[acts[k].i].request.target in run[k].users
      && var r := run[k].txns[acts[k].i].request;
         run[k + 1].users == run[k].users[r.target := Wanted(run[k].users, r)]
    ensures !acts[k].Commit? ==> run[k + 1].users == run[k].users
  {
    assert Enabled(run[k], acts[k]) && run[k + 1] == Do(run[k], acts[k]);
    RowsStayAsked(run, acts, k, acts[k].i);
  }

  /** In every run an account is disabled only by the commit of a toggle that somebody else asked for. */
  lemma DisabledBySomebodyElse(run: seq<Sys>, acts: seq<Act>, k: nat, id: nat)
    requires IsRun(run, acts) && k < |acts| && id in run[k].users && run[k].users[id].active
    ensures id in run[k + 1].users
    ensures !run[k + 1].users[id].active ==>
      && acts[k].Commit? && acts[k].i < |run[k].txns|
      && var r := run[k].txns[acts[k].i].request;
         r.ToggleActive? && r.target == id && r.actor != Some(id)
  {
    CommitCarriesOut(run, acts, k);
    RowsStayAsked(run, acts, k, acts[k].i);
    assert Enabled(run[k], acts[k]) && run[k + 1] == Do(run[k], acts[k]);
  }

  // ---------------------------------------------------------------------------
  // A transaction left alone is the sequential operation
  // ---------------------------------------------------------------------------

  ghost predicate IsPath(run: seq<Sys>, acts: seq<Act>) {
    && |run| == |acts| + 1
    && forall k :: 0 <= k < |acts| ==> Enabled(run[k], acts[k]) && run[k + 1] == Do(run[k], acts[k])
  }

  ghost predicate Leads(s: Sys, s': Sys) {
    exists run, acts :: IsPath(run, acts) && run[0] == s && run[|acts|] == s'
  }

  lemma LeadsSelf(s: Sys)
    ensures Leads(s, s)
  {
    var run, acts: seq<Act> := [s], [];
    assert IsPath(run, acts) && run[0] == s && run[|acts|] == s;
  }

  lemma LeadsAct(s: Sys, s': Sys, a: Act)
    requires Leads(s, s') && Enabled(s', a)
    ensures Leads(s, Do(s', a))
  {
    var run, acts :| IsPath(run, acts) && run[0] == s && run[|acts|] == s';
    var run', acts' := run + [Do(s', a)], acts + [a];
    forall k | 0 <= k < |acts'| ensures Enabled(run'[k], acts'[k]) && run'[k + 1] == Do(run'[k], acts'[k]) {
      if k < |acts| {
        assert Enabled(run[k], acts[k]) && run[k + 1] == Do(run[k], acts[k]);
      }
    }
    assert IsPath(run', acts') && run'[0] == s && run'[|acts'|] == Do(s', a);
  }

  ghost predicate NobodyHolds(s: Sys, except: nat) {
    forall j :: 0 <= j < |s.txns| && j != except ==> Held(s.txns[j].phase) == {}
  }

  lemma {:induction false} LocksAllAlone(s0: Sys, s: Sys, i: nat)
    requires Leads(s0, s) && i < |s.txns| && s.txns[i].phase.Locking? && NobodyHolds(s, i)
    requires s.txns[i].phase.todo !! s.txns[i].phase.held
    ensures
      var p := s.txns[i].phase;
      Leads(s0, SetPhase(s, i, Locking({}, p.todo + p.held)))
    decreases s.txns[i].phase.todo
  {
    var p := s.txns[i].phase;
    if p.todo == {} {
      assert p.todo + p.held == p.held;
      assert s.txns[i := s.txns[i].(phase := p)] == s.txns;
    } else {
      var id := Wanting(p);
      var a := Lock(i, id);
      LeadsAct(s0, s, a);
      var s' := Do(s, a);
      LocksAllAlone(s0, s', i);
      assert p.todo - {id} + (p.held + {id}) == p.todo + p.held;
      assert SetPhase(s', i, Locking({}, p.todo + p.held)) == SetPhase(s, i, Locking({}, p.todo + p.held));
    }
  }

  /** While nobody else holds a row, a transaction can run through and has the effect of the sequential operation. */
  lemma AloneIsSequential(s0: Sys, s: Sys, i: nat)
    requires Leads(s0, s) && i < |s.txns| && s.txns[i].phase == Idle && NobodyHolds(s, i)
    ensures Leads(s0, SetPhase(s.(users := Apply(s.users, s.txns[i].request)), i, Finished))
  {
    var r := s.txns[i].request;
    LeadsAct(s0, s, Start(i));
    var s1 := Do(s, Start(i));
    LocksAllAlone(s0, s1, i);
    var rows := LockRows(s.users, r.target);
    var s2 := SetPhase(s1, i, Locking({}, rows + {}));
    LeadsAct(s0, s2, Check(i));
    var s3 := Do(s2, Check(i));
    var s4 := SetPhase(s.(users := Apply(s.users, r)), i, Finished);
    if Decide(s.users, r).Ok? {
      LeadsAct(s0, s3, Commit(i));
      assert Do(s3, Commit(i)) == s4;
    } else {
      assert s3 == s4;
    }
  }

  // ---------------------------------------------------------------------------
  // The condition is needed
  // ---------------------------------------------------------------------------

  const ON := User(true, false, Admin)
  const OFF := User(false, false, Admin)

  /** Five toggles, of users 1, 2, 1, 2 and 1. */
  ghost function Five(users: Users, a: Phase, b: Phase, c: Phase, d: Phase, e: Phase): Sys {
    Sys(users, [Txn(ToggleActive(1, None), a), Txn(ToggleActive(2, None), b), Txn(ToggleActive(1, None), c),
                Txn(ToggleActive(2, None), d), Txn(ToggleActive(1, None), e)])
  }

  const ON_OFF: Users := map[1 := ON, 2 := OFF]
  const ON_ON: Users := map[1 := ON, 2 := ON]
  const OFF_ON: Users := map[1 := OFF, 2 := ON]

  lemma ToggleEffects()
    ensures AdminIds(ON_OFF) == {1} && AdminIds(OFF_ON) == {2} && AdminIds(ON_ON) == {1, 2}
    ensures Apply(ON_OFF, ToggleActive(2, None)) == ON_ON
    ensures Decide(ON_ON, ToggleActive(1, None)) == Ok(OFF) && Decide(ON_ON, ToggleActive(2, None)) == Ok(OFF)
    ensures Apply(ON_ON, ToggleActive(1, None)) == OFF_ON
    ensures Apply(OFF_ON, ToggleActive(1, None)) == ON_ON
    ensures LockRows(ON_OFF, 1) == {1} && LockRows(OFF_ON, 2) == {2}
  {
    assert AdminIds(ON_ON) == {1, 2};
    assert {1, 2} - {1} == {2} && {1, 2} - {2} == {1};
    assert ON_OFF[2 := ON] == ON_ON;
    assert ON_ON[1 := OFF] == OFF_ON;
    assert OFF_ON[1 := ON] == ON_ON;
  }

  lemma FirstReads(s: Sys)
    requires s == Five(ON_OFF, Idle, Idle, Idle, Idle, Idle)
    ensures Leads(s, Five(ON_OFF, Locking({1}, {}), Idle, Idle, Idle, Idle))
  {
    ToggleEffects();
    LeadsSelf(s);
    LeadsAct(s, s, Start(0));
    assert Do(s, Start(0)) == Five(ON_OFF, Locking({1}, {}), Idle, Idle, Idle, Idle);
  }

  lemma SecondToggles(s: Sys, s1: Sys)
    requires Leads(s, s1) && s1 == Five(ON_OFF, Locking({1}, {}), Idle, Idle, Idle, Idle)
    ensures Leads(s, Five(ON_ON, Locking({1}, {}), Finished, Idle, Idle, Idle))
  {
    ToggleEffects();
    AloneIsSequential(s, s1, 1);
    assert SetPhase(s1.(users := ON_ON), 1, Finished) == Five(ON_ON, Locking({1}, {}), Finished, Idle, Idle, Idle);
  }

  lemma ThirdToggles(s: Sys, s2: Sys)
    requires Leads(s, s2) && s2 == Five(ON_ON, Locking({1}, {}), Finished, Idle, Idle, Idle)
    ensures Leads(s, Five(OFF_ON, Locking({1}, {}), Finished, Finished, Idle, Idle))
  {
    ToggleEffects();
    AloneIsSequential(s, s2, 2);
    assert SetPhase(s2.(users := OFF_ON), 2, Finished)
        == Five(OFF_ON, Locking({1}, {}), Finished, Finished, Idle, Idle);
  }

  lemma FourthStarts(s: Sys, s3: Sys)
    requires Leads(s, s3) && s3 == Five(OFF_ON, Locking({1}, {}), Finished, Finished, Idle, Idle)
    ensures Leads(s, Five(OFF_ON, Locking({1}, {}), Finished, Finished, Locking({2}, {}), Idle))
  {
    ToggleEffects();
    LeadsAct(s, s3, Start(3));
    assert Do(s3, Start(3)) == Five(OFF_ON, Locking({1}, {}), Finished, Finished, Locking({2}, {}), Idle);
  }

  /** So the first and the fourth read while users 1 and 2 respectively were the only administrator. */
  lemma FourthReads(s: Sys, s3: Sys)
    requires Leads(s, s3) && s3 == Five(OFF_ON, Locking({1}, {}), Finished, Finished, Idle, Idle)
    ensures Leads(s, Five(ON_ON, Locking({1}, {}), Finished, Finished, Locking({2}, {}), Finished))
  {
    ToggleEffects();
    FourthStarts(s, s3);
    var s4 := Five(OFF_ON, Locking({1}, {}), Finished, Finished, Locking({2}, {}), Idle);
    AloneIsSequential(s, s4, 4);
    assert SetPhase(s4.(users := ON_ON), 4, Finished)
        == Five(ON_ON, Locking({1}, {}), Finished, Finished, Locking({2}, {}), Finished);
  }

  /** Locking the last row of a list, when nobody else holds it. */
  lemma LocksOne(s0: Sys, s: Sys, i: nat, id: nat)
    requires Leads(s0, s) && i < |s.txns| && s.txns[i].phase == Locking({id}, {}) && Free(s, id)
    ensures Leads(s0, SetPhase(s, i, Locking({}, {id})))
  {
    LeadsAct(s0, s, Lock(i, id));
    assert {id} - {id} == {} && {} + {id} == {id};
  }

  lemma FirstLocks(s: Sys, mid: Sys)
    requires Leads(s, mid) && mid == Five(ON_ON, Locking({1}, {}), Finished, Finished, Locking({2}, {}), Finished)
    ensures Leads(s, Five(ON_ON, Locking({}, {1}), Finished, Finished, Locking({2}, {}), Finished))
  {
    LocksOne(s, mid, 0, 1);
    assert SetPhase(mid, 0, Locking({}, {1}))
      == Five(ON_ON, Locking({}, {1}), Finished, Finished, Locking({2}, {}), Finished);
  }

  lemma FourthLocks(s: Sys, s1: Sys)
    requires Leads(s, s1) && s1 == Five(ON_ON, Locking({}, {1}), Finished, Finished, Locking({2}, {}), Finished)
    ensures Leads(s, Five(ON_ON, Locking({}, {1}), Finished, Finished, Locking({}, {2}), Finished))
  {
    LocksOne(s, s1, 3, 2);
    assert SetPhase(s1, 3, Locking({}, {2}))
      == Five(ON_ON, Locking({}, {1}), Finished, Finished, Locking({}, {2}), Finished);
  }

  /** Both then find the other's target still administrator, and both commit. */
  lemma BothCheck(s: Sys, s2: Sys)
    requires Leads(s, s2) && s2 == Five(ON_ON, Locking({}, {1}), Finished, Finished, Locking({}, {2}), Finished)
    ensures Leads(s, Five(ON_ON, Checked({1}, OFF), Finished, Finished, Checked({2}, OFF), Finished))
  {
    ToggleEffects();
    LeadsAct(s, s2, Check(0));
    var s3 := Five(ON_ON, Checked({1}, OFF), Finished, Finished, Locking({}, {2}), Finished);
    assert Do(s2, Check(0)) == s3;
    LeadsAct(s, s3, Check(3));
    assert Do(s3, Check(3)) == Five(ON_ON, Checked({1}, OFF), Finished, Finished, Checked({2}, OFF), Finished);
  }

  lemma BothCommit(s: Sys, mid: Sys) returns (s': Sys)
    requires Leads(s, mid) && mid == Five(ON_ON, Checked({1}, OFF), Finished, Finished, Checked({2}, OFF), Finished)
    ensures Leads(s, s') && AdminIds(s'.users) == {}
  {
    LeadsAct(s, mid, Commit(0));
    var s1 := Five(OFF_ON, Finished, Finished, Finished, Checked({2}, OFF), Finished);
    assert ON_ON[1 := OFF] == OFF_ON;
    assert Do(mid, Commit(0)) == s1;
    LeadsAct(s, s1, Commit(3));
    s' := Do(s1, Commit(3));
    assert s'.users == OFF_ON[2 := OFF];
  }

  lemma RunToTheLoss(s: Sys) returns (s': Sys)
    requires s == Five(ON_OFF, Idle, Idle, Idle, Idle, Idle)
    ensures Leads(s, s') && AdminIds(s'.users) == {}
  {
    FirstReads(s);
    SecondToggles(s, Five(ON_OFF, Locking({1}, {}), Idle, Idle, Idle, Idle));
    ThirdToggles(s, Five(ON_ON, Locking({1}, {}), Finished, Idle, Idle, Idle));
    FourthReads(s, Five(OFF_ON, Locking({1}, {}), Finished, Finished, Idle, Idle));
    FirstLocks(s, Five(ON_ON, Locking({1}, {}), Finished, Finished, Locking({2}, {}), Finished));
    FourthLocks(s, Five(ON_ON, Locking({}, {1}), Finished, Finished, Locking({2}, {}), Finished));
    BothCheck(s, Five(ON_ON, Locking({}, {1}), Finished, Finished, Locking({}, {2}), Finished));
    s' := BothCommit(s, Five(ON_ON, Checked({1}, OFF), Finished, Finished, Checked({2}, OFF), Finished));
  }

  /**
   The condition on promotions is needed: two transactions whose first reads saw different
   administrators each take the other's target for the one that remains, and leave none.
   */
  lemma UnseenPromotionsLoseTheLastAdmin()
    ensures exists s, s' :: Init(s) && AdminIds(s.users) == {1} && Leads(s, s') && AdminIds(s'.users) == {}
  {
    ToggleEffects();
    var s := Five(ON_OFF, Idle, Idle, Idle, Idle, Idle);
    var s' := RunToTheLoss(s);
    assert Init(s) && AdminIds(s.users) == {1};
  }
}
