/** The grants a balance is computed from, as the grants table lists them: what the balance
    theorems ask of their input, every reachable table provides. */
module GrantListing {
  import Ledger
  import Soundness
  import Stateless
  import Sequences
  import opened Tables
  import opened TableInvariants
  import Lifecycle

  /** Row `i` as the ledger sees it: the rollover cap is the entitlement's. */
  function GrantOf(db: Db, i: Id, ent: Id): Ledger.Grant
    requires i < |db.grants| && ent < |db.ents|
  {
    var g := db.grants[i];
    Ledger.Grant(i, g.amount, g.priority, g.effectiveAt, g.expiresAt, db.ents[ent].rolloverMax)
  }

  /** The entitlement's grants not voided, among the first `n` rows. */
  function ActiveGrants(db: Db, ent: Id, n: nat): seq<Ledger.Grant>
    requires n <= |db.grants| && ent < |db.ents|
  {
    if n == 0 then []
    else if db.grants[n - 1].entitlement == ent && LiveGrant(db.grants[n - 1])
    then ActiveGrants(db, ent, n - 1) + [GrantOf(db, n - 1, ent)]
    else ActiveGrants(db, ent, n - 1)
  }

  /** `ListActiveGrants`: those rows, in whatever order the query leaves ties. */
  predicate Lists(db: Db, ent: Id, listed: seq<Ledger.Grant>) {
    ent < |db.ents| && multiset(listed) == multiset(ActiveGrants(db, ent, |db.grants|))
  }

  lemma {:induction false} ActiveGrantsAre(db: Db, ent: Id, n: nat)
    requires n <= |db.grants| && ent < |db.ents|
    ensures forall g :: g in ActiveGrants(db, ent, n) ==>
              g.id < n && g == GrantOf(db, g.id, ent) && db.grants[g.id].entitlement == ent
              && LiveGrant(db.grants[g.id])
    ensures Sequences.NoRepeats(ActiveGrants(db, ent, n))
  {
    if n > 0 {
      ActiveGrantsAre(db, ent, n - 1);
      var front := ActiveGrants(db, ent, n - 1);
      forall i | 0 <= i < |front|
        ensures front[i].id < n - 1
      {
        assert front[i] in front;
      }
    }
  }

  lemma {:induction false} RowIsListed(db: Db, ent: Id, n: nat, i: Id)
    requires i < n <= |db.grants| && ent < |db.ents|
    requires db.grants[i].entitlement == ent && db.grants[i].voidedAt.None?
    ensures GrantOf(db, i, ent) in ActiveGrants(db, ent, n)
  {
    if i < n - 1 {
      RowIsListed(db, ent, n - 1, i);
    }
  }

  /** Listed is every unvoided grant of the entitlement, once, and nothing else: its own number,
      amount, priority and times, and the rollover cap of the entitlement. */
  lemma {:induction false} ListedAre(db: Db, ent: Id, listed: seq<Ledger.Grant>)
    requires Lists(db, ent, listed)
    ensures forall i: Id ::
              i < |db.grants| && db.grants[i].entitlement == ent && db.grants[i].voidedAt.None? <==>
              exists k :: 0 <= k < |listed| && listed[k].id == i
    ensures forall k :: 0 <= k < |listed| ==>
              listed[k].id < |db.grants|
              && var g := db.grants[listed[k].id];
                 listed[k] == Ledger.Grant(listed[k].id, g.amount, g.priority, g.effectiveAt, g.expiresAt,
                                           db.ents[ent].rolloverMax)
    ensures forall j, k :: 0 <= j < k < |listed| ==> listed[j].id != listed[k].id
  {
    var rows := ActiveGrants(db, ent, |db.grants|);
    ActiveGrantsAre(db, ent, |db.grants|);
    Sequences.NoRepeatsPermutes(rows, listed);
    assert forall g :: g in listed <==> g in multiset(rows);
    assert forall g :: g in rows <==> g in multiset(rows);
    forall i: Id
      ensures i < |db.grants| && db.grants[i].entitlement == ent && db.grants[i].voidedAt.None? <==>
              exists k :: 0 <= k < |listed| && listed[k].id == i
    {
      if i < |db.grants| && db.grants[i].entitlement == ent && db.grants[i].voidedAt.None? {
        RowIsListed(db, ent, |db.grants|, i);
        assert GrantOf(db, i, ent) in listed;
      }
      if k :| 0 <= k < |listed| && listed[k].id == i {
        assert listed[k] in listed && listed[k] in rows;
      }
    }
    forall k | 0 <= k < |listed|
      ensures listed[k] in rows
    {
      assert listed[k] in listed;
    }
  }

  /** In consistent tables the listed grants have distinct ids and positive amounts. */
  lemma {:induction false} ListedWell(db: Db, ent: Id, listed: seq<Ledger.Grant>)
    requires Consistent(db) && Lists(db, ent, listed)
    ensures Soundness.UniqueIds(listed) && Stateless.Amounts(listed)
  {
    var rows := ActiveGrants(db, ent, |db.grants|);
    ActiveGrantsAre(db, ent, |db.grants|);
    Sequences.NoRepeatsPermutes(rows, listed);
    forall i | 0 <= i < |listed|
      ensures listed[i].id < |db.grants| && listed[i] == GrantOf(db, listed[i].id, ent) && listed[i].amount > 0
    {
      assert listed[i] in multiset(rows);
      assert listed[i] in rows;
      assert OwnedWell(db, db.grants[listed[i].id]);
    }
  }

  /** So in every reachable state, whatever the meter, every listing of every entitlement's grants
      meets what the balance theorems ask. */
  lemma {:induction false} ReachableWellFormed(customers: nat, features: seq<bool>, ops: seq<Lifecycle.Op>, ent: Id,
                            inp: Ledger.Inputs)
    requires Ledger.Sorts(inp.sort)
    requires Lists(Lifecycle.RunOps(Lifecycle.Blank(customers, features), ops), ent, inp.grants)
    ensures Soundness.WellFormed(inp)
  {
    Lifecycle.ReachableConsistent(customers, features, ops);
    ListedWell(Lifecycle.RunOps(Lifecycle.Blank(customers, features), ops), ent, inp.grants);
  }
}
