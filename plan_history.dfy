/** The bounded plan history: a table of (id, plan) rows with an
    autoincrement id. `save_plan` inserts a row and then deletes every row
    whose id is not among the newest `PLAN_HISTORY_SIZE` ids; `get_recent_plans`
    reads the newest rows first. The stored value is generic: plans are
    stored as their serialised form and read back unchanged. */
module PlanHistory {
  import opened Wrappers

  datatype HistoryError = NotInitialized

  datatype Row<T> = Row(id: nat, plan: T)

  /** Ids strictly increase along the table: rows are kept in insertion
      order, and an autoincrement id is never reused. */
  predicate IdsIncrease<T>(rows: seq<Row<T>>)
  {
    forall i, j :: 0 <= i < j < |rows| ==> rows[i].id < rows[j].id
  }

  /** Every id is below the next one to be handed out. */
  predicate IdsBelow<T>(rows: seq<Row<T>>, next: nat)
  {
    forall i :: 0 <= i < |rows| ==> rows[i].id < next
  }

  function Reverse<T>(s: seq<T>): (r: seq<T>)
    ensures |r| == |s| && forall i :: 0 <= i < |s| ==> r[i] == s[|s| - 1 - i]
  {
    if s == [] then [] else Reverse(s[1..]) + [s[0]]
  }

  /** `LIMIT n`: the first `n` elements; a negative limit means no limit. */
  function Limit<T>(s: seq<T>, n: int): seq<T>
  {
    if n < 0 || n >= |s| then s else s[..n]
  }

  function RowIds<T>(rows: seq<Row<T>>): seq<nat>
  {
    seq(|rows|, i requires 0 <= i < |rows| => rows[i].id)
  }

  /** `SELECT id FROM plans ORDER BY id DESC LIMIT n` on a table kept in
      increasing id order. */
  function NewestIds<T>(rows: seq<Row<T>>, n: int): seq<nat>
  {
    Limit(Reverse(RowIds(rows)), n)
  }

  /** `DELETE FROM plans WHERE id NOT IN keep`. */
  function KeepOnly<T>(rows: seq<Row<T>>, keep: seq<nat>): seq<Row<T>>
  {
    if rows == [] then []
    else (if rows[0].id in keep then [rows[0]] else []) + KeepOnly(rows[1..], keep)
  }

  /** The table after the insert of `save_plan`. */
  function Inserted<T>(rows: seq<Row<T>>, next: nat, plan: T): seq<Row<T>>
  {
    rows + [Row(next, plan)]
  }

  /** The table after the delete of `save_plan`. */
  function Pruned<T>(rows: seq<Row<T>>, size: int): seq<Row<T>>
  {
    KeepOnly(rows, NewestIds(rows, size))
  }

  /** `SELECT plan FROM plans ORDER BY id DESC LIMIT limit`. */
  function Recent<T>(rows: seq<Row<T>>, limit: int): seq<T>
  {
    var newest := Limit(Reverse(rows), limit);
    seq(|newest|, i requires 0 <= i < |newest| => newest[i].plan)
  }

  // ---------------------------------------------------------------------------
  // Properties

  /** The last `n` rows of a table, all of them for a negative `n`. */
  function Suffix<T>(rows: seq<Row<T>>, n: int): seq<Row<T>>
  {
    if n < 0 || n >= |rows| then rows else rows[|rows| - n..]
  }

  /** Keeping the rows whose id is listed keeps exactly the listed rows, in
      table order. */
  lemma {:induction false} KeepOnlyMembers<T>(rows: seq<Row<T>>, keep: seq<nat>)
    ensures forall r :: r in KeepOnly(rows, keep) <==> r in rows && r.id in keep
    ensures |KeepOnly(rows, keep)| <= |rows|
  {
    if rows != [] {
      KeepOnlyMembers(rows[1..], keep);
      assert rows == [rows[0]] + rows[1..];
    }
  }

  /** Keeping every id of a table keeps the table. */
  lemma {:induction false} KeepAll<T>(rows: seq<Row<T>>, keep: seq<nat>)
    requires forall i :: 0 <= i < |rows| ==> rows[i].id in keep
    ensures KeepOnly(rows, keep) == rows
  {
    if rows != [] {
      KeepAll(rows[1..], keep);
    }
  }

  /** Keeping only ids that a prefix of an increasing table does not have
      drops that prefix. */
  lemma {:induction false} KeepDropsPrefix<T>(rows: seq<Row<T>>, cut: nat, keep: seq<nat>)
    requires cut <= |rows|
    requires forall i :: 0 <= i < cut ==> rows[i].id !in keep
    requires forall i :: cut <= i < |rows| ==> rows[i].id in keep
    ensures KeepOnly(rows, keep) == rows[cut..]
  {
    if cut == 0 {
      KeepAll(rows, keep);
    } else {
      KeepDropsPrefix(rows[1..], cut - 1, keep);
      assert rows[1..][cut - 1..] == rows[cut..];
    }
  }

  /** On a table in increasing id order, the delete of `save_plan` keeps
      exactly the newest `size` rows (all rows for a negative size, none for
      size 0). */
  lemma PrunedKeepsNewest<T>(rows: seq<Row<T>>, size: int)
    requires IdsIncrease(rows)
    ensures Pruned(rows, size) == Suffix(rows, size)
  {
    var keep := NewestIds(rows, size);
    var cut := if size < 0 || size >= |rows| then 0 else |rows| - size;
    forall i | cut <= i < |rows| ensures rows[i].id in keep {
      assert keep[|rows| - 1 - i] == rows[i].id;
    }
    forall i | 0 <= i < cut ensures rows[i].id !in keep {
    }
    KeepDropsPrefix(rows, cut, keep);
  }

  /** Reading `limit` plans gives min(limit, stored) of them (all for a
      negative limit), newest first. */
  lemma RecentNewestFirst<T>(rows: seq<Row<T>>, limit: int)
    ensures var r := Recent(rows, limit);
      && |r| == (if limit < 0 || limit >= |rows| then |rows| else limit)
      && forall i :: 0 <= i < |r| ==> r[i] == rows[|rows| - 1 - i].plan
  {
  }

  /** Saving keeps the table in increasing id order, every id below the next
      one, and at most `size` rows when `size` is not negative; the saved plan
      survives whenever `size` >= 1. */
  lemma SaveKeepsOrder<T>(rows: seq<Row<T>>, next: nat, plan: T, size: int)
    requires IdsIncrease(rows) && IdsBelow(rows, next)
    ensures var after := Pruned(Inserted(rows, next, plan), size);
      && IdsIncrease(after) && IdsBelow(after, next + 1)
      && (size >= 0 ==> |after| <= size)
      && (size >= 1 ==> |after| >= 1 && after[|after| - 1] == Row(next, plan))
      && (size == 0 ==> after == [])
  {
    var inserted := Inserted(rows, next, plan);
    PrunedKeepsNewest(inserted, size);
  }

  // ---------------------------------------------------------------------------
  // The store

  class History<T> {
    /** Whether `_conn` is set. */
    var connected: bool
    /** The `plans` table, in increasing id order. */
    var rows: seq<Row<T>>
    /** The next autoincrement id. */
    var nextId: nat

    ghost predicate Valid()
      reads this
    {
      IdsIncrease(rows) && IdsBelow(rows, nextId)
    }

    constructor ()
      ensures Valid() && !connected && rows == [] && nextId == 1
    {
      connected := false;
      rows := [];
      nextId := 1;
    }

    /** `init_db`: connects once; a second call changes nothing. */
    method InitDb()
      modifies this
      ensures connected && rows == old(rows) && nextId == old(nextId)
    {
      if !connected {
        connected := true;
      }
    }

    /** `save_plan`: the insert, then the delete of every row but the newest
        `size`; RuntimeError, and no change, when not connected. */
    method SavePlan(plan: T, size: int) returns (r: Outcome<HistoryError>)
      requires Valid()
      modifies this
      ensures Valid() && connected == old(connected)
      ensures !old(connected) ==> r == Fail(NotInitialized) && rows == old(rows) && nextId == old(nextId)
      ensures old(connected) ==>
                r == Pass && nextId == old(nextId) + 1
                && rows == Suffix(old(rows) + [Row(old(nextId), plan)], size)
    {
      if !connected {
        return Fail(NotInitialized);
      }
      SaveKeepsOrder(rows, nextId, plan, size);
      PrunedKeepsNewest(Inserted(rows, nextId, plan), size);
      rows := Inserted(rows, nextId, plan);
      nextId := nextId + 1;
      rows := KeepOnly(rows, NewestIds(rows, size));
      return Pass;
    }

    /** `get_recent_plans`: RuntimeError when not connected. */
    method GetRecentPlans(limit: int) returns (r: Result<seq<T>, HistoryError>)
      ensures !connected ==> r == Failure(NotInitialized)
      ensures connected ==> r == Success(Recent(rows, limit))
    {
      if !connected {
        return Failure(NotInitialized);
      }
      RecentNewestFirst(rows, limit);
      return Success(Recent(rows, limit));
    }
  }

  // ---------------------------------------------------------------------------
  // Example

  /** The table a fresh, connected store holds after saving `plans` in order
      with history size `size`. */
  function SaveAll<T>(plans: seq<T>, size: int): seq<Row<T>>
  {
    if plans == [] then []
    else
      var before := SaveAll(plans[..|plans| - 1], size);
      Pruned(Inserted(before, |plans|, plans[|plans| - 1]), size)
  }

  lemma SaveAllStep<T>(plans: seq<T>, plan: T, size: int)
    ensures SaveAll(plans + [plan], size) == Pruned(Inserted(SaveAll(plans, size), |plans| + 1, plan), size)
  {
    assert (plans + [plan])[..|plans|] == plans;
  }

  /** Three plans, told apart by their generation time. */
  const Plan1: string := "2024-01-01T00:00:01Z"
  const Plan2: string := "2024-01-01T00:00:02Z"
  const Plan3: string := "2024-01-01T00:00:03Z"

  lemma FirstSave()
    ensures SaveAll([Plan1], 2) == [Row(1, Plan1)]
  {
    SaveAllStep([], Plan1, 2);
    assert [] + [Plan1] == [Plan1];
    PrunedKeepsNewest(Inserted([], 1, Plan1), 2);
  }

  lemma SecondSave()
    ensures SaveAll([Plan1, Plan2], 2) == [Row(1, Plan1), Row(2, Plan2)]
  {
    FirstSave();
    SaveAllStep([Plan1], Plan2, 2);
    assert [Plan1] + [Plan2] == [Plan1, Plan2];
    PrunedKeepsNewest(Inserted([Row(1, Plan1)], 2, Plan2), 2);
  }

  lemma ThirdSave()
    ensures SaveAll([Plan1, Plan2, Plan3], 2) == [Row(2, Plan2), Row(3, Plan3)]
  {
    SecondSave();
    SaveAllStep([Plan1, Plan2], Plan3, 2);
    assert [Plan1, Plan2] + [Plan3] == [Plan1, Plan2, Plan3];
    var inserted := Inserted([Row(1, Plan1), Row(2, Plan2)], 3, Plan3);
    PrunedKeepsNewest(inserted, 2);
    assert inserted[1..] == [Row(2, Plan2), Row(3, Plan3)];
  }

  /** History size 2, three saves, then reading up to five plans gives the
      third and the second plan, in that order. */
  lemma ThreeSavesKeepTwo()
    ensures Recent(SaveAll([Plan1, Plan2, Plan3], 2), 5) == [Plan3, Plan2]
  {
    ThirdSave();
    RecentNewestFirst([Row(2, Plan2), Row(3, Plan3)], 5);
  }
}
