/**
 * The dashboard's queries: each user's rows of the three record tables, and
 * the final revision's ordering of transactions by date, newest first.
 */
module Queries {
  import opened Store
  import opened Models

  /** The user's transactions as a query without an ordering returns them: in key order. */
  function TransactionsOf(txs: map<nat, Transaction>, uid: nat): (r: seq<Row<Transaction>>)
    ensures forall row :: row in r <==> row.id in txs && txs[row.id] == row.record && row.record.userId == uid
    ensures Increasing(r) && AtMostOnce(r)
    ensures (forall k :: k in txs ==> txs[k].userId != uid) ==> r == []
  {
    OwnedRows(txs, (t: Transaction) => t.userId, uid)
  }

  /** The user's budgets, in key order. */
  function BudgetsOf(budgets: map<nat, Budget>, uid: nat): (r: seq<Row<Budget>>)
    ensures forall row :: row in r <==> row.id in budgets && budgets[row.id] == row.record && row.record.userId == uid
    ensures Increasing(r) && AtMostOnce(r)
    ensures (forall k :: k in budgets ==> budgets[k].userId != uid) ==> r == []
  {
    OwnedRows(budgets, (b: Budget) => b.userId, uid)
  }

  /** The user's savings goals, in key order. */
  function GoalsOf(goals: map<nat, SavingsGoal>, uid: nat): (r: seq<Row<SavingsGoal>>)
    ensures forall row :: row in r <==> row.id in goals && goals[row.id] == row.record && row.record.userId == uid
    ensures Increasing(r) && AtMostOnce(r)
    ensures (forall k :: k in goals ==> goals[k].userId != uid) ==> r == []
  {
    OwnedRows(goals, (g: SavingsGoal) => g.userId, uid)
  }

  /** Dates never increase along the list. */
  ghost predicate DateDescending(rows: seq<Row<Transaction>>) {
    forall i, j :: 0 <= i < j < |rows| ==> rows[i].record.date >= rows[j].record.date
  }

  /** A row no older than every row of a date-descending list may go in front of it. */
  lemma PrependNewest(x: Row<Transaction>, rows: seq<Row<Transaction>>)
    requires DateDescending(rows)
    requires forall i :: 0 <= i < |rows| ==> x.record.date >= rows[i].record.date
    ensures DateDescending([x] + rows)
  {
  }

  /** Put `x` in front of the first row that is not newer than it. */
  function InsertByDate(x: Row<Transaction>, rows: seq<Row<Transaction>>): (r: seq<Row<Transaction>>)
    requires DateDescending(rows)
    ensures DateDescending(r)
    ensures multiset(r) == multiset(rows) + multiset{x}
  {
    if rows == [] then [x]
    else if x.record.date >= rows[0].record.date then
      PrependNewest(x, rows);
      [x] + rows
    else
      var tail := rows[1..];
      var rest := InsertByDate(x, tail);
      assert rows == [rows[0]] + tail;
      HeadNoOlder(rows, x, rest);
      PrependNewest(rows[0], rest);
      [rows[0]] + rest
  }

  /** The head of a date-descending list is no older than a reordering of its tail with an older row added. */
  lemma HeadNoOlder(rows: seq<Row<Transaction>>, x: Row<Transaction>, rest: seq<Row<Transaction>>)
    requires rows != [] && DateDescending(rows)
    requires x.record.date < rows[0].record.date
    requires multiset(rest) == multiset(rows[1..]) + multiset{x}
    ensures forall i :: 0 <= i < |rest| ==> rows[0].record.date >= rest[i].record.date
  {
    forall i | 0 <= i < |rest| ensures rows[0].record.date >= rest[i].record.date {
      assert rest[i] in multiset(rows[1..]) + multiset{x};
      if rest[i] != x {
        var k :| 0 <= k < |rows[1..]| && rows[1..][k] == rest[i];
        assert rows[k + 1] == rest[i];
      }
    }
  }

  /** Ordering by date, newest first: a reordering of `rows` whose dates never increase. */
  function SortByDateDesc(rows: seq<Row<Transaction>>): (r: seq<Row<Transaction>>)
    ensures DateDescending(r)
    ensures multiset(r) == multiset(rows)
  {
    if rows == [] then []
    else
      assert rows == [rows[0]] + rows[1..];
      InsertByDate(rows[0], SortByDateDesc(rows[1..]))
  }

  /** The user's transactions ordered by date, newest first. */
  function TransactionsByDate(txs: map<nat, Transaction>, uid: nat): (r: seq<Row<Transaction>>)
    ensures forall row :: row in r <==> row.id in txs && txs[row.id] == row.record && row.record.userId == uid
    ensures AtMostOnce(r)
    ensures DateDescending(r)
    ensures (forall k :: k in txs ==> txs[k].userId != uid) ==> r == []
  {
    var owned := TransactionsOf(txs, uid);
    var r := SortByDateDesc(owned);
    assert forall row :: row in r <==> row in multiset(owned);
    r
  }

  /**
   * A user's dashboard lists depend only on that user's rows: whatever other
   * users add or delete leaves them unchanged.
   */
  lemma OtherUsersInvisible(
    txs: map<nat, Transaction>, txs': map<nat, Transaction>,
    budgets: map<nat, Budget>, budgets': map<nat, Budget>,
    goals: map<nat, SavingsGoal>, goals': map<nat, SavingsGoal>,
    uid: nat)
    requires forall k :: k in txs && txs[k].userId == uid ==> k in txs' && txs'[k] == txs[k]
    requires forall k :: k in txs' && txs'[k].userId == uid ==> k in txs && txs[k] == txs'[k]
    requires forall k :: k in budgets && budgets[k].userId == uid ==> k in budgets' && budgets'[k] == budgets[k]
    requires forall k :: k in budgets' && budgets'[k].userId == uid ==> k in budgets && budgets[k] == budgets'[k]
    requires forall k :: k in goals && goals[k].userId == uid ==> k in goals' && goals'[k] == goals[k]
    requires forall k :: k in goals' && goals'[k].userId == uid ==> k in goals && goals[k] == goals'[k]
    ensures TransactionsOf(txs, uid) == TransactionsOf(txs', uid)
    ensures TransactionsByDate(txs, uid) == TransactionsByDate(txs', uid)
    ensures BudgetsOf(budgets, uid) == BudgetsOf(budgets', uid)
    ensures GoalsOf(goals, uid) == GoalsOf(goals', uid)
  {
    OwnedRowsLocal(txs, txs', (t: Transaction) => t.userId, uid);
    OwnedRowsLocal(budgets, budgets', (b: Budget) => b.userId, uid);
    OwnedRowsLocal(goals, goals', (g: SavingsGoal) => g.userId, uid);
  }

  /** When every stored transaction has a frequency, so does every transaction a dashboard lists. */
  lemma ListedTransactionsHaveFrequency(txs: map<nat, Transaction>, uid: nat)
    requires FrequenciesPresent(txs)
    ensures forall row :: row in TransactionsOf(txs, uid) ==> row.record.frequency.Some?
  {
  }

  /** Every transaction appears on the dashboard of some existing user. */
  ghost predicate TransactionsListed(users: map<nat, User>, txs: map<nat, Transaction>) {
    forall k :: k in txs ==> exists u :: u in users && Row(k, txs[k]) in TransactionsOf(txs, u)
  }

  /** Every budget appears on the dashboard of some existing user. */
  ghost predicate BudgetsListed(users: map<nat, User>, budgets: map<nat, Budget>) {
    forall k :: k in budgets ==> exists u :: u in users && Row(k, budgets[k]) in BudgetsOf(budgets, u)
  }

  /** Every savings goal appears on the dashboard of some existing user. */
  ghost predicate GoalsListed(users: map<nat, User>, goals: map<nat, SavingsGoal>) {
    forall k :: k in goals ==> exists u :: u in users && Row(k, goals[k]) in GoalsOf(goals, u)
  }

  /** A transaction's owner exists exactly when the transaction is on some existing user's dashboard. */
  lemma TransactionOwnersListed(users: map<nat, User>, txs: map<nat, Transaction>)
    ensures (forall k :: k in txs ==> txs[k].userId in users) <==> TransactionsListed(users, txs)
  {
    if forall k :: k in txs ==> txs[k].userId in users {
      forall k | k in txs ensures exists u :: u in users && Row(k, txs[k]) in TransactionsOf(txs, u) {
        assert Row(k, txs[k]) in TransactionsOf(txs, txs[k].userId);
      }
    }
    if TransactionsListed(users, txs) {
      forall k | k in txs ensures txs[k].userId in users {
        var u :| u in users && Row(k, txs[k]) in TransactionsOf(txs, u);
      }
    }
  }

  /** A budget's owner exists exactly when the budget is on some existing user's dashboard. */
  lemma BudgetOwnersListed(users: map<nat, User>, budgets: map<nat, Budget>)
    ensures (forall k :: k in budgets ==> budgets[k].userId in users) <==> BudgetsListed(users, budgets)
  {
    if forall k :: k in budgets ==> budgets[k].userId in users {
      forall k | k in budgets ensures exists u :: u in users && Row(k, budgets[k]) in BudgetsOf(budgets, u) {
        assert Row(k, budgets[k]) in BudgetsOf(budgets, budgets[k].userId);
      }
    }
    if BudgetsListed(users, budgets) {
      forall k | k in budgets ensures budgets[k].userId in users {
        var u :| u in users && Row(k, budgets[k]) in BudgetsOf(budgets, u);
      }
    }
  }

  /** A savings goal's owner exists exactly when the goal is on some existing user's dashboard. */
  lemma GoalOwnersListed(users: map<nat, User>, goals: map<nat, SavingsGoal>)
    ensures (forall k :: k in goals ==> goals[k].userId in users) <==> GoalsListed(users, goals)
  {
    if forall k :: k in goals ==> goals[k].userId in users {
      forall k | k in goals ensures exists u :: u in users && Row(k, goals[k]) in GoalsOf(goals, u) {
        assert Row(k, goals[k]) in GoalsOf(goals, goals[k].userId);
      }
    }
    if GoalsListed(users, goals) {
      forall k | k in goals ensures goals[k].userId in users {
        var u :| u in users && Row(k, goals[k]) in GoalsOf(goals, u);
      }
    }
  }

  /**
   * Every owner column names an existing user exactly when every record appears
   * on the dashboard of some existing user: a record whose owner is gone is
   * listed nowhere.
   */
  lemma OwnersExistIffListed(
    users: map<nat, User>,
    txs: map<nat, Transaction>,
    budgets: map<nat, Budget>,
    goals: map<nat, SavingsGoal>)
    ensures OwnersExist(users, txs, budgets, goals) <==>
      TransactionsListed(users, txs) && BudgetsListed(users, budgets) && GoalsListed(users, goals)
  {
    TransactionOwnersListed(users, txs);
    BudgetOwnersListed(users, budgets);
    GoalOwnersListed(users, goals);
  }
}
