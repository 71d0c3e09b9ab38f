/**
 * The in-memory record store behind every API route: five tables keyed by
 * id, each with its own counter that hands out 1, 2, 3, ... and is never
 * rewound, so an id is not reused after a delete.
 *
 * A JavaScript `Map` iterates in insertion order. Every key is inserted when
 * its counter reaches it, and `set` on a present key keeps its position, so
 * `Array.from(map.values())` lists the records in ascending id order; the model
 * takes that as the listing order (`Listing`).
 */
module Storage {
  import opened Wrappers
  import opened Calendar
  import opened Seqs
  import opened Schema

  /** The values stored under keys lo, lo + 1, ..., hi - 1, in key order. */
  function Listing<T>(m: map<int, T>, lo: int, hi: int): seq<T>
    decreases hi - lo
  {
    if lo >= hi then [] else (if lo in m then [m[lo]] else []) + Listing(m, lo + 1, hi)
  }

  /** Every record is stored under its own id, and every key is below the next id to hand out. */
  ghost predicate Keyed<T>(m: map<int, T>, next: int, id: T -> int)
  {
    forall k :: k in m ==> 1 <= k < next && id(m[k]) == k
  }

  /** Every listed record is stored under its own id, which lies in [lo, hi). */
  ghost predicate StoredIn<T>(s: seq<T>, m: map<int, T>, lo: int, hi: int, id: T -> int)
  {
    forall i :: 0 <= i < |s| ==> lo <= id(s[i]) < hi && id(s[i]) in m && m[id(s[i])] == s[i]
  }

  lemma {:induction false} ListingStored<T>(m: map<int, T>, lo: int, hi: int, id: T -> int)
    requires forall k :: k in m ==> id(m[k]) == k
    ensures StoredIn(Listing(m, lo, hi), m, lo, hi, id)
    decreases hi - lo
  {
    if lo < hi {
      ListingStored(m, lo + 1, hi, id);
      var r := Listing(m, lo + 1, hi);
      var h := if lo in m then [m[lo]] else [];
      forall i | 0 <= i < |h + r|
        ensures lo <= id((h + r)[i]) < hi && id((h + r)[i]) in m && m[id((h + r)[i])] == (h + r)[i]
      {
        if i >= |h| {
          assert (h + r)[i] == r[i - |h|];
        }
      }
    }
  }

  lemma {:induction false} ListingIncreasing<T>(m: map<int, T>, lo: int, hi: int, id: T -> int)
    requires forall k :: k in m ==> id(m[k]) == k
    ensures IncreasingBy(Listing(m, lo, hi), id)
    decreases hi - lo
  {
    if lo < hi {
      ListingIncreasing(m, lo + 1, hi, id);
      if lo in m {
        var r := Listing(m, lo + 1, hi);
        ListingStored(m, lo + 1, hi, id);
        IncreasingCons(m[lo], r, id);
      }
    }
  }

  lemma {:induction false} ListingComplete<T>(m: map<int, T>, lo: int, hi: int)
    ensures forall k :: lo <= k < hi && k in m ==> m[k] in Listing(m, lo, hi)
    decreases hi - lo
  {
    if lo < hi {
      ListingComplete(m, lo + 1, hi);
    }
  }

  lemma ListingFacts<T>(m: map<int, T>, lo: int, hi: int, id: T -> int)
    requires forall k :: k in m ==> id(m[k]) == k
    ensures StoredIn(Listing(m, lo, hi), m, lo, hi, id)
    ensures IncreasingBy(Listing(m, lo, hi), id)
    ensures forall k :: lo <= k < hi && k in m ==> m[k] in Listing(m, lo, hi)
  {
    ListingStored(m, lo, hi, id);
    ListingIncreasing(m, lo, hi, id);
    ListingComplete(m, lo, hi);
  }

  /** Storing a record under its own id, below the counter, keeps a table keyed. */
  lemma KeyedStore<T>(m: map<int, T>, next: int, id: T -> int, k: int, v: T)
    requires Keyed(m, next, id)
    requires 1 <= k < next && id(v) == k
    ensures Keyed(m[k := v], next, id)
  {
  }

  /** Advancing the counter keeps a table keyed. */
  lemma KeyedAdvance<T>(m: map<int, T>, next: int, id: T -> int)
    requires Keyed(m, next, id)
    ensures Keyed(m, next + 1, id)
  {
  }

  /** `Array.from(map.values()).filter(p)`. */
  function Select<T>(m: map<int, T>, next: int, p: T -> bool): seq<T>
  {
    Filter(Listing(m, 1, next), p)
  }

  /**
   * A filtered listing holds exactly the stored records satisfying `p`, each
   * under its own id, in ascending id order.
   */
  lemma SelectFacts<T>(m: map<int, T>, next: int, id: T -> int, p: T -> bool)
    requires Keyed(m, next, id)
    ensures forall i :: 0 <= i < |Select(m, next, p)| ==>
              id(Select(m, next, p)[i]) in m && m[id(Select(m, next, p)[i])] == Select(m, next, p)[i] &&
              p(Select(m, next, p)[i])
    ensures forall k :: k in m && p(m[k]) ==> m[k] in Select(m, next, p)
    ensures IncreasingBy(Select(m, next, p), id)
  {
    var s := Listing(m, 1, next);
    ListingFacts(m, 1, next, id);
    FilterIncreasing(s, p, id);
    forall i | 0 <= i < |Select(m, next, p)|
      ensures id(Select(m, next, p)[i]) in m && m[id(Select(m, next, p)[i])] == Select(m, next, p)[i]
    {
      var x := Select(m, next, p)[i];
      assert x in s;
    }
    forall k | k in m && p(m[k]) ensures m[k] in Select(m, next, p) {
      var j :| 0 <= j < |s| && s[j] == m[k];
    }
  }

  /**
   * `Array.from(map.values()).find(p)`: the stored record with the least id
   * among those satisfying `p`, if any.
   */
  lemma FindFacts<T>(m: map<int, T>, next: int, id: T -> int, p: T -> bool)
    requires Keyed(m, next, id)
    ensures Find(Listing(m, 1, next), p).Some? <==> exists k :: k in m && p(m[k])
    ensures Find(Listing(m, 1, next), p).Some? ==>
              var x := Find(Listing(m, 1, next), p).value;
              id(x) in m && m[id(x)] == x && p(x) && forall k :: k in m && p(m[k]) ==> id(x) <= k
  {
    var s := Listing(m, 1, next);
    FindSpec(s, p);
    FindPresent(m, next, id, p);
    if Find(s, p).Some? {
      var i :| 0 <= i < |s| && s[i] == Find(s, p).value && p(s[i]) && forall j :: 0 <= j < i ==> !p(s[j]);
      FindLeast(m, next, id, p, i);
    }
  }

  /** Some stored record satisfies `p` exactly when the search finds one. */
  lemma FindPresent<T>(m: map<int, T>, next: int, id: T -> int, p: T -> bool)
    requires Keyed(m, next, id)
    ensures Find(Listing(m, 1, next), p).Some? <==> exists k :: k in m && p(m[k])
  {
    var s := Listing(m, 1, next);
    ListingFacts(m, 1, next, id);
    FindSpec(s, p);
    if exists k :: k in m && p(m[k]) {
      var k :| k in m && p(m[k]);
      var j :| 0 <= j < |s| && s[j] == m[k];
    }
  }

  /** The first listed record satisfying `p` is stored under its id and has the least id among them. */
  lemma FindLeast<T>(m: map<int, T>, next: int, id: T -> int, p: T -> bool, i: int)
    requires Keyed(m, next, id)
    requires 0 <= i < |Listing(m, 1, next)| && p(Listing(m, 1, next)[i])
    requires forall j :: 0 <= j < i ==> !p(Listing(m, 1, next)[j])
    ensures var x := Listing(m, 1, next)[i];
            id(x) in m && m[id(x)] == x && forall k :: k in m && p(m[k]) ==> id(x) <= k
  {
    var s := Listing(m, 1, next);
    ListingFacts(m, 1, next, id);
    forall k | k in m && p(m[k]) ensures id(s[i]) <= k {
      var j :| 0 <= j < |s| && s[j] == m[k];
      if i < j {
        assert id(s[i]) < id(s[j]);
      }
    }
  }

  function UserId(u: User): int { u.id }
  function ExpenseId(e: Expense): int { e.id }
  function IncomeId(i: Income): int { i.id }
  function BudgetId(b: Budget): int { b.id }
  function SavingsGoalId(g: SavingsGoal): int { g.id }

  class MemStorage {
    var users: map<int, User>
    var expenses: map<int, Expense>
    var incomes: map<int, Income>
    var budgets: map<int, Budget>
    var savingsGoals: map<int, SavingsGoal>

    /** The id the next created record of each table gets. */
    var currentUserId: int
    var currentExpenseId: int
    var currentIncomeId: int
    var currentBudgetId: int
    var currentSavingsGoalId: int

    /** Each record sits under its own id, and every id in use is positive and below its table's counter. */
    ghost predicate Valid()
      reads this
    {
      && Keyed(users, currentUserId, UserId)
      && Keyed(expenses, currentExpenseId, ExpenseId)
      && Keyed(incomes, currentIncomeId, IncomeId)
      && Keyed(budgets, currentBudgetId, BudgetId)
      && Keyed(savingsGoals, currentSavingsGoalId, SavingsGoalId)
      && 1 <= currentUserId && 1 <= currentExpenseId && 1 <= currentIncomeId
      && 1 <= currentBudgetId && 1 <= currentSavingsGoalId
    }

    /** One table together with its counter, for stating what an operation leaves alone. */
    ghost function UserTable(): (map<int, User>, int) reads this { (users, currentUserId) }
    ghost function ExpenseTable(): (map<int, Expense>, int) reads this { (expenses, currentExpenseId) }
    ghost function IncomeTable(): (map<int, Income>, int) reads this { (incomes, currentIncomeId) }
    ghost function BudgetTable(): (map<int, Budget>, int) reads this { (budgets, currentBudgetId) }
    ghost function SavingsGoalTable(): (map<int, SavingsGoal>, int) reads this { (savingsGoals, currentSavingsGoalId) }

    constructor()
      ensures Valid()
      ensures users == map[] && expenses == map[] && incomes == map[] && budgets == map[] && savingsGoals == map[]
      ensures currentUserId == 1 && currentExpenseId == 1 && currentIncomeId == 1
      ensures currentBudgetId == 1 && currentSavingsGoalId == 1
    {
      users, expenses, incomes, budgets, savingsGoals := map[], map[], map[], map[], map[];
      currentUserId, currentExpenseId, currentIncomeId := 1, 1, 1;
      currentBudgetId, currentSavingsGoalId := 1, 1;
    }

    // ---- Users ----

    /** `users.get(id)`. */
    function GetUser(id: int): (r: Option<User>)
      reads this
      requires Valid()
      ensures r.Some? <==> id in users
      ensures r.Some? ==> r.value == users[id] && r.value.id == id
    {
      if id in users then Some(users[id]) else None
    }

    /** The first user by id with that username; usernames are not kept unique here. */
    function GetUserByUsername(username: string): (r: Option<User>)
      reads this
      requires Valid()
      ensures r.Some? <==> exists k :: k in users && users[k].username == username
      ensures r.Some? ==> r.value.id in users && users[r.value.id] == r.value && r.value.username == username
      ensures r.Some? ==> forall k :: k in users && users[k].username == username ==> r.value.id <= k
    {
      FindFacts(users, currentUserId, UserId, (u: User) => u.username == username);
      Find(Listing(users, 1, currentUserId), (u: User) => u.username == username)
    }

    method CreateUser(ins: InsertUser, now: Instant) returns (u: User)
      requires Valid()
      modifies this
      ensures Valid()
      ensures u == NewUser(ins, old(currentUserId), now)
      ensures u.id !in old(users)
      ensures users == old(users)[u.id := u] && currentUserId == old(currentUserId) + 1
      ensures ExpenseTable() == old(ExpenseTable()) && IncomeTable() == old(IncomeTable())
      ensures BudgetTable() == old(BudgetTable()) && SavingsGoalTable() == old(SavingsGoalTable())
    {
      var id := currentUserId;
      KeyedAdvance(users, currentUserId, UserId);
      currentUserId := currentUserId + 1;
      u := NewUser(ins, id, now);
      KeyedStore(users, currentUserId, UserId, id, u);
      users := users[id := u];
    }

    // ---- Expenses ----

    function GetExpenses(userId: int): (r: seq<Expense>)
      reads this
      requires Valid()
      ensures forall i :: 0 <= i < |r| ==> r[i].id in expenses && expenses[r[i].id] == r[i] && r[i].userId == userId
      ensures forall k :: k in expenses && expenses[k].userId == userId ==> expenses[k] in r
      ensures IncreasingBy(r, ExpenseId)
    {
      SelectFacts(expenses, currentExpenseId, ExpenseId, (e: Expense) => e.userId == userId);
      Select(expenses, currentExpenseId, (e: Expense) => e.userId == userId)
    }

    function GetExpensesByCategory(userId: int, category: string): (r: seq<Expense>)
      reads this
      requires Valid()
      ensures forall i :: 0 <= i < |r| ==>
                r[i].id in expenses && expenses[r[i].id] == r[i] && r[i].userId == userId && r[i].category == category
      ensures forall k :: k in expenses && expenses[k].userId == userId && expenses[k].category == category ==>
                expenses[k] in r
      ensures IncreasingBy(r, ExpenseId)
    {
      var p := (e: Expense) => e.userId == userId && e.category == category;
      SelectFacts(expenses, currentExpenseId, ExpenseId, p);
      Select(expenses, currentExpenseId, p)
    }

    /** Both ends of the range are inclusive. */
    function GetExpensesByDateRange(userId: int, startDate: Instant, endDate: Instant): (r: seq<Expense>)
      reads this
      requires Valid()
      ensures forall i :: 0 <= i < |r| ==>
                r[i].id in expenses && expenses[r[i].id] == r[i] && r[i].userId == userId &&
                startDate <= r[i].date <= endDate
      ensures forall k :: k in expenses && expenses[k].userId == userId && startDate <= expenses[k].date <= endDate ==>
                expenses[k] in r
      ensures IncreasingBy(r, ExpenseId)
    {
      var p := (e: Expense) => e.userId == userId && e.date >= startDate && e.date <= endDate;
      SelectFacts(expenses, currentExpenseId, ExpenseId, p);
      Select(expenses, currentExpenseId, p)
    }

    method CreateExpense(ins: InsertExpense, now: Instant) returns (e: Expense)
      requires Valid()
      modifies this
      ensures Valid()
      ensures e == NewExpense(ins, old(currentExpenseId), now)
      ensures e.id !in old(expenses)
      ensures expenses == old(expenses)[e.id := e] && currentExpenseId == old(currentExpenseId) + 1
      ensures UserTable() == old(UserTable()) && IncomeTable() == old(IncomeTable())
      ensures BudgetTable() == old(BudgetTable()) && SavingsGoalTable() == old(SavingsGoalTable())
    {
      var id := currentExpenseId;
      KeyedAdvance(expenses, currentExpenseId, ExpenseId);
      currentExpenseId := currentExpenseId + 1;
      e := NewExpense(ins, id, now);
      KeyedStore(expenses, currentExpenseId, ExpenseId, id, e);
      expenses := expenses[id := e];
    }

    /** `undefined` for an unknown id; otherwise the merged record, which replaces the stored one. */
    method UpdateExpense(id: int, patch: ExpensePatch) returns (r: Option<Expense>)
      requires Valid()
      modifies this
      ensures Valid()
      ensures id !in old(expenses) ==> r == None && expenses == old(expenses)
      ensures id in old(expenses) ==>
                r == Some(MergeExpense(old(expenses)[id], patch)) && expenses == old(expenses)[id := r.value]
      ensures currentExpenseId == old(currentExpenseId)
      ensures UserTable() == old(UserTable()) && IncomeTable() == old(IncomeTable())
      ensures BudgetTable() == old(BudgetTable()) && SavingsGoalTable() == old(SavingsGoalTable())
    {
      if id !in expenses {
        return None;
      }
      var updated := MergeExpense(expenses[id], patch);
      KeyedStore(expenses, currentExpenseId, ExpenseId, id, updated);
      expenses := expenses[id := updated];
      r := Some(updated);
    }

    /** `true` exactly when a record was removed; the counter is not rewound. */
    method DeleteExpense(id: int) returns (removed: bool)
      requires Valid()
      modifies this
      ensures Valid()
      ensures removed == (id in old(expenses))
      ensures expenses == old(expenses) - {id} && currentExpenseId == old(currentExpenseId)
      ensures UserTable() == old(UserTable()) && IncomeTable() == old(IncomeTable())
      ensures BudgetTable() == old(BudgetTable()) && SavingsGoalTable() == old(SavingsGoalTable())
    {
      removed := id in expenses;
      expenses := expenses - {id};
    }

    // ---- Incomes ----

    function GetIncomes(userId: int): (r: seq<Income>)
      reads this
      requires Valid()
      ensures forall i :: 0 <= i < |r| ==> r[i].id in incomes && incomes[r[i].id] == r[i] && r[i].userId == userId
      ensures forall k :: k in incomes && incomes[k].userId == userId ==> incomes[k] in r
      ensures IncreasingBy(r, IncomeId)
    {
      SelectFacts(incomes, currentIncomeId, IncomeId, (i: Income) => i.userId == userId);
      Select(incomes, currentIncomeId, (i: Income) => i.userId == userId)
    }

    /** Both ends of the range are inclusive. */
    function GetIncomesByDateRange(userId: int, startDate: Instant, endDate: Instant): (r: seq<Income>)
      reads this
      requires Valid()
      ensures forall i :: 0 <= i < |r| ==>
                r[i].id in incomes && incomes[r[i].id] == r[i] && r[i].userId == userId &&
                startDate <= r[i].date <= endDate
      ensures forall k :: k in incomes && incomes[k].userId == userId && startDate <= incomes[k].date <= endDate ==>
                incomes[k] in r
      ensures IncreasingBy(r, IncomeId)
    {
      var p := (i: Income) => i.userId == userId && i.date >= startDate && i.date <= endDate;
      SelectFacts(incomes, currentIncomeId, IncomeId, p);
      Select(incomes, currentIncomeId, p)
    }

    method CreateIncome(ins: InsertIncome, now: Instant) returns (i: Income)
      requires Valid()
      modifies this
      ensures Valid()
      ensures i == NewIncome(ins, old(currentIncomeId), now)
      ensures i.id !in old(incomes)
      ensures incomes == old(incomes)[i.id := i] && currentIncomeId == old(currentIncomeId) + 1
      ensures UserTable() == old(UserTable()) && ExpenseTable() == old(ExpenseTable())
      ensures BudgetTable() == old(BudgetTable()) && SavingsGoalTable() == old(SavingsGoalTable())
    {
      var id := currentIncomeId;
      KeyedAdvance(incomes, currentIncomeId, IncomeId);
      currentIncomeId := currentIncomeId + 1;
      i := NewIncome(ins, id, now);
      KeyedStore(incomes, currentIncomeId, IncomeId, id, i);
      incomes := incomes[id := i];
    }

    method UpdateIncome(id: int, patch: IncomePatch) returns (r: Option<Income>)
      requires Valid()
      modifies this
      ensures Valid()
      ensures id !in old(incomes) ==> r == None && incomes == old(incomes)
      ensures id in old(incomes) ==>
                r == Some(MergeIncome(old(incomes)[id], patch)) && incomes == old(incomes)[id := r.value]
      ensures currentIncomeId == old(currentIncomeId)
      ensures UserTable() == old(UserTable()) && ExpenseTable() == old(ExpenseTable())
      ensures BudgetTable() == old(BudgetTable()) && SavingsGoalTable() == old(SavingsGoalTable())
    {
      if id !in incomes {
        return None;
      }
      var updated := MergeIncome(incomes[id], patch);
      KeyedStore(incomes, currentIncomeId, IncomeId, id, updated);
      incomes := incomes[id := updated];
      r := Some(updated);
    }

    method DeleteIncome(id: int) returns (removed: bool)
      requires Valid()
      modifies this
      ensures Valid()
      ensures removed == (id in old(incomes))
      ensures incomes == old(incomes) - {id} && currentIncomeId == old(currentIncomeId)
      ensures UserTable() == old(UserTable()) && ExpenseTable() == old(ExpenseTable())
      ensures BudgetTable() == old(BudgetTable()) && SavingsGoalTable() == old(SavingsGoalTable())
    {
      removed := id in incomes;
      incomes := incomes - {id};
    }

    // ---- Budgets ----

    function GetBudgets(userId: int): (r: seq<Budget>)
      reads this
      requires Valid()
      ensures forall i :: 0 <= i < |r| ==> r[i].id in budgets && budgets[r[i].id] == r[i] && r[i].userId == userId
      ensures forall k :: k in budgets && budgets[k].userId == userId ==> budgets[k] in r
      ensures IncreasingBy(r, BudgetId)
    {
      SelectFacts(budgets, currentBudgetId, BudgetId, (b: Budget) => b.userId == userId);
      Select(budgets, currentBudgetId, (b: Budget) => b.userId == userId)
    }

    function GetBudgetsByPeriod(userId: int, period: string): (r: seq<Budget>)
      reads this
      requires Valid()
      ensures forall i :: 0 <= i < |r| ==>
                r[i].id in budgets && budgets[r[i].id] == r[i] && r[i].userId == userId && r[i].period == period
      ensures forall k :: k in budgets && budgets[k].userId == userId && budgets[k].period == period ==>
                budgets[k] in r
      ensures IncreasingBy(r, BudgetId)
    {
      var p := (b: Budget) => b.userId == userId && b.period == period;
      SelectFacts(budgets, currentBudgetId, BudgetId, p);
      Select(budgets, currentBudgetId, p)
    }

    method CreateBudget(ins: InsertBudget, now: Instant) returns (b: Budget)
      requires Valid()
      modifies this
      ensures Valid()
      ensures b == NewBudget(ins, old(currentBudgetId), now)
      ensures b.id !in old(budgets)
      ensures budgets == old(budgets)[b.id := b] && currentBudgetId == old(currentBudgetId) + 1
      ensures UserTable() == old(UserTable()) && ExpenseTable() == old(ExpenseTable())
      ensures IncomeTable() == old(IncomeTable()) && SavingsGoalTable() == old(SavingsGoalTable())
    {
      var id := currentBudgetId;
      KeyedAdvance(budgets, currentBudgetId, BudgetId);
      currentBudgetId := currentBudgetId + 1;
      b := NewBudget(ins, id, now);
      KeyedStore(budgets, currentBudgetId, BudgetId, id, b);
      budgets := budgets[id := b];
    }

    method UpdateBudget(id: int, patch: BudgetPatch) returns (r: Option<Budget>)
      requires Valid()
      modifies this
      ensures Valid()
      ensures id !in old(budgets) ==> r == None && budgets == old(budgets)
      ensures id in old(budgets) ==>
                r == Some(MergeBudget(old(budgets)[id], patch)) && budgets == old(budgets)[id := r.value]
      ensures currentBudgetId == old(currentBudgetId)
      ensures UserTable() == old(UserTable()) && ExpenseTable() == old(ExpenseTable())
      ensures IncomeTable() == old(IncomeTable()) && SavingsGoalTable() == old(SavingsGoalTable())
    {
      if id !in budgets {
        return None;
      }
      var updated := MergeBudget(budgets[id], patch);
      KeyedStore(budgets, currentBudgetId, BudgetId, id, updated);
      budgets := budgets[id := updated];
      r := Some(updated);
    }

    method DeleteBudget(id: int) returns (removed: bool)
      requires Valid()
      modifies this
      ensures Valid()
      ensures removed == (id in old(budgets))
      ensures budgets == old(budgets) - {id} && currentBudgetId == old(currentBudgetId)
      ensures UserTable() == old(UserTable()) && ExpenseTable() == old(ExpenseTable())
      ensures IncomeTable() == old(IncomeTable()) && SavingsGoalTable() == old(SavingsGoalTable())
    {
      removed := id in budgets;
      budgets := budgets - {id};
    }

    // ---- Savings goals ----

    function GetSavingsGoals(userId: int): (r: seq<SavingsGoal>)
      reads this
      requires Valid()
      ensures forall i :: 0 <= i < |r| ==>
                r[i].id in savingsGoals && savingsGoals[r[i].id] == r[i] && r[i].userId == userId
      ensures forall k :: k in savingsGoals && savingsGoals[k].userId == userId ==> savingsGoals[k] in r
      ensures IncreasingBy(r, SavingsGoalId)
    {
      SelectFacts(savingsGoals, currentSavingsGoalId, SavingsGoalId, (g: SavingsGoal) => g.userId == userId);
      Select(savingsGoals, currentSavingsGoalId, (g: SavingsGoal) => g.userId == userId)
    }

    /** Stores the goal with the column default of `currentAmount` applied (see `Schema.NewSavingsGoal`). */
    method CreateSavingsGoal(ins: InsertSavingsGoal, now: Instant) returns (g: SavingsGoal)
      requires Valid()
      modifies this
      ensures Valid()
      ensures g == NewSavingsGoal(ins, old(currentSavingsGoalId), now)
      ensures g.id !in old(savingsGoals)
      ensures savingsGoals == old(savingsGoals)[g.id := g] && currentSavingsGoalId == old(currentSavingsGoalId) + 1
      ensures UserTable() == old(UserTable()) && ExpenseTable() == old(ExpenseTable())
      ensures IncomeTable() == old(IncomeTable()) && BudgetTable() == old(BudgetTable())
    {
      var id := currentSavingsGoalId;
      KeyedAdvance(savingsGoals, currentSavingsGoalId, SavingsGoalId);
      currentSavingsGoalId := currentSavingsGoalId + 1;
      g := NewSavingsGoal(ins, id, now);
      KeyedStore(savingsGoals, currentSavingsGoalId, SavingsGoalId, id, g);
      savingsGoals := savingsGoals[id := g];
    }

    method UpdateSavingsGoal(id: int, patch: SavingsGoalPatch) returns (r: Option<SavingsGoal>)
      requires Valid()
      modifies this
      ensures Valid()
      ensures id !in old(savingsGoals) ==> r == None && savingsGoals == old(savingsGoals)
      ensures id in old(savingsGoals) ==>
                r == Some(MergeSavingsGoal(old(savingsGoals)[id], patch)) &&
                savingsGoals == old(savingsGoals)[id := r.value]
      ensures currentSavingsGoalId == old(currentSavingsGoalId)
      ensures UserTable() == old(UserTable()) && ExpenseTable() == old(ExpenseTable())
      ensures IncomeTable() == old(IncomeTable()) && BudgetTable() == old(BudgetTable())
    {
      if id !in savingsGoals {
        return None;
      }
      var updated := MergeSavingsGoal(savingsGoals[id], patch);
      KeyedStore(savingsGoals, currentSavingsGoalId, SavingsGoalId, id, updated);
      savingsGoals := savingsGoals[id := updated];
      r := Some(updated);
    }

    method DeleteSavingsGoal(id: int) returns (removed: bool)
      requires Valid()
      modifies this
      ensures Valid()
      ensures removed == (id in old(savingsGoals))
      ensures savingsGoals == old(savingsGoals) - {id} && currentSavingsGoalId == old(currentSavingsGoalId)
      ensures UserTable() == old(UserTable()) && ExpenseTable() == old(ExpenseTable())
      ensures IncomeTable() == old(IncomeTable()) && BudgetTable() == old(BudgetTable())
    {
      removed := id in savingsGoals;
      savingsGoals := savingsGoals - {id};
    }
  }

  /**
   * A short session against the store: ids start at 1, a deleted id is gone
   * for deletes and updates alike, and it is not handed out again.
   */
  method IdsAreNotReused(ins: InsertExpense, now: Instant)
    returns (first: int, second: int, third: int, deletedAgain: bool, updatedAfterDelete: bool)
    ensures first == 1 && second == 2 && third == 3
    ensures !deletedAgain && !updatedAfterDelete
  {
    var s := new MemStorage();
    var a := s.CreateExpense(ins, now);
    var b := s.CreateExpense(ins, now);
    var removed := s.DeleteExpense(b.id);
    deletedAgain := s.DeleteExpense(b.id);
    var c := s.CreateExpense(ins, now);
    assert s.expenses.Keys == {1, 3};
    var gone := s.UpdateExpense(b.id, NoExpenseChange);
    first, second, third, updatedAfterDelete := a.id, b.id, c.id, gone.Some?;
  }

  /** Two users may share a username; lookup by name returns the earlier one. */
  method DuplicateUsernames(ins: InsertUser, now: Instant) returns (firstId: int, secondId: int, found: Option<int>)
    ensures firstId == 1 && secondId == 2 && found == Some(1)
  {
    var s := new MemStorage();
    var first := s.CreateUser(ins, now);
    var second := s.CreateUser(ins, now);
    assert s.users[2].username == ins.username;
    var user := s.GetUserByUsername(ins.username);
    firstId, secondId := first.id, second.id;
    found := if user.Some? then Some(user.value.id) else None;
  }
}
