/**
 * The record shapes of the five tables (users, expenses, incomes, budgets,
 * savings goals), the insert payloads, which leave out `id` and `createdAt`
 * because the store supplies them, and the partial payloads updates merge in.
 *
 * Nullable columns (`description`, `deadline`) are `Option`s; every other
 * column is required. Amounts carry no sign constraint and `period` is free
 * text. A field of a partial payload is `None` when the key is absent; for a
 * nullable column `Some(None)` sets it to null.
 */
module Schema {
  import opened Wrappers
  import opened Calendar

  datatype User = User(id: int, username: string, password: string, email: string,
                       fullName: string, createdAt: Instant)
  datatype InsertUser = InsertUser(username: string, password: string, email: string, fullName: string)

  datatype Expense = Expense(id: int, userId: int, amount: real, category: string,
                             description: Option<string>, date: Instant, createdAt: Instant)
  datatype InsertExpense = InsertExpense(userId: int, amount: real, category: string,
                                         description: Option<string>, date: Instant)
  datatype ExpensePatch = ExpensePatch(userId: Option<int>, amount: Option<real>, category: Option<string>,
                                       description: Option<Option<string>>, date: Option<Instant>)

  datatype Income = Income(id: int, userId: int, amount: real, source: string,
                           description: Option<string>, date: Instant, createdAt: Instant)
  datatype InsertIncome = InsertIncome(userId: int, amount: real, source: string,
                                       description: Option<string>, date: Instant)
  datatype IncomePatch = IncomePatch(userId: Option<int>, amount: Option<real>, source: Option<string>,
                                     description: Option<Option<string>>, date: Option<Instant>)

  datatype Budget = Budget(id: int, userId: int, category: string, amount: real, period: string,
                           startDate: Instant, endDate: Instant, createdAt: Instant)
  datatype InsertBudget = InsertBudget(userId: int, category: string, amount: real, period: string,
                                       startDate: Instant, endDate: Instant)
  datatype BudgetPatch = BudgetPatch(userId: Option<int>, category: Option<string>, amount: Option<real>,
                                     period: Option<string>, startDate: Option<Instant>, endDate: Option<Instant>)

  datatype SavingsGoal = SavingsGoal(id: int, userId: int, name: string, targetAmount: real,
                                     currentAmount: real, deadline: Option<Instant>, createdAt: Instant)
  /** `currentAmount` has a column default, so the insert payload may leave it out. */
  datatype InsertSavingsGoal = InsertSavingsGoal(userId: int, name: string, targetAmount: real,
                                                 currentAmount: Option<real>, deadline: Option<Instant>)
  datatype SavingsGoalPatch = SavingsGoalPatch(userId: Option<int>, name: Option<string>, targetAmount: Option<real>,
                                               currentAmount: Option<real>, deadline: Option<Option<Instant>>)

  /** Field accessors, for passing to the list helpers. */
  function ExpenseAmount(e: Expense): real { e.amount }
  function IncomeAmount(i: Income): real { i.amount }
  function CategoryOf(e: Expense): string { e.category }
  /** The date as a sort key (`new Date(x.date).getTime()`). */
  function ExpenseTime(e: Expense): real { e.date as real }
  function IncomeTime(i: Income): real { i.date as real }

  /** The column default of `current_amount`. */
  const DefaultCurrentAmount: real := 0.0

  // ---- Creation: `{ ...insert, id, createdAt: now }` ----

  function NewUser(ins: InsertUser, id: int, now: Instant): (u: User)
    ensures u.id == id && u.createdAt == now
    ensures InsertUser(u.username, u.password, u.email, u.fullName) == ins
  {
    User(id, ins.username, ins.password, ins.email, ins.fullName, now)
  }

  function NewExpense(ins: InsertExpense, id: int, now: Instant): (e: Expense)
    ensures e.id == id && e.createdAt == now
    ensures InsertExpense(e.userId, e.amount, e.category, e.description, e.date) == ins
  {
    Expense(id, ins.userId, ins.amount, ins.category, ins.description, ins.date, now)
  }

  function NewIncome(ins: InsertIncome, id: int, now: Instant): (i: Income)
    ensures i.id == id && i.createdAt == now
    ensures InsertIncome(i.userId, i.amount, i.source, i.description, i.date) == ins
  {
    Income(id, ins.userId, ins.amount, ins.source, ins.description, ins.date, now)
  }

  function NewBudget(ins: InsertBudget, id: int, now: Instant): (b: Budget)
    ensures b.id == id && b.createdAt == now
    ensures InsertBudget(b.userId, b.category, b.amount, b.period, b.startDate, b.endDate) == ins
  {
    Budget(id, ins.userId, ins.category, ins.amount, ins.period, ins.startDate, ins.endDate, now)
  }

  /**
   * A stored goal with the column default applied: an omitted `currentAmount` is 0.
   * (The in-memory store as written does not apply it; see `StoredGoalAsWritten`.)
   */
  function NewSavingsGoal(ins: InsertSavingsGoal, id: int, now: Instant): (g: SavingsGoal)
    ensures g.id == id && g.createdAt == now
    ensures g.currentAmount == if ins.currentAmount.Some? then ins.currentAmount.value else DefaultCurrentAmount
    ensures InsertSavingsGoal(g.userId, g.name, g.targetAmount, ins.currentAmount, g.deadline) == ins
  {
    SavingsGoal(id, ins.userId, ins.name, ins.targetAmount, ins.currentAmount.GetOr(DefaultCurrentAmount),
                ins.deadline, now)
  }

  /**
   * What `{ ...insertSavingsGoal, id, createdAt: now }` holds: the spread copies
   * only the keys the payload has, so an omitted `currentAmount` stays missing.
   */
  datatype GoalObject = GoalObject(id: int, userId: int, name: string, targetAmount: real,
                                   currentAmount: Option<real>, deadline: Option<Instant>, createdAt: Instant)

  function StoredGoalAsWritten(ins: InsertSavingsGoal, id: int, now: Instant): (g: GoalObject)
    ensures g.currentAmount == ins.currentAmount
    ensures g.id == id && g.createdAt == now
  {
    GoalObject(id, ins.userId, ins.name, ins.targetAmount, ins.currentAmount, ins.deadline, now)
  }

  /**
   * The discrepancy: for a payload without `currentAmount`, the object the
   * store keeps has no `currentAmount` at all, while the schema promises 0.
   */
  lemma GoalWithoutCurrentAmount(userId: int, name: string, target: real, id: int, now: Instant)
    ensures StoredGoalAsWritten(InsertSavingsGoal(userId, name, target, None, None), id, now).currentAmount.None?
    ensures NewSavingsGoal(InsertSavingsGoal(userId, name, target, None, None), id, now).currentAmount == 0.0
  {
  }

  // ---- Update: `{ ...record, ...patch }` ----

  function Pick<T>(patch: Option<T>, prior: T): T
  {
    if patch.Some? then patch.value else prior
  }

  const NoExpenseChange: ExpensePatch := ExpensePatch(None, None, None, None, None)
  const NoIncomeChange: IncomePatch := IncomePatch(None, None, None, None, None)
  const NoBudgetChange: BudgetPatch := BudgetPatch(None, None, None, None, None, None)
  const NoSavingsGoalChange: SavingsGoalPatch := SavingsGoalPatch(None, None, None, None, None)

  /** Merge: the keys the patch has overwrite, the rest keep their value; `id` and `createdAt` never change. */
  function MergeExpense(e: Expense, p: ExpensePatch): (r: Expense)
    ensures r.id == e.id && r.createdAt == e.createdAt
    ensures p == NoExpenseChange ==> r == e
  {
    Expense(e.id, Pick(p.userId, e.userId), Pick(p.amount, e.amount), Pick(p.category, e.category),
            Pick(p.description, e.description), Pick(p.date, e.date), e.createdAt)
  }

  function MergeIncome(i: Income, p: IncomePatch): (r: Income)
    ensures r.id == i.id && r.createdAt == i.createdAt
    ensures p == NoIncomeChange ==> r == i
  {
    Income(i.id, Pick(p.userId, i.userId), Pick(p.amount, i.amount), Pick(p.source, i.source),
           Pick(p.description, i.description), Pick(p.date, i.date), i.createdAt)
  }

  function MergeBudget(b: Budget, p: BudgetPatch): (r: Budget)
    ensures r.id == b.id && r.createdAt == b.createdAt
    ensures p == NoBudgetChange ==> r == b
  {
    Budget(b.id, Pick(p.userId, b.userId), Pick(p.category, b.category), Pick(p.amount, b.amount),
           Pick(p.period, b.period), Pick(p.startDate, b.startDate), Pick(p.endDate, b.endDate), b.createdAt)
  }

  function MergeSavingsGoal(g: SavingsGoal, p: SavingsGoalPatch): (r: SavingsGoal)
    ensures r.id == g.id && r.createdAt == g.createdAt
    ensures p == NoSavingsGoalChange ==> r == g
  {
    SavingsGoal(g.id, Pick(p.userId, g.userId), Pick(p.name, g.name), Pick(p.targetAmount, g.targetAmount),
                Pick(p.currentAmount, g.currentAmount), Pick(p.deadline, g.deadline), g.createdAt)
  }

  /** `{ ...p, ...q }` on two patches: `q`'s keys win. */
  function Overlay<T>(p: Option<T>, q: Option<T>): Option<T>
  {
    if q.Some? then q else p
  }

  function OverlayExpense(p: ExpensePatch, q: ExpensePatch): ExpensePatch
  {
    ExpensePatch(Overlay(p.userId, q.userId), Overlay(p.amount, q.amount), Overlay(p.category, q.category),
                 Overlay(p.description, q.description), Overlay(p.date, q.date))
  }

  /**
   * Two updates in a row are one update with the patches spread together,
   * and repeating an update changes nothing more.
   */
  lemma ExpenseMergeLaws(e: Expense, p: ExpensePatch, q: ExpensePatch)
    ensures MergeExpense(MergeExpense(e, p), q) == MergeExpense(e, OverlayExpense(p, q))
    ensures MergeExpense(MergeExpense(e, p), p) == MergeExpense(e, p)
  {
  }

  /** A patch that sets only `currentAmount` changes nothing else of the goal. */
  lemma CurrentAmountOnlyPatch(g: SavingsGoal, amount: real)
    ensures MergeSavingsGoal(g, SavingsGoalPatch(None, None, None, Some(amount), None))
            == g.(currentAmount := amount)
  {
  }
}
