/** The fixed table of expense categories and the lookup with its fallback to "other". */
module Categories {
  import opened Wrappers
  import opened Seqs

  datatype ExpenseCategory = ExpenseCategory(id: string, name: string, icon: string, color: string)

  const ExpenseCategories: seq<ExpenseCategory> := [
    ExpenseCategory("food", "Food", "fastfood", "bg-blue-500"),
    ExpenseCategory("rent", "Rent", "home", "bg-purple-500"),
    ExpenseCategory("transportation", "Transportation", "directions_bus", "bg-green-500"),
    ExpenseCategory("utilities", "Utilities", "power", "bg-yellow-500"),
    ExpenseCategory("entertainment", "Entertainment", "sports_esports", "bg-pink-500"),
    ExpenseCategory("education", "Education", "school", "bg-indigo-500"),
    ExpenseCategory("tuition", "Tuition", "account_balance", "bg-red-500"),
    ExpenseCategory("books", "Books", "book", "bg-amber-500"),
    ExpenseCategory("shopping", "Shopping", "shopping_cart", "bg-cyan-500"),
    ExpenseCategory("health", "Health", "local_hospital", "bg-teal-500"),
    ExpenseCategory("other", "Other", "more_horiz", "bg-gray-500")
  ]

  /**
   * The first entry with that id; for an id the table does not have, the last
   * entry. (`find` yields an object, always truthy, so `||` only acts on `undefined`.)
   */
  function GetCategoryById(id: string): ExpenseCategory
  {
    match Find(ExpenseCategories, (cat: ExpenseCategory) => cat.id == id)
    case Some(cat) => cat
    case None => ExpenseCategories[|ExpenseCategories| - 1]
  }

  /**
   * The lookup returns an entry of the table: the one with that id when there
   * is one, and the last entry otherwise.
   */
  lemma GetCategoryByIdFacts(id: string)
    ensures GetCategoryById(id) in ExpenseCategories
    ensures (exists i :: 0 <= i < |ExpenseCategories| && ExpenseCategories[i].id == id) ==> GetCategoryById(id).id == id
    ensures (forall i :: 0 <= i < |ExpenseCategories| ==> ExpenseCategories[i].id != id) ==>
              GetCategoryById(id) == ExpenseCategories[|ExpenseCategories| - 1]
  {
    FindSpec(ExpenseCategories, (cat: ExpenseCategory) => cat.id == id);
  }

  /** No two entries share an id, so the entry found is the only one with that id. */
  lemma CategoryIdsDistinct()
    ensures forall i, j :: 0 <= i < j < |ExpenseCategories| ==> ExpenseCategories[i].id != ExpenseCategories[j].id
  {
  }

  /** Looking up "other" gives the last entry, the one unknown ids fall back to. */
  lemma OtherIsLast()
    ensures GetCategoryById("other") == ExpenseCategories[|ExpenseCategories| - 1]
  {
    var t := ExpenseCategories;
    var c := GetCategoryById("other");
    GetCategoryByIdFacts("other");
    assert t[10].id == "other";
    var j :| 0 <= j < |t| && t[j] == c;
    CategoryIdsDistinct();
    assert j == 10;
  }

  /** Any unknown id shows as "Other", exactly as if "other" had been asked for. */
  lemma UnknownIsOther(id: string)
    requires forall i :: 0 <= i < |ExpenseCategories| ==> ExpenseCategories[i].id != id
    ensures GetCategoryById(id) == GetCategoryById("other")
    ensures GetCategoryById(id).name == "Other"
  {
    GetCategoryByIdFacts(id);
    OtherIsLast();
  }
}
