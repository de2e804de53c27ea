/** The string-backed enumeration of product categories. */
module Categories {

  datatype Category = Electronics | Furniture | Groceries | HomeAppliances
  {
    /** The backing value of the enum case. */
    function Value(): string
    {
      match this
      case Electronics => "electronics"
      case Furniture => "furniture"
      case Groceries => "groceries"
      case HomeAppliances => "homeappliances"
    }
  }

  const AllCategories: set<Category> := {Electronics, Furniture, Groceries, HomeAppliances}

  /** Every category is one of the four cases, and the four cases are distinct. */
  lemma CategoriesAreFour(c: Category)
    ensures c in AllCategories
    ensures |AllCategories| == 4
  {
    assert AllCategories == {Electronics} + {Furniture} + {Groceries} + {HomeAppliances};
  }

  /** The backing values are pairwise distinct: a value names at most one case. */
  lemma ValueInjective(a: Category, b: Category)
    ensures a.Value() == b.Value() ==> a == b
  {
  }

  /** The four backing values, as the enum declares them. */
  lemma BackingValues()
    ensures Electronics.Value() == "electronics"
    ensures Furniture.Value() == "furniture"
    ensures Groceries.Value() == "groceries"
    ensures HomeAppliances.Value() == "homeappliances"
  {
  }
}
