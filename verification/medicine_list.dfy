/** The pharmacy catalogue: a fixed list of medicines filtered by a search
    query and a category. Prices are integer cents. */
module MedicineList {
  import opened Common
  import opened Text

  datatype Medicine = Medicine(
    id: string, name: string, genericName: string, price: int,
    category: string, inStock: bool, prescription: bool, image: string)

  /** The category buttons, "all" first. */
  const Categories: seq<string> := ["all", "pain relief", "antibiotics", "vitamins", "heart", "diabetes"]

  const Placeholder := "/api/placeholder/100/100"

  /** The five medicines of the catalogue. */
  const Medicines: seq<Medicine> := [
    Medicine("1", "Paracetamol 500mg", "Acetaminophen", 1299, "pain relief", true, false, Placeholder),
    Medicine("2", "Amoxicillin 250mg", "Amoxicillin", 2850, "antibiotics", true, true, Placeholder),
    Medicine("3", "Vitamin D3 1000IU", "Cholecalciferol", 1575, "vitamins", true, false, Placeholder),
    Medicine("4", "Lisinopril 10mg", "Lisinopril", 2200, "heart", false, true, Placeholder),
    Medicine("5", "Metformin 500mg", "Metformin HCl", 1890, "diabetes", true, true, Placeholder)
  ]

  /** `matchesSearch`: the name or the generic name includes the query,
      ignoring case. */
  predicate MatchesSearch(m: Medicine, query: string) {
    IncludesIgnoringCase(m.name, query) || IncludesIgnoringCase(m.genericName, query)
  }

  /** `matchesCategory`: "all", or exactly the medicine's category. */
  predicate MatchesCategory(m: Medicine, category: string) {
    category == "all" || m.category == category
  }

  predicate Passes(m: Medicine, query: string, category: string) {
    MatchesSearch(m, query) && MatchesCategory(m, category)
  }

  /** `filteredMedicines`: the medicines that pass both tests, in catalogue
      order. Stock plays no part. */
  function FilteredMedicines(medicines: seq<Medicine>, query: string, category: string): (r: seq<Medicine>)
    ensures forall m :: m in r <==> m in medicines && MatchesSearch(m, query) && MatchesCategory(m, category)
    ensures IsSubsequence(r, medicines)
    ensures |r| <= |medicines|
    ensures forall m {:trigger multiset(r)[m]} :: multiset(r)[m] == if Passes(m, query, category) then multiset(medicines)[m] else 0
  {
    Filter(medicines, (m: Medicine) => Passes(m, query, category))
  }

  /** An empty search with category "all" shows the whole catalogue. */
  lemma EmptySearchShowsAll(medicines: seq<Medicine>)
    ensures FilteredMedicines(medicines, "", "all") == medicines
  {
    var p := (m: Medicine) => Passes(m, "", "all");
    assert Lower("") == "";
    forall m | m in medicines
      ensures p(m)
    {
      ContainsEmpty(Lower(m.name));
    }
    FilterKeepsAll(medicines, p);
  }

  /** Choosing a category only narrows the "all" result for the same
      query, and the narrowed list is that result filtered by category. */
  lemma {:induction false} FilterThenFilter(medicines: seq<Medicine>, query: string, category: string)
    ensures FilteredMedicines(medicines, query, category)
            == Filter(FilteredMedicines(medicines, query, "all"), (m: Medicine) => MatchesCategory(m, category))
    decreases |medicines|
  {
    if medicines != [] {
      FilterThenFilter(medicines[1..], query, category);
    }
  }

  /** The catalogue screen: the search text and the selected category. */
  class MedicineList {
    var searchQuery: string
    var selectedCategory: string

    constructor ()
      ensures searchQuery == "" && selectedCategory == "all"
      ensures Filtered() == Medicines
    {
      searchQuery, selectedCategory := "", "all";
      EmptySearchShowsAll(Medicines);
    }

    /** The medicines shown. */
    function Filtered(): (r: seq<Medicine>)
      reads this
      ensures r == FilteredMedicines(Medicines, searchQuery, selectedCategory)
      ensures forall m :: m in r <==> m in Medicines && Passes(m, searchQuery, selectedCategory)
    {
      FilteredMedicines(Medicines, searchQuery, selectedCategory)
    }

    /** Typing in the search box, or a spoken search from the voice button:
        the category stays as it was. */
    method SetSearchQuery(query: string)
      modifies this
      ensures searchQuery == query && selectedCategory == old(selectedCategory)
    {
      searchQuery := query;
    }

    /** A category button: the search text stays as it was. */
    method SetSelectedCategory(category: string)
      requires category in Categories
      modifies this
      ensures selectedCategory == category && searchQuery == old(searchQuery)
    {
      selectedCategory := category;
    }
  }
}
