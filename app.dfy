/**
 * The top-level screen: the catalogue search filter and the orders list kept
 * in the screen's state, with the handlers that prepend, remove and change
 * orders.
 */
module App {
  import opened Common
  import opened Strings
  import opened Types
  import opened Catalog

  /** The category tab: every category, or just one. */
  datatype CategoryFilter = All | Only(c: Category)

  /** The search box's terms: lower-cased, trimmed, split at white space, empty pieces dropped. */
  function SearchTerms(searchTerm: string): (terms: seq<string>)
    ensures forall t :: t in terms ==> |t| > 0
  {
    Words(Trim(Lower(searchTerm)))
  }

  /** App.tsx lines 63-67: the text a term is looked for in, lower-cased. */
  function SearchableText(item: Product): string
  {
    Lower("\n        " + item.nome + " \n        " + CategoryName(item.categoria) + " \n        "
          + Join(item.ingredientes, " ") + "\n      ")
  }

  /** Every search term is a run of non-space characters. */
  lemma SearchTermsNoSpace(searchTerm: string)
    ensures forall t :: t in SearchTerms(searchTerm) ==> NoSpace(t)
  {
  }

  /** App.tsx lines 57-69 for one item. */
  predicate Matches(activeCategory: CategoryFilter, terms: seq<string>, item: Product)
  {
    (activeCategory.All? || item.categoria == activeCategory.c)
    && (terms == [] || forall i :: 0 <= i < |terms| ==> Includes(SearchableText(item), terms[i]))
  }

  function MatchesFilter(activeCategory: CategoryFilter, terms: seq<string>): Product -> bool
  {
    (item: Product) => Matches(activeCategory, terms, item)
  }

  /** The catalogue items that match a category tab and a list of terms, in catalogue order. */
  function FilterByTerms(activeCategory: CategoryFilter, terms: seq<string>): seq<Product>
  {
    Filter(CATALOGO, MatchesFilter(activeCategory, terms))
  }

  /** `filteredCatalog`. */
  function FilteredCatalog(activeCategory: CategoryFilter, searchTerm: string): seq<Product>
  {
    FilterByTerms(activeCategory, SearchTerms(searchTerm))
  }

  /**
   * An item is shown exactly when it is in the catalogue, belongs to the
   * selected tab and contains every term; the shown items keep catalogue order.
   */
  lemma FilteredCatalogSpec(activeCategory: CategoryFilter, searchTerm: string, item: Product)
    ensures item in FilteredCatalog(activeCategory, searchTerm)
        <==> item in CATALOGO && Matches(activeCategory, SearchTerms(searchTerm), item)
    ensures IsSubsequence(FilteredCatalog(activeCategory, searchTerm), CATALOGO)
  {
    FilterByTermsSpec(activeCategory, SearchTerms(searchTerm), item);
  }

  /** The same for any list of terms. */
  lemma FilterByTermsSpec(activeCategory: CategoryFilter, terms: seq<string>, item: Product)
    ensures item in FilterByTerms(activeCategory, terms) <==> item in CATALOGO && Matches(activeCategory, terms, item)
    ensures IsSubsequence(FilterByTerms(activeCategory, terms), CATALOGO)
  {
    var p := MatchesFilter(activeCategory, terms);
    if item in CATALOGO && p(item) {
      FilterKeeps(CATALOGO, p, item);
    }
    FilterIsSubsequence(CATALOGO, p);
  }

  /** With one tab selected, every shown item is of that category. */
  lemma FilteredCategory(c: Category, searchTerm: string)
    ensures forall item :: item in FilteredCatalog(Only(c), searchTerm) ==> item.categoria == c
  {
  }

  /** A blank search box gives no terms. */
  lemma BlankSearchHasNoTerms(searchTerm: string)
    requires IsBlank(searchTerm)
    ensures SearchTerms(searchTerm) == []
  {
    BlankIffAllSpace(searchTerm);
    var lower := Lower(searchTerm);
    assert forall i :: 0 <= i < |lower| ==> IsSpace(lower[i]);
    BlankIffAllSpace(lower);
    assert SplitSpaces("") == [""];
    assert Filter([""], NonEmpty) == [];
  }

  /** A blank search box shows every catalogue item of the selected tab, in order. */
  lemma BlankSearchKeepsCategory(activeCategory: CategoryFilter, searchTerm: string)
    requires IsBlank(searchTerm)
    ensures FilteredCatalog(activeCategory, searchTerm)
         == Filter(CATALOGO, (item: Product) => activeCategory.All? || item.categoria == activeCategory.c)
  {
    BlankSearchHasNoTerms(searchTerm);
    SameFilter(CATALOGO, activeCategory);
  }

  lemma {:induction false} SameFilter(xs: seq<Product>, activeCategory: CategoryFilter)
    ensures Filter(xs, MatchesFilter(activeCategory, []))
         == Filter(xs, (item: Product) => activeCategory.All? || item.categoria == activeCategory.c)
  {
    if xs != [] {
      SameFilter(xs[1..], activeCategory);
    }
  }

  /** Typing more terms never shows more: the result is a sub-list of the one before. */
  lemma MoreTermsNarrower(activeCategory: CategoryFilter, terms: seq<string>, extra: seq<string>)
    ensures IsSubsequence(FilterByTerms(activeCategory, terms + extra), FilterByTerms(activeCategory, terms))
  {
    var strong, weak := MatchesFilter(activeCategory, terms + extra), MatchesFilter(activeCategory, terms);
    forall item | item in CATALOGO && strong(item)
      ensures weak(item)
    {
      if terms != [] {
        assert forall i :: 0 <= i < |terms| ==> (terms + extra)[i] == terms[i];
      }
    }
    FilterStrongerIsSubsequence(CATALOGO, strong, weak);
  }

  /** The orders list without the orders of one id. */
  function RemoveById(orders: seq<OrderItem>, id: int): seq<OrderItem>
  {
    Filter(orders, (o: OrderItem) => o.id != id)
  }

  /** Removing drops every order with that id and keeps every other order, in order. */
  lemma RemoveByIdSpec(orders: seq<OrderItem>, id: int)
    ensures forall o :: o in RemoveById(orders, id) ==> o.id != id
    ensures forall o :: o in orders && o.id != id ==> o in RemoveById(orders, id)
    ensures IsSubsequence(RemoveById(orders, id), orders)
  {
    forall o | o in orders && o.id != id
      ensures o in RemoveById(orders, id)
    {
      FilterKeeps(orders, (o: OrderItem) => o.id != id, o);
    }
    FilterIsSubsequence(orders, (o: OrderItem) => o.id != id);
  }

  /** The orders with that id take the new quantity; nothing else changes. */
  function UpdateQuantity(orders: seq<OrderItem>, id: int, newQuantity: int): (r: seq<OrderItem>)
    ensures |r| == |orders|
    ensures forall i :: 0 <= i < |orders| ==> r[i].id == orders[i].id
    ensures forall i :: 0 <= i < |orders| ==>
      r[i].draft.quantidade == (if orders[i].id == id then newQuantity else orders[i].draft.quantidade)
    ensures forall i :: 0 <= i < |orders| ==>
      r[i].draft.(quantidade := 0) == orders[i].draft.(quantidade := 0)
      && r[i].criadoEm == orders[i].criadoEm && r[i].precoTotalBackend == orders[i].precoTotalBackend
  {
    if orders == [] then []
    else
      var o := orders[0];
      [if o.id == id then o.(draft := o.draft.(quantidade := newQuantity)) else o]
        + UpdateQuantity(orders[1..], id, newQuantity)
  }

  /** The screen state the order handlers change. */
  class AppState {
    var orders: seq<OrderItem>
    var editingOrder: Option<OrderItem>
    var isModalOpen: bool
    var isDrawerOpen: bool

    constructor ()
      ensures orders == [] && editingOrder == None && !isModalOpen && !isDrawerOpen
    {
      orders := [];
      editingOrder := None;
      isModalOpen := false;
      isDrawerOpen := false;
    }

    /**
     * `handleConfirmOrder`: while editing, only the modal closes; otherwise
     * the order the service returned goes to the front of the list, the modal
     * closes and the drawer opens.
     */
    method HandleConfirmOrder(newOrder: OrderItem)
      modifies this
      ensures old(editingOrder).Some? ==>
        orders == old(orders) && !isModalOpen && isDrawerOpen == old(isDrawerOpen)
      ensures old(editingOrder).None? ==>
        orders == [newOrder] + old(orders) && !isModalOpen && isDrawerOpen
      ensures editingOrder == old(editingOrder)
    {
      if editingOrder.Some? {
        isModalOpen := false;
        return;
      }
      orders := [newOrder] + orders;
      isModalOpen := false;
      if !isDrawerOpen {
        isDrawerOpen := true;
      }
    }

    /** `handleRemoveOrder`: only a confirmed and successful delete changes the list. */
    method HandleRemoveOrder(id: int, confirmed: bool, success: bool)
      modifies this
      ensures confirmed && success ==> orders == RemoveById(old(orders), id)
      ensures !(confirmed && success) ==> orders == old(orders)
      ensures editingOrder == old(editingOrder) && isModalOpen == old(isModalOpen) && isDrawerOpen == old(isDrawerOpen)
    {
      if confirmed {
        if success {
          orders := RemoveById(orders, id);
        }
      }
    }

    /** `handleUpdateQuantity`: a quantity below 1 is ignored. */
    method HandleUpdateQuantity(id: int, newQuantity: int)
      modifies this
      ensures newQuantity < 1 ==> orders == old(orders)
      ensures newQuantity >= 1 ==> orders == UpdateQuantity(old(orders), id, newQuantity)
      ensures editingOrder == old(editingOrder) && isModalOpen == old(isModalOpen) && isDrawerOpen == old(isDrawerOpen)
    {
      if newQuantity < 1 {
        return;
      }
      orders := UpdateQuantity(orders, id, newQuantity);
    }
  }
}
