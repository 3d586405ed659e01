/**
 * The order form: the quantity stepper, the removed-ingredient toggles, the
 * defaults for a new order, loading an order for editing, the required-field
 * check on confirm and the running total.
 */
module OrderModal {
  import opened Common
  import opened Strings
  import opened Types
  import Utils

  /** No element occurs twice. */
  predicate Distinct(xs: seq<string>)
  {
    forall i, j :: 0 <= i < j < |xs| ==> xs[i] != xs[j]
  }

  /** The filter that drops one ingredient name. */
  function Other(ing: string): string -> bool
  {
    (i: string) => i != ing
  }

  /** Clicking an ingredient: drop it when it is already removed, else append it. */
  function Toggle(prev: seq<string>, ing: string): seq<string>
  {
    if ing in prev then Filter(prev, Other(ing)) else prev + [ing]
  }

  /** After a click the clicked ingredient is listed exactly when it was not before; other names keep their state. */
  lemma ToggleMembership(prev: seq<string>, ing: string, x: string)
    ensures x == ing ==> (x in Toggle(prev, ing) <==> x !in prev)
    ensures x != ing ==> (x in Toggle(prev, ing) <==> x in prev)
  {
    if ing in prev && x != ing && x in prev {
      FilterKeeps(prev, Other(ing), x);
    }
  }

  /** Clicking an ingredient that was not removed, twice, restores the list exactly. */
  lemma ToggleAbsentTwice(prev: seq<string>, ing: string)
    requires ing !in prev
    ensures Toggle(Toggle(prev, ing), ing) == prev
  {
    var once := prev + [ing];
    assert ing in once;
    FilterAppend(prev, [ing], Other(ing));
    FilterAll(prev, Other(ing));
    assert Filter([ing], Other(ing)) == [];
    assert prev + [] == prev;
  }

  /** Clicking any ingredient twice restores which ingredients are removed. */
  lemma ToggleTwiceSameMembers(prev: seq<string>, ing: string, x: string)
    ensures x in Toggle(Toggle(prev, ing), ing) <==> x in prev
  {
    ToggleMembership(prev, ing, x);
    ToggleMembership(Toggle(prev, ing), ing, x);
  }

  /** Re-adding an ingredient puts it at the end, so the list order is not restored. */
  lemma ToggleTwiceMayReorder()
    ensures Toggle(Toggle(["Cebola", "Azeitona"], "Cebola"), "Cebola") == ["Azeitona", "Cebola"]
  {
    var prev := ["Cebola", "Azeitona"];
    assert "Cebola" in prev;
    assert Filter(prev, Other("Cebola")) == ["Azeitona"] by {
      assert prev[1..] == ["Azeitona"];
      assert ["Azeitona"][1..] == [];
    }
    assert "Cebola" !in ["Azeitona"];
  }

  /** A filter of a list without repeats has no repeats. */
  lemma {:induction false} FilterDistinct(xs: seq<string>, p: string -> bool)
    requires Distinct(xs)
    ensures Distinct(Filter(xs, p))
  {
    if xs != [] {
      assert Distinct(xs[1..]) by {
        forall i, j | 0 <= i < j < |xs[1..]|
          ensures xs[1..][i] != xs[1..][j]
        {
          assert xs[1..][i] == xs[i + 1] && xs[1..][j] == xs[j + 1];
        }
      }
      FilterDistinct(xs[1..], p);
      var rest := Filter(xs[1..], p);
      if p(xs[0]) {
        assert xs[0] !in xs[1..] by {
          forall k | 0 <= k < |xs[1..]|
            ensures xs[1..][k] != xs[0]
          {
            assert xs[1..][k] == xs[k + 1];
          }
        }
        assert xs[0] !in rest;
        var r := [xs[0]] + rest;
        forall i, j | 0 <= i < j < |r|
          ensures r[i] != r[j]
        {
          if i == 0 {
            assert r[j] == rest[j - 1];
          } else {
            assert r[i] == rest[i - 1] && r[j] == rest[j - 1];
          }
        }
      }
    }
  }

  /** Clicking keeps the removed list free of repeats. */
  lemma ToggleDistinct(prev: seq<string>, ing: string)
    requires Distinct(prev)
    ensures Distinct(Toggle(prev, ing))
  {
    if ing in prev {
      FilterDistinct(prev, Other(ing));
    } else {
      var r := prev + [ing];
      forall i, j | 0 <= i < j < |r|
        ensures r[i] != r[j]
      {
        if j == |prev| {
          assert r[i] == prev[i];
        } else {
          assert r[i] == prev[i] && r[j] == prev[j];
        }
      }
    }
  }

  /**
   * The product the form is about: the one clicked in the catalogue, else one
   * rebuilt from the order being edited (its item id as product id, no
   * ingredient list), else none and the form is not shown.
   */
  function TargetProduct(product: Option<Product>, editing: Option<OrderItem>): (r: Option<Product>)
    ensures r.None? <==> product.None? && editing.None?
    ensures product.Some? ==> r == product
    ensures product.None? && editing.Some? ==>
      var d := editing.value.draft;
      r.value.id == d.itemId && r.value.nome == d.nome && r.value.preco == d.preco
      && r.value.categoria == d.categoria && r.value.ingredientes == []
  {
    if product.Some? then product
    else if editing.Some? then
      var d := editing.value.draft;
      Some(Product(d.itemId, d.nome, d.preco, d.categoria, []))
    else None
  }

  /** The size chosen for a new order: 'Padrão' for a drink, 'Média' otherwise. */
  function DefaultSize(categoria: Option<Category>): (r: string)
    ensures r == "Padrão" <==> categoria == Some(Bebida)
    ensures r != "Padrão" ==> r == "Média"
  {
    if categoria == Some(Bebida) then "Padrão" else "Média"
  }

  /** The form's state, one field per input. */
  class ModalState {
    var quantidade: int
    var tamanho: string
    var tipoMassa: string
    var removedIngredients: seq<string>
    var cliente: string
    var telefone: string
    var endereco: string
    var cpf: string
    var formaPagamento: string

    /** What every reachable new-order state keeps: a positive quantity and no repeated removal. */
    predicate Valid()
      reads this
    {
      quantidade >= 1 && Distinct(removedIngredients)
    }

    /** The initial form. */
    constructor ()
      ensures Valid()
      ensures quantidade == 1 && tamanho == "Média" && tipoMassa == "Tradicional"
      ensures removedIngredients == []
      ensures cliente == "" && telefone == "" && endereco == "" && cpf == ""
      ensures formaPagamento == "Dinheiro"
    {
      quantidade := 1;
      tamanho := "Média";
      tipoMassa := "Tradicional";
      removedIngredients := [];
      cliente := "";
      telefone := "";
      endereco := "";
      cpf := "";
      formaPagamento := "Dinheiro";
    }

    /**
     * Opening the form for a new order resets the item choices and the CPF;
     * the customer name, phone, address and payment method carry over.
     */
    method ResetForNewOrder(categoria: Option<Category>)
      modifies this
      ensures Valid()
      ensures quantidade == 1 && tamanho == DefaultSize(categoria) && tipoMassa == "Tradicional"
      ensures removedIngredients == [] && cpf == ""
      ensures cliente == old(cliente) && telefone == old(telefone) && endereco == old(endereco)
      ensures formaPagamento == old(formaPagamento)
    {
      quantidade := 1;
      tamanho := DefaultSize(categoria);
      tipoMassa := "Tradicional";
      removedIngredients := [];
      cpf := "";
    }

    /** The state the form holds right after loading `e` for editing. */
    predicate HoldsEdit(e: OrderItem)
      reads this
    {
      var d := e.draft;
      quantidade == d.quantidade && tamanho == d.tamanho
      && tipoMassa == OrDefault(Some(d.tipoMassa), "Tradicional")
      && removedIngredients == d.removedIngredients
      && cliente == d.cliente && telefone == d.telefone && endereco == d.endereco
      && cpf == OrDefault(d.cpfNota, "")
      && formaPagamento == d.formaPagamento
    }

    /** Opening the form on an existing order copies every field of it. */
    method LoadForEdit(e: OrderItem)
      modifies this
      ensures HoldsEdit(e)
    {
      var d := e.draft;
      quantidade := d.quantidade;
      tamanho := d.tamanho;
      tipoMassa := OrDefault(Some(d.tipoMassa), "Tradicional");
      removedIngredients := d.removedIngredients;
      cliente := d.cliente;
      telefone := d.telefone;
      endereco := d.endereco;
      cpf := OrDefault(d.cpfNota, "");
      formaPagamento := d.formaPagamento;
    }

    /** The minus button: one less, never below one. */
    method Decrement()
      modifies this
      ensures quantidade >= 1
      ensures old(quantidade) > 1 ==> quantidade == old(quantidade) - 1
      ensures old(quantidade) <= 1 ==> quantidade == 1
      ensures removedIngredients == old(removedIngredients)
      ensures old(Valid()) ==> Valid()
      ensures tamanho == old(tamanho) && tipoMassa == old(tipoMassa)
      ensures cliente == old(cliente) && telefone == old(telefone) && endereco == old(endereco)
      ensures cpf == old(cpf) && formaPagamento == old(formaPagamento)
    {
      quantidade := if quantidade - 1 > 1 then quantidade - 1 else 1;
    }

    /** The plus button: one more. */
    method Increment()
      modifies this
      ensures quantidade == old(quantidade) + 1
      ensures removedIngredients == old(removedIngredients)
      ensures old(Valid()) ==> Valid()
      ensures tamanho == old(tamanho) && tipoMassa == old(tipoMassa)
      ensures cliente == old(cliente) && telefone == old(telefone) && endereco == old(endereco)
      ensures cpf == old(cpf) && formaPagamento == old(formaPagamento)
    {
      quantidade := quantidade + 1;
    }

    /** Clicking an ingredient chip. */
    method ToggleIngredient(ing: string)
      modifies this
      ensures removedIngredients == Toggle(old(removedIngredients), ing)
      ensures ing in removedIngredients <==> ing !in old(removedIngredients)
      ensures old(Valid()) ==> Valid()
      ensures quantidade == old(quantidade)
      ensures tamanho == old(tamanho) && tipoMassa == old(tipoMassa)
      ensures cliente == old(cliente) && telefone == old(telefone) && endereco == old(endereco)
      ensures cpf == old(cpf) && formaPagamento == old(formaPagamento)
    {
      ToggleMembership(removedIngredients, ing, ing);
      if Distinct(removedIngredients) {
        ToggleDistinct(removedIngredients, ing);
      }
      removedIngredients := Toggle(removedIngredients, ing);
    }

    /**
     * Confirming: nothing is sent while the name, phone or address is blank;
     * otherwise the draft carries the product's id, name, category and base
     * price, the form's values as typed (untrimmed) and the CPF as `cpfNota`.
     */
    function Confirm(target: Product): (r: Option<OrderDraft>)
      reads this
      ensures r.None? <==> IsBlank(cliente) || IsBlank(telefone) || IsBlank(endereco)
      ensures r.Some? ==>
        r.value.itemId == target.id && r.value.nome == target.nome
        && r.value.categoria == target.categoria && r.value.preco == target.preco
      ensures r.Some? ==>
        r.value.quantidade == quantidade && r.value.tamanho == tamanho && r.value.tipoMassa == tipoMassa
        && r.value.removedIngredients == removedIngredients
        && r.value.cliente == cliente && r.value.telefone == telefone && r.value.endereco == endereco
        && r.value.formaPagamento == formaPagamento && r.value.cpfNota == Some(cpf)
    {
      if IsBlank(cliente) || IsBlank(telefone) || IsBlank(endereco) then None
      else Some(OrderDraft(target.id, target.nome, target.categoria, target.preco, quantidade,
                           tamanho, tipoMassa, removedIngredients, cliente, telefone, endereco,
                           formaPagamento, Some(cpf)))
    }

    /** The running total: the client estimate for the current choices, linear in the quantity. */
    function Total(target: Product): (r: real)
      reads this
      ensures r == quantidade as real
        * Utils.CalculateItemPrice(target.preco, 1, CategoryName(target.categoria), tamanho, tipoMassa)
    {
      Utils.PriceLinearInQuantity(target.preco, quantidade, CategoryName(target.categoria), tamanho, tipoMassa);
      Utils.CalculateItemPrice(target.preco, quantidade, CategoryName(target.categoria), tamanho, tipoMassa)
    }
  }

  /**
   * Editing round trip: loading an order and confirming it unchanged gives back
   * the order's draft, except that an empty crust becomes 'Tradicional' and a
   * missing CPF becomes the empty string.
   */
  lemma EditThenConfirm(m: ModalState, e: OrderItem)
    requires m.HoldsEdit(e)
    requires !IsBlank(e.draft.cliente) && !IsBlank(e.draft.telefone) && !IsBlank(e.draft.endereco)
    ensures m.Confirm(TargetProduct(None, Some(e)).value)
      == Some(e.draft.(tipoMassa := OrDefault(Some(e.draft.tipoMassa), "Tradicional"),
                       cpfNota := Some(OrDefault(e.draft.cpfNota, ""))))
  {
  }

  /** A draft confirmed from the form is priced by the drawer exactly as the form showed it. */
  lemma ConfirmedTotal(m: ModalState, target: Product)
    requires m.Confirm(target).Some?
    ensures var d := m.Confirm(target).value;
      Utils.CalculateItemPrice(d.preco, d.quantidade, CategoryName(d.categoria), d.tamanho, d.tipoMassa)
        == m.Total(target)
  {
  }
}
