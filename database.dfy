/**
 * The server's authoritative price: a fixed price table per pizza size, a
 * per-pizza crust surcharge, a flat drink price, a dessert table keyed by name,
 * plus a flat extra. Components with a non-positive quantity add nothing.
 */
module Database {
  import opened Common

  /** The fields of a stored order that the price depends on. */
  datatype PriceInput = PriceInput(
    tamanhoPizza: string,
    quantidadePizza: int,
    bordaRecheada: bool,
    quantidadeBebidas: int,
    sobremesa: string,
    quantidadeSobremesa: int,
    precoItemExtra: Option<real>)

  const PizzaPriceBySize: map<string, real> := map["Pequena" := 30.0, "Média" := 40.0, "Grande" := 50.0, "Família" := 60.0]
  const PizzaFallbackPrice: real := 40.0
  const CrustPrice: real := 5.0
  const DrinkPrice: real := 8.0
  const DessertPriceByName: map<string, real> := map["Pudim" := 8.0, "Sorvete" := 10.0, "Brigadeiro" := 4.0, "Brownie" := 12.0, "Bolo de Chocolate" := 9.0]
  const DessertFallbackPrice: real := 10.0

  /** `table[key] || fallback`: a missing key (or a zero entry) gives the fallback. */
  function Lookup(table: map<string, real>, key: string, fallback: real): real
  {
    if key in table && table[key] != 0.0 then table[key] else fallback
  }

  /** `calcularPrecoTotal`: the running total of lines 237-258, one guarded step at a time. */
  function CalcularPrecoTotal(dados: PriceInput): real
  {
    AddExtra(AddDessert(AddDrinks(AddPizza(0.0, dados), dados), dados), dados)
  }

  /** backend/src/database.ts lines 239-245: pizzas at the size price, plus the crust surcharge per pizza. */
  function AddPizza(total: real, dados: PriceInput): real
  {
    if dados.quantidadePizza > 0 then
      var valorPizza := Lookup(PizzaPriceBySize, dados.tamanhoPizza, PizzaFallbackPrice);
      var t := total + valorPizza * dados.quantidadePizza as real;
      if dados.bordaRecheada then t + CrustPrice * dados.quantidadePizza as real else t
    else total
  }

  /** backend/src/database.ts lines 247-249: drinks at the flat price. */
  function AddDrinks(total: real, dados: PriceInput): real
  {
    if dados.quantidadeBebidas > 0 then total + dados.quantidadeBebidas as real * DrinkPrice else total
  }

  /** backend/src/database.ts lines 251-254: the dessert at its table price. */
  function AddDessert(total: real, dados: PriceInput): real
  {
    if dados.quantidadeSobremesa > 0 then
      var valorSobremesa := Lookup(DessertPriceByName, dados.sobremesa, DessertFallbackPrice);
      total + valorSobremesa * dados.quantidadeSobremesa as real
    else total
  }

  /** backend/src/database.ts line 256: a truthy extra price is added once. */
  function AddExtra(total: real, dados: PriceInput): real
  {
    if dados.precoItemExtra.Some? && dados.precoItemExtra.value != 0.0 then total + dados.precoItemExtra.value else total
  }

  /** The price a pizza line adds, as a table entry times the quantity. */
  function PizzaPart(d: PriceInput): real
  {
    if d.quantidadePizza <= 0 then 0.0
    else
      var size := if d.tamanhoPizza in PizzaPriceBySize then PizzaPriceBySize[d.tamanhoPizza] else PizzaFallbackPrice;
      size * d.quantidadePizza as real
  }

  /** The crust surcharge: 5 per pizza, only for a filled crust on a positive pizza quantity. */
  function CrustPart(d: PriceInput): real
  {
    if d.bordaRecheada && d.quantidadePizza > 0 then CrustPrice * d.quantidadePizza as real else 0.0
  }

  /** Drinks cost 8 each whatever their name or size. */
  function DrinkPart(d: PriceInput): real
  {
    if d.quantidadeBebidas > 0 then DrinkPrice * d.quantidadeBebidas as real else 0.0
  }

  /** A dessert costs its table price by name, 10 for any name the table lacks ('N/A' included). */
  function DessertPart(d: PriceInput): real
  {
    if d.quantidadeSobremesa <= 0 then 0.0
    else
      var unit := if d.sobremesa in DessertPriceByName then DessertPriceByName[d.sobremesa] else DessertFallbackPrice;
      unit * d.quantidadeSobremesa as real
  }

  /** The extra price is added once, unscaled. */
  function ExtraPart(d: PriceInput): real
  {
    if d.precoItemExtra.Some? then d.precoItemExtra.value else 0.0
  }

  /** The total is the sum of the independent per-component prices. */
  lemma PriceDecomposition(d: PriceInput)
    ensures CalcularPrecoTotal(d) == PizzaPart(d) + CrustPart(d) + DrinkPart(d) + DessertPart(d) + ExtraPart(d)
  {
    NoZeroEntries();
    var t1 := AddPizza(0.0, d);
    assert t1 == PizzaPart(d) + CrustPart(d);
    var t2 := AddDrinks(t1, d);
    assert t2 == t1 + DrinkPart(d);
    var t3 := AddDessert(t2, d);
    assert t3 == t2 + DessertPart(d);
  }

  /** No table entry is zero, so `|| fallback` only fires for a missing key. */
  lemma NoZeroEntries()
    ensures forall k :: k in PizzaPriceBySize ==> PizzaPriceBySize[k] != 0.0
    ensures forall k :: k in DessertPriceByName ==> DessertPriceByName[k] != 0.0
  {
  }

  /** The size table, entry by entry, and the fallback for every other size. */
  lemma PizzaSizeTable(d: PriceInput)
    requires d.quantidadePizza > 0
    ensures d.tamanhoPizza == "Pequena" ==> PizzaPart(d) == 30.0 * d.quantidadePizza as real
    ensures d.tamanhoPizza == "Média" ==> PizzaPart(d) == 40.0 * d.quantidadePizza as real
    ensures d.tamanhoPizza == "Grande" ==> PizzaPart(d) == 50.0 * d.quantidadePizza as real
    ensures d.tamanhoPizza == "Família" ==> PizzaPart(d) == 60.0 * d.quantidadePizza as real
    ensures d.tamanhoPizza !in {"Pequena", "Média", "Grande", "Família"} ==> PizzaPart(d) == 40.0 * d.quantidadePizza as real
  {
  }

  /** The dessert table, entry by entry, and the fallback for every other name. */
  lemma DessertTable(d: PriceInput)
    requires d.quantidadeSobremesa > 0
    ensures d.sobremesa == "Pudim" ==> DessertPart(d) == 8.0 * d.quantidadeSobremesa as real
    ensures d.sobremesa == "Sorvete" ==> DessertPart(d) == 10.0 * d.quantidadeSobremesa as real
    ensures d.sobremesa == "Brigadeiro" ==> DessertPart(d) == 4.0 * d.quantidadeSobremesa as real
    ensures d.sobremesa == "Brownie" ==> DessertPart(d) == 12.0 * d.quantidadeSobremesa as real
    ensures d.sobremesa == "Bolo de Chocolate" ==> DessertPart(d) == 9.0 * d.quantidadeSobremesa as real
    ensures d.sobremesa !in DessertPriceByName ==> DessertPart(d) == 10.0 * d.quantidadeSobremesa as real
  {
  }

  /** Nothing ordered and no extra price: the total is zero. */
  lemma EmptyOrderIsFree(d: PriceInput)
    requires d.quantidadePizza <= 0 && d.quantidadeBebidas <= 0 && d.quantidadeSobremesa <= 0
    requires d.precoItemExtra.None? || d.precoItemExtra.value == 0.0
    ensures CalcularPrecoTotal(d) == 0.0
  {
  }

  /** The extra price shifts the total by exactly itself, whatever the quantities. */
  lemma ExtraIsFlat(d: PriceInput, extra: real)
    ensures CalcularPrecoTotal(d.(precoItemExtra := Some(extra))) == CalcularPrecoTotal(d.(precoItemExtra := None)) + extra
  {
    var a, b := d.(precoItemExtra := Some(extra)), d.(precoItemExtra := None);
    var t1 := AddPizza(0.0, a);
    assert t1 == AddPizza(0.0, b);
    var t2 := AddDrinks(t1, a);
    assert t2 == AddDrinks(t1, b);
    var t3 := AddDessert(t2, a);
    assert t3 == AddDessert(t2, b);
    assert CalcularPrecoTotal(a) == AddExtra(t3, a) == t3 + extra;
  }

  /** Non-negative quantities and extra price give a non-negative total. */
  lemma TotalNonNegative(d: PriceInput)
    requires d.precoItemExtra.None? || d.precoItemExtra.value >= 0.0
    ensures CalcularPrecoTotal(d) >= 0.0
  {
    PriceDecomposition(d);
  }
}
