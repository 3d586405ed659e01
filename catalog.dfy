/** The fixed product catalogue: pizzas, desserts and drinks, in display order. */
module Catalog {
  import opened Types

  const PIZZAS: seq<Product> := [
    Product("p1", "4 Queijos", 48.0, Pizza, ["Molho de Tomate", "Muçarela", "Parmesão", "Provolone", "Gorgonzola", "Orégano"]),
    Product("p2", "Atum", 42.0, Pizza, ["Molho de Tomate", "Muçarela", "Atum Sólido", "Cebola", "Orégano"]),
    Product("p3", "Banana com Doce de Leite", 44.0, Pizza, ["Muçarela", "Banana", "Doce de Leite", "Canela"]),
    Product("p4", "Brócolis com Catupiry", 42.0, Pizza, ["Molho de Tomate", "Muçarela", "Brócolis", "Catupiry", "Alho Frito"]),
    Product("p5", "Calabresa", 40.0, Pizza, ["Molho de Tomate", "Muçarela", "Calabresa Fatiada", "Cebola", "Azeitona"]),
    Product("p6", "Camarão com Catupiry", 55.0, Pizza, ["Molho de Tomate", "Muçarela", "Camarão", "Catupiry", "Salsinha"]),
    Product("p7", "Chocolate", 38.0, Pizza, ["Muçarela", "Chocolate ao Leite", "Granulado"]),
    Product("p8", "Frango com Catupiry", 45.0, Pizza, ["Molho de Tomate", "Muçarela", "Frango Desfiado", "Catupiry", "Milho"]),
    Product("p9", "Milho com Bacon", 44.0, Pizza, ["Molho de Tomate", "Muçarela", "Milho Verde", "Bacon Crocante"]),
    Product("p10", "Moda da Casa", 48.0, Pizza, ["Molho de Tomate", "Muçarela", "Presunto", "Ovo", "Ervilha", "Palmito", "Cebola"]),
    Product("p11", "Muçarela", 35.0, Pizza, ["Molho de Tomate", "Muçarela", "Rodelas de Tomate", "Orégano"]),
    Product("p12", "Napolitana", 40.0, Pizza, ["Molho de Tomate", "Muçarela", "Rodelas de Tomate", "Parmesão", "Alho"]),
    Product("p13", "Pepperoni", 48.0, Pizza, ["Molho de Tomate", "Muçarela", "Pepperoni", "Orégano"]),
    Product("p14", "Portuguesa", 50.0, Pizza, ["Molho de Tomate", "Muçarela", "Presunto", "Ovo", "Cebola", "Ervilha", "Azeitona"])
  ]

  const SOBREMESAS: seq<Product> := [
    Product("s1", "Brownie", 12.0, Sobremesa, ["Chocolate", "Nozes"]),
    Product("s2", "Sorvete", 10.0, Sobremesa, ["Leite", "Baunilha"]),
    Product("s3", "Pudim", 8.0, Sobremesa, ["Leite Condensado", "Ovos"]),
    Product("s4", "Bolo de Chocolate", 9.0, Sobremesa, ["Chocolate", "Farinha"]),
    Product("s7", "Brigadeiro", 4.0, Sobremesa, ["Chocolate", "Leite Condensado"])
  ]

  const BEBIDAS: seq<Product> := [
    Product("b1", "Coca-Cola Lata", 6.0, Bebida, []),
    Product("b5", "Suco Natural", 8.0, Bebida, ["Laranja", "Gelo"]),
    Product("b6", "Água Mineral", 4.0, Bebida, [])
  ]

  /** Everything on sale: the pizzas, then the desserts, then the drinks. */
  const CATALOGO: seq<Product> := PIZZAS + SOBREMESAS + BEBIDAS

  /** The catalogue is the pizzas, then the desserts, then the drinks: 22 products. */
  lemma CatalogLayout()
    ensures |PIZZAS| == 14 && |SOBREMESAS| == 5 && |BEBIDAS| == 3 && |CATALOGO| == 22
    ensures CATALOGO[..14] == PIZZAS && CATALOGO[14..19] == SOBREMESAS && CATALOGO[19..] == BEBIDAS
  {
    assert CATALOGO == PIZZAS + (SOBREMESAS + BEBIDAS);
  }

  /** Each list holds only products of its own category. */
  lemma PizzasArePizzas()
    ensures forall i :: 0 <= i < |PIZZAS| ==> PIZZAS[i].categoria == Pizza
  {
  }

  lemma DessertsAreDesserts()
    ensures forall i :: 0 <= i < |SOBREMESAS| ==> SOBREMESAS[i].categoria == Sobremesa
  {
  }

  lemma DrinksAreDrinks()
    ensures forall i :: 0 <= i < |BEBIDAS| ==> BEBIDAS[i].categoria == Bebida
  {
  }

  /** No two products of the catalogue share an id. */
  lemma CatalogIdsDistinct()
    ensures forall i, j :: 0 <= i < j < |CATALOGO| ==> CATALOGO[i].id != CATALOGO[j].id
  {
  }

  /** Every product has a positive price. */
  lemma CatalogPricesPositive()
    ensures forall i :: 0 <= i < |CATALOGO| ==> CATALOGO[i].preco > 0.0
  {
  }
}
