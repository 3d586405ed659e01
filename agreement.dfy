/**
 * How the client's estimate compares with the price the server stores for
 * the same order, once the order has gone through the create payload.
 */
module Agreement {
  import opened Common
  import opened Types
  import opened Catalog
  import Api
  import Server
  import Database
  import LegacyUtils

  /** The total the server stores for a client order. */
  function ServerTotal(order: OrderDraft): real
  {
    Server.NewRecord(Api.Body(Api.CreatePayload(order)), 0, "").precoTotal
  }

  /** The server's dessert table holds exactly the catalogue price of every catalogue dessert. */
  lemma DessertTableMatchesCatalog(prod: Product)
    requires prod in SOBREMESAS
    ensures prod.nome in Database.DessertPriceByName && Database.DessertPriceByName[prod.nome] == prod.preco
  {
  }

  /** For a catalogue dessert, the client estimate and the stored total are the same. */
  lemma DessertPricesAgree(prod: Product, order: OrderDraft)
    requires prod in SOBREMESAS
    requires order.categoria == Sobremesa && order.nome == prod.nome && order.preco == prod.preco
    requires order.quantidade >= 0
    ensures ServerTotal(order) == Api.Estimate(order) == prod.preco * order.quantidade as real
  {
    DessertTableMatchesCatalog(prod);
    TabledDessertAgrees(order);
  }

  /** A dessert priced as in the server's table gets the same total on both sides. */
  lemma TabledDessertAgrees(order: OrderDraft)
    requires order.categoria == Sobremesa && order.quantidade >= 0
    requires order.nome in Database.DessertPriceByName && Database.DessertPriceByName[order.nome] == order.preco
    ensures ServerTotal(order) == Api.Estimate(order) == order.preco * order.quantidade as real
  {
    var d := Server.PriceInputOf(Api.Body(Api.CreatePayload(order)));
    DessertInput(order);
    Database.PriceDecomposition(d);
  }

  /** What the server prices for a named dessert order: only the dessert line, with no extra. */
  lemma DessertInput(order: OrderDraft)
    requires order.categoria == Sobremesa && order.nome != ""
    ensures var d := Server.PriceInputOf(Api.Body(Api.CreatePayload(order)));
      d.quantidadePizza == 0 && d.quantidadeBebidas == 0 && d.precoItemExtra == Some(0.0) &&
      d.sobremesa == order.nome && d.quantidadeSobremesa == order.quantidade
  {
  }

  /** A Média pizza with a traditional crust and base price 40 costs the same on both sides. */
  lemma MediumPizzaAtFortyAgrees(order: OrderDraft)
    requires order.categoria == Pizza && order.preco == 40.0 && order.tamanho == "Média"
    requires order.tipoMassa != "Recheada" && order.quantidade >= 0 && Api.Filled(order.nome)
    ensures ServerTotal(order) == Api.Estimate(order) == 40.0 * order.quantidade as real
  {
    var d := Server.PriceInputOf(Api.Body(Api.CreatePayload(order)));
    assert d.tamanhoPizza == "Média" && d.quantidadePizza == order.quantidade && !d.bordaRecheada;
    assert d.quantidadeBebidas == 0 && d.quantidadeSobremesa == 0 && d.precoItemExtra == Some(0.0);
    Database.PriceDecomposition(d);
  }

  /** Two large filled-crust Calabresas: 106 on the client, 110 on the server. */
  lemma CalabresaDisagrees()
    ensures var order := OrderDraft("p5", PIZZAS[4].nome, Pizza, PIZZAS[4].preco, 2, "Grande", "Recheada", [],
                                    "Ana", "9999", "Rua A", "PIX", None);
            Api.Estimate(order) == 106.0 && ServerTotal(order) == 110.0
  {
    var order := OrderDraft("p5", PIZZAS[4].nome, Pizza, PIZZAS[4].preco, 2, "Grande", "Recheada", [],
                            "Ana", "9999", "Rua A", "PIX", None);
    var d := Server.PriceInputOf(Api.Body(Api.CreatePayload(order)));
    assert d.tamanhoPizza == "Grande" && d.quantidadePizza == 2 && d.bordaRecheada;
    assert d.quantidadeBebidas == 0 && d.quantidadeSobremesa == 0 && d.precoItemExtra == Some(0.0);
    Database.PriceDecomposition(d);
  }

  /** A can of Coca-Cola: 6 on the client, the flat drink price 8 on the server. */
  lemma DrinkDisagrees()
    ensures var order := OrderDraft("b1", BEBIDAS[0].nome, Bebida, BEBIDAS[0].preco, 1, "Padrão", "Tradicional", [],
                                    "Ana", "9999", "Rua A", "PIX", None);
            Api.Estimate(order) == 6.0 && ServerTotal(order) == 8.0
  {
    var order := OrderDraft("b1", BEBIDAS[0].nome, Bebida, BEBIDAS[0].preco, 1, "Padrão", "Tradicional", [],
                            "Ana", "9999", "Rua A", "PIX", None);
    var d := Server.PriceInputOf(Api.Body(Api.CreatePayload(order)));
    assert d.quantidadePizza == 0 && d.quantidadeBebidas == 1 && d.quantidadeSobremesa == 0;
    assert d.precoItemExtra == Some(0.0);
    Database.PriceDecomposition(d);
  }
}
