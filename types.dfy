/**
 * The records the application passes around: catalogue products, the client's
 * order line, the flat stored order row and the body of a create request.
 */
module Types {
  import opened Common

  /** The three product categories. */
  datatype Category = Pizza | Sobremesa | Bebida

  /** The category as the client writes it ('pizza', 'sobremesa', 'bebida'). */
  function CategoryName(c: Category): (r: string)
    ensures r in {"pizza", "sobremesa", "bebida"}
  {
    match c
    case Pizza => "pizza"
    case Sobremesa => "sobremesa"
    case Bebida => "bebida"
  }

  /** Distinct categories have distinct names. */
  lemma CategoryNameInjective(a: Category, b: Category)
    requires CategoryName(a) == CategoryName(b)
    ensures a == b
  {
  }

  /** A catalogue entry. */
  datatype Product = Product(id: string, nome: string, preco: real, categoria: Category, ingredientes: seq<string>)

  /**
   * An order line before the store has given it an id and a creation time:
   * what the order modal hands to the create call.
   */
  datatype OrderDraft = OrderDraft(
    itemId: string,
    nome: string,
    categoria: Category,
    preco: real,
    quantidade: int,
    tamanho: string,
    tipoMassa: string,
    removedIngredients: seq<string>,
    cliente: string,
    telefone: string,
    endereco: string,
    formaPagamento: string,
    cpfNota: Option<string>)

  /** The client's view of one order: a draft plus what the store assigned. */
  datatype OrderItem = OrderItem(
    id: int,
    draft: OrderDraft,
    criadoEm: Option<string>,
    precoTotalBackend: Option<real>)

  /** The flat stored order row, one name slot per category, unused slots holding 'N/A'. */
  datatype BackendOrder = BackendOrder(
    idPedido: int,
    cliente: string,
    telefone: string,
    enderecoEntrega: string,
    formaPagamento: string,
    horaPedido: string,
    pedidoPizza: string,
    pedidoBebida: string,
    sobremesa: string,
    tamanhoPizza: string,
    quantidadePizza: int,
    bordaRecheada: bool,
    quantidadeBebidas: int,
    quantidadeSobremesa: int,
    precoTotal: real,
    itemExtra: Option<string>,
    precoItemExtra: real,
    cpfNota: Option<string>)

  /**
   * The JSON body of a create request as the server reads it: any field may be
   * missing. A client-sent price, id or time may be present and is ignored.
   */
  datatype CreateRequest = CreateRequest(
    cliente: Option<string>,
    telefone: Option<string>,
    enderecoEntrega: Option<string>,
    formaPagamento: Option<string>,
    cpfNota: Option<string>,
    pedidoPizza: Option<string>,
    tamanhoPizza: Option<string>,
    quantidadePizza: Option<int>,
    bordaRecheada: Option<bool>,
    pedidoBebida: Option<string>,
    quantidadeBebidas: Option<int>,
    sobremesa: Option<string>,
    quantidadeSobremesa: Option<int>,
    itemExtra: Option<string>,
    precoItemExtra: Option<real>,
    idPedido: Option<int>,
    horaPedido: Option<string>,
    precoTotal: Option<real>)

  /** The filter that keeps the stored rows with an id other than `id`. */
  function OtherId(id: int): BackendOrder -> bool
  {
    (bo: BackendOrder) => bo.idPedido != id
  }
}
