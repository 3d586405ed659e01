/**
 * The client's order normaliser and its offline fallback: a client order line
 * is flattened into a stored-row payload with one filled category slot, a
 * stored row is read back by a fixed slot priority, and when the server cannot
 * be reached orders are kept in a local list instead.
 */
module Api {
  import opened Common
  import opened Strings
  import opened Types
  import LegacyUtils
  import Utils

  /** The sentinel of an unused category slot. */
  const NotApplicable := "N/A"
  const UnknownItem := "Item Desconhecido"
  const BackendItemId := "backend-item"

  /** The create body the client posts: a stored row without id, time or total. */
  datatype Payload = Payload(
    cliente: string,
    telefone: string,
    enderecoEntrega: string,
    formaPagamento: string,
    pedidoPizza: string,
    tamanhoPizza: string,
    quantidadePizza: int,
    bordaRecheada: bool,
    pedidoBebida: string,
    quantidadeBebidas: int,
    sobremesa: string,
    quantidadeSobremesa: int,
    itemExtra: Option<string>,
    precoItemExtra: real)

  /** The name slot of a payload that belongs to a category. */
  function PayloadSlot(p: Payload, c: Category): string
  {
    match c
    case Pizza => p.pedidoPizza
    case Sobremesa => p.sobremesa
    case Bebida => p.pedidoBebida
  }

  /** The quantity field of a payload that belongs to a category. */
  function PayloadQuantity(p: Payload, c: Category): int
  {
    match c
    case Pizza => p.quantidadePizza
    case Sobremesa => p.quantidadeSobremesa
    case Bebida => p.quantidadeBebidas
  }

  /**
   * The payload of `createOrder`: every slot starts as 'N/A' with quantity 0,
   * then the slot of the order's category receives its name and quantity.
   */
  function CreatePayload(order: OrderDraft): (p: Payload)
    ensures PayloadSlot(p, order.categoria) == order.nome
    ensures PayloadQuantity(p, order.categoria) == order.quantidade
    ensures forall c :: c != order.categoria ==> PayloadSlot(p, c) == NotApplicable && PayloadQuantity(p, c) == 0
    ensures p.bordaRecheada <==> order.categoria == Pizza && order.tipoMassa == Utils.Recheada
    ensures p.tamanhoPizza == if order.categoria == Pizza then order.tamanho else "Média"
    ensures p.itemExtra == Utils.FormatIngredientsToExtra(order.removedIngredients)
    ensures p.precoItemExtra == 0.0
    ensures p.cliente == order.cliente && p.telefone == order.telefone
    ensures p.enderecoEntrega == order.endereco && p.formaPagamento == order.formaPagamento
  {
    var defaults := Payload(
      order.cliente, order.telefone, order.endereco, order.formaPagamento,
      NotApplicable, "Média", 0, false,
      NotApplicable, 0,
      NotApplicable, 0,
      if |order.removedIngredients| > 0 then Some("Sem: " + Join(order.removedIngredients, ", ")) else None,
      0.0);
    match order.categoria
    case Pizza =>
      defaults.(pedidoPizza := order.nome, tamanhoPizza := order.tamanho,
                quantidadePizza := order.quantidade, bordaRecheada := order.tipoMassa == "Recheada")
    case Sobremesa => defaults.(sobremesa := order.nome, quantidadeSobremesa := order.quantidade)
    case Bebida => defaults.(pedidoBebida := order.nome, quantidadeBebidas := order.quantidade)
  }

  /** The payload as the server receives it: every field present, except a missing note. */
  function Body(p: Payload): (d: CreateRequest)
    ensures d.precoTotal.None? && d.idPedido.None? && d.horaPedido.None? && d.cpfNota.None?
  {
    CreateRequest(
      Some(p.cliente), Some(p.telefone), Some(p.enderecoEntrega), Some(p.formaPagamento), None,
      Some(p.pedidoPizza), Some(p.tamanhoPizza), Some(p.quantidadePizza), Some(p.bordaRecheada),
      Some(p.pedidoBebida), Some(p.quantidadeBebidas),
      Some(p.sobremesa), Some(p.quantidadeSobremesa),
      p.itemExtra, Some(p.precoItemExtra),
      None, None, None)
  }

  /** The client's own estimate of an order's total (the top-level copy of the estimator). */
  function Estimate(order: OrderDraft): real
  {
    LegacyUtils.CalculateItemPrice(order.preco, order.quantidade, CategoryName(order.categoria), order.tamanho, order.tipoMassa)
  }

  /** The name slot of a stored row that belongs to a category. */
  function RecordSlot(bo: BackendOrder, c: Category): string
  {
    match c
    case Pizza => bo.pedidoPizza
    case Sobremesa => bo.sobremesa
    case Bebida => bo.pedidoBebida
  }

  function RecordQuantity(bo: BackendOrder, c: Category): int
  {
    match c
    case Pizza => bo.quantidadePizza
    case Sobremesa => bo.quantidadeSobremesa
    case Bebida => bo.quantidadeBebidas
  }

  /** A slot counts as filled when it is non-empty and not the sentinel. */
  predicate Filled(s: string)
  {
    s != "" && s != NotApplicable
  }

  /** What a stored row is read as: the item's category, name, quantity and size. */
  datatype Line = Line(categoria: Category, nome: string, quantidade: int, tamanho: string)

  /** services/api.ts lines 10-31: pizza slot first, then dessert, then drink; an empty row reads as an unknown pizza. */
  function ReadLine(bo: BackendOrder): Line
  {
    if Filled(bo.pedidoPizza) then Line(Pizza, bo.pedidoPizza, bo.quantidadePizza, bo.tamanhoPizza)
    else if Filled(bo.sobremesa) then Line(Sobremesa, bo.sobremesa, bo.quantidadeSobremesa, "Padrão")
    else if Filled(bo.pedidoBebida) then Line(Bebida, bo.pedidoBebida, bo.quantidadeBebidas, "Padrão")
    else Line(Pizza, UnknownItem, 1, "Média")
  }

  /** The order in which slots are consulted. */
  const SlotPriority: seq<Category> := [Pizza, Sobremesa, Bebida]

  /** No category listed before position `i` has a filled slot. */
  predicate NoneFilledBefore(bo: BackendOrder, cats: seq<Category>, i: int)
    requires i <= |cats|
  {
    forall j :: 0 <= j < i ==> !Filled(RecordSlot(bo, cats[j]))
  }

  /** The first category in `cats` whose slot is filled. */
  function FirstFilled(bo: BackendOrder, cats: seq<Category>): (r: Option<Category>)
    ensures r.Some? ==> r.value in cats && Filled(RecordSlot(bo, r.value))
    ensures r.None? ==> forall c :: c in cats ==> !Filled(RecordSlot(bo, c))
    ensures r.Some? ==> exists i :: 0 <= i < |cats| && cats[i] == r.value && NoneFilledBefore(bo, cats, i)
  {
    if cats == [] then None
    else if Filled(RecordSlot(bo, cats[0])) then Some(cats[0])
    else
      var r := FirstFilled(bo, cats[1..]);
      if r.Some? then
        var i :| 0 <= i < |cats| - 1 && cats[1..][i] == r.value && NoneFilledBefore(bo, cats[1..], i);
        assert cats[i + 1] == r.value && NoneFilledBefore(bo, cats, i + 1);
        r
      else r
  }

  /**
   * A row is read as its first filled slot in priority order, so a row with
   * several filled slots loses all but the highest one; a row with none reads
   * as one unknown pizza of size Média.
   */
  lemma ReadLineByPriority(bo: BackendOrder)
    ensures FirstFilled(bo, SlotPriority).Some? ==>
      var c := FirstFilled(bo, SlotPriority).value;
      ReadLine(bo) == Line(c, RecordSlot(bo, c), RecordQuantity(bo, c), if c == Pizza then bo.tamanhoPizza else "Padrão")
    ensures FirstFilled(bo, SlotPriority).None? ==> ReadLine(bo) == Line(Pizza, UnknownItem, 1, "Média")
  {
    assert SlotPriority[1..] == [Sobremesa, Bebida];
    assert SlotPriority[1..][1..] == [Bebida];
    assert [Bebida][1..] == [];
    assert Pizza in SlotPriority && Sobremesa in SlotPriority && Bebida in SlotPriority;
  }

  /** services/api.ts lines 33-49: one stored row as a client order. */
  function MapBackendOrder(bo: BackendOrder): (item: OrderItem)
    ensures item.id == bo.idPedido && item.precoTotalBackend == Some(bo.precoTotal)
    ensures item.draft.quantidade != 0 ==> item.draft.preco * item.draft.quantidade as real == bo.precoTotal
    ensures item.draft.quantidade == 0 ==> item.draft.preco == bo.precoTotal
    ensures item.draft.tipoMassa == (if bo.bordaRecheada then Utils.Recheada else "Tradicional")
    ensures item.draft.removedIngredients == []
    ensures var l := ReadLine(bo);
      item.draft.categoria == l.categoria && item.draft.nome == l.nome &&
      item.draft.quantidade == l.quantidade && item.draft.tamanho == l.tamanho
    ensures item.draft.itemId == BackendItemId && item.criadoEm == Some(bo.horaPedido) && item.draft.cpfNota.None?
    ensures item.draft.cliente == bo.cliente && item.draft.telefone == bo.telefone
    ensures item.draft.endereco == bo.enderecoEntrega && item.draft.formaPagamento == bo.formaPagamento
  {
    var line := ReadLine(bo);
    var divisor := if line.quantidade != 0 then line.quantidade else 1;
    OrderItem(
      bo.idPedido,
      OrderDraft(
        BackendItemId, line.nome, line.categoria,
        if bo.precoTotal != 0.0 then bo.precoTotal / divisor as real else 0.0,
        line.quantidade, line.tamanho,
        if bo.bordaRecheada then "Recheada" else "Tradicional",
        [],
        bo.cliente, bo.telefone, bo.enderecoEntrega, bo.formaPagamento, None),
      Some(bo.horaPedido),
      Some(bo.precoTotal))
  }

  /** `mapBackendToFrontend`: every row mapped, order and length preserved. */
  function MapBackendToFrontend(bos: seq<BackendOrder>): (items: seq<OrderItem>)
    ensures |items| == |bos|
    ensures forall i :: 0 <= i < |bos| ==> items[i] == MapBackendOrder(bos[i])
  {
    seq(|bos|, i requires 0 <= i < |bos| => MapBackendOrder(bos[i]))
  }

  /** services/api.ts lines 147-165: the row the offline path stores, with the client estimate as its total. */
  function OfflineRecord(p: Payload, mockId: int, now: string, frontendPrice: real): BackendOrder
  {
    BackendOrder(
      mockId, p.cliente, p.telefone, p.enderecoEntrega, p.formaPagamento, now,
      OrDefault(Some(p.pedidoPizza), NotApplicable),
      OrDefault(Some(p.pedidoBebida), NotApplicable),
      OrDefault(Some(p.sobremesa), NotApplicable),
      OrDefault(Some(p.tamanhoPizza), "Média"),
      p.quantidadePizza, p.bordaRecheada, p.quantidadeBebidas, p.quantidadeSobremesa,
      frontendPrice, p.itemExtra, p.precoItemExtra, None)
  }

  /** The row stored offline for an order with a named item reads back as that item's line. */
  lemma OfflineReadsBack(order: OrderDraft, mockId: int, now: string, price: real)
    requires Filled(order.nome)
    ensures ReadLine(OfflineRecord(CreatePayload(order), mockId, now, price))
         == Line(order.categoria, order.nome, order.quantidade,
                 if order.categoria != Pizza then "Padrão" else OrDefault(Some(order.tamanho), "Média"))
  {
    var p := CreatePayload(order);
    assert PayloadSlot(p, order.categoria) == order.nome;
    assert forall c :: c != order.categoria ==> PayloadSlot(p, c) == NotApplicable;
  }

  /** The offline total divided by the quantity is the client's unit estimate. */
  lemma OfflineUnitPrice(order: OrderDraft)
    requires order.quantidade != 0
    ensures Estimate(order) / order.quantidade as real
         == LegacyUtils.CalculateItemPrice(order.preco, 1, CategoryName(order.categoria), order.tamanho, order.tipoMassa)
  {
    var cat := CategoryName(order.categoria);
    LegacyUtils.AgreesWithUtils(order.preco, order.quantidade, cat, order.tamanho, order.tipoMassa);
    LegacyUtils.AgreesWithUtils(order.preco, 1, cat, order.tamanho, order.tipoMassa);
    Utils.PriceLinearInQuantity(order.preco, order.quantidade, cat, order.tamanho, order.tipoMassa);
  }

  /**
   * Storing an order offline and reading it back restores its category, name
   * and quantity (and its size, for a pizza with a size), and recovers the
   * client's unit estimate as the price.
   */
  lemma OfflineRoundTrip(order: OrderDraft, mockId: int, now: string)
    requires Filled(order.nome)
    ensures var item := MapBackendOrder(OfflineRecord(CreatePayload(order), mockId, now, Estimate(order)));
            && item.id == mockId
            && item.draft.categoria == order.categoria
            && item.draft.nome == order.nome
            && item.draft.quantidade == order.quantidade
            && (order.categoria == Pizza && order.tamanho != "" ==> item.draft.tamanho == order.tamanho)
            && (order.categoria != Pizza ==> item.draft.tamanho == "Padrão")
            && (order.quantidade != 0 ==>
                  item.draft.preco == LegacyUtils.CalculateItemPrice(order.preco, 1, CategoryName(order.categoria), order.tamanho, order.tipoMassa))
  {
    var bo := OfflineRecord(CreatePayload(order), mockId, now, Estimate(order));
    OfflineReadsBack(order, mockId, now, Estimate(order));
    var line := ReadLine(bo);
    var item := MapBackendOrder(bo);
    assert item.draft.nome == line.nome && item.draft.categoria == line.categoria;
    assert item.draft.quantidade == line.quantidade && item.draft.tamanho == line.tamanho;
    if order.quantidade != 0 {
      OfflineUnitPrice(order);
      var q := order.quantidade as real;
      assert item.draft.preco == if bo.precoTotal != 0.0 then bo.precoTotal / q else 0.0;
    }
  }

  /** The note stored offline recovers the removed ingredients when their names are comma-free and trimmed. */
  lemma OfflineNoteRoundTrip(order: OrderDraft, mockId: int, now: string, price: real)
    requires forall x :: x in order.removedIngredients ==> ',' !in x && Trim(x) == x
    ensures Utils.ParseExtraToIngredients(OfflineRecord(CreatePayload(order), mockId, now, price).itemExtra)
         == order.removedIngredients
  {
    Utils.ParseFormatRoundTrip(order.removedIngredients);
  }

  /** The offline list after deleting `id`. */
  function RemoveRecord(orders: seq<BackendOrder>, id: int): seq<BackendOrder>
  {
    Filter(orders, OtherId(id))
  }

  /** Deleting removes every row with that id and keeps every other row, in order. */
  lemma RemoveRecordSpec(orders: seq<BackendOrder>, id: int)
    ensures forall bo :: bo in RemoveRecord(orders, id) ==> bo.idPedido != id
    ensures forall bo :: bo in orders && bo.idPedido != id ==> bo in RemoveRecord(orders, id)
    ensures IsSubsequence(RemoveRecord(orders, id), orders)
  {
    forall bo | bo in orders && bo.idPedido != id
      ensures bo in RemoveRecord(orders, id)
    {
      FilterKeeps(orders, OtherId(id), bo);
    }
    FilterIsSubsequence(orders, OtherId(id));
  }

  /** What the server answered to a delete: a status, or no answer at all. */
  datatype DeleteReply = Reached(ok: bool) | Unreachable

  /** The client's order service, with its local fallback slot. */
  class OfflineStore {
    /** The serialised list under the local-storage key; None until first written. */
    var stored: Option<seq<BackendOrder>>

    constructor ()
      ensures stored == None
    {
      stored := None;
    }

    /** The stored list, empty when nothing was ever stored. */
    function Orders(): seq<BackendOrder>
      reads this
    {
      if stored.Some? then stored.value else []
    }

    /**
     * `createOrder`: with a server reply, the order comes back with the
     * server's id and total; without one, the row is put at the front of the
     * local list and the order comes back with the placeholder id and the
     * client estimate.
     */
    method CreateOrder(order: OrderDraft, reply: Option<BackendOrder>, mockId: int, now: string) returns (r: OrderItem)
      modifies this
      ensures reply.Some? ==> stored == old(stored)
      ensures reply.Some? ==> r == OrderItem(reply.value.idPedido, order, Some(now), Some(reply.value.precoTotal))
      ensures reply.None? ==>
        stored == Some([OfflineRecord(CreatePayload(order), mockId, now, Estimate(order))] + old(Orders()))
      ensures reply.None? ==> r == OrderItem(mockId, order, Some(now), Some(Estimate(order)))
      ensures reply.None? ==> |Orders()| == |old(Orders())| + 1 && Orders()[0].idPedido == mockId
      ensures reply.None? ==> GetOrders(None)[0] == MapBackendOrder(Orders()[0])
    {
      var payload := CreatePayload(order);
      var frontendPrice := Estimate(order);
      if reply.Some? {
        r := OrderItem(reply.value.idPedido, order, Some(now), Some(reply.value.precoTotal));
        return;
      }
      var newBackendOrder := OfflineRecord(payload, mockId, now, frontendPrice);
      var orders := Orders();
      orders := [newBackendOrder] + orders;
      stored := Some(orders);
      r := OrderItem(mockId, order, Some(now), Some(frontendPrice));
    }

    /** `getOrders`: the server's list, or else the local one, mapped to client orders. */
    function GetOrders(reply: Option<seq<BackendOrder>>): seq<OrderItem>
      reads this
    {
      if reply.Some? then MapBackendToFrontend(reply.value) else MapBackendToFrontend(Orders())
    }

    /**
     * `deleteOrder`: a server answer is returned as it is; with no answer,
     * the rows with that id leave the local list and the result is true,
     * unless no list was ever stored.
     */
    method DeleteOrder(id: int, reply: DeleteReply) returns (ok: bool)
      modifies this
      ensures reply.Reached? ==> ok == reply.ok && stored == old(stored)
      ensures reply.Unreachable? ==> ok == old(stored).Some?
      ensures reply.Unreachable? && old(stored).Some? ==> stored == Some(RemoveRecord(old(stored).value, id))
      ensures reply.Unreachable? && old(stored).None? ==> stored == None
    {
      if reply.Reached? {
        return reply.ok;
      }
      if stored.Some? {
        var filteredOrders := Filter(stored.value, OtherId(id));
        stored := Some(filteredOrders);
        return true;
      }
      return false;
    }
  }
}
