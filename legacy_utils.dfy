/** The older copy of the client price estimate kept at the top level of the client. */
module LegacyUtils {
  import Utils

  /** `calculateItemPrice`, second copy: per-unit modifiers, then times the quantity. */
  function CalculateItemPrice(precoBase: real, quantidade: int, categoria: string, tamanho: string, tipoMassa: string): real
  {
    var unitPrice :=
      if categoria == "pizza" then
        var sized :=
          if tamanho == "Pequena" then precoBase * 0.8
          else if tamanho == "Grande" then precoBase * 1.2
          else if tamanho == "Família" then precoBase * 1.4
          else precoBase;
        if tipoMassa == "Recheada" then sized + 5.0 else sized
      else if categoria == "bebida" then
        if tamanho == "Grande" then precoBase * 1.5 else precoBase
      else precoBase;
    unitPrice * quantidade as real
  }

  /** The two copies compute the same price on every input, so every law proved of one holds of the other. */
  lemma AgreesWithUtils(precoBase: real, quantidade: int, categoria: string, tamanho: string, tipoMassa: string)
    ensures CalculateItemPrice(precoBase, quantidade, categoria, tamanho, tipoMassa)
      == Utils.CalculateItemPrice(precoBase, quantidade, categoria, tamanho, tipoMassa)
  {
  }

  /** Size factors 0.8/1.2/1.4 for pizza, 1.5 only for a large drink, base price for everything else. */
  lemma LegacyModifiers(p: real, q: int, tamanho: string, tipoMassa: string, categoria: string)
    ensures CalculateItemPrice(p, q, "pizza", tamanho, tipoMassa)
      == (p * Utils.PizzaSizeFactor(tamanho) + (if tipoMassa == "Recheada" then 5.0 else 0.0)) * q as real
    ensures CalculateItemPrice(p, q, "bebida", tamanho, tipoMassa)
      == (if tamanho == "Grande" then p * 1.5 else p) * q as real
    ensures categoria != "pizza" && categoria != "bebida" ==>
      CalculateItemPrice(p, q, categoria, tamanho, tipoMassa) == p * q as real
  {
  }
}
