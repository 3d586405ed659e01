/**
 * The client-side price estimate and the removed-ingredient note codec.
 * Prices are exact reals: the estimate only scales by fixed decimals and adds.
 */
module Utils {
  import opened Common
  import opened Strings

  /** The crust that costs extra, and how much per unit. */
  const Recheada := "Recheada"
  const FilledCrustSurcharge: real := 5.0

  /**
   * `calculateItemPrice`: the unit price is the base price, scaled for pizza
   * size (and raised by the filled-crust surcharge) or for a large drink; the
   * result is that unit price times the quantity.
   */
  function CalculateItemPrice(precoBase: real, quantidade: int, categoria: string, tamanho: string, tipoMassa: string): real
  {
    var unitPrice :=
      if categoria == "pizza" then
        var sized :=
          if tamanho == "Pequena" then precoBase * 0.8
          else if tamanho == "Grande" then precoBase * 1.2
          else if tamanho == "Família" then precoBase * 1.4
          else precoBase;
        if tipoMassa == Recheada then sized + FilledCrustSurcharge else sized
      else if categoria == "bebida" then
        if tamanho == "Grande" then precoBase * 1.5 else precoBase
      else precoBase;
    unitPrice * quantidade as real
  }

  /** The pizza size multipliers as a table; a size missing from it keeps the base price. */
  const PizzaSizeFactors: map<string, real> := map["Pequena" := 0.8, "Grande" := 1.2, "Família" := 1.4]

  function PizzaSizeFactor(tamanho: string): (f: real)
    ensures f > 0.0
  {
    if tamanho in PizzaSizeFactors then PizzaSizeFactors[tamanho] else 1.0
  }

  /** A pizza costs (base · size factor + crust surcharge) per unit, times the quantity. */
  lemma PizzaPrice(p: real, q: int, tamanho: string, tipoMassa: string)
    ensures CalculateItemPrice(p, q, "pizza", tamanho, tipoMassa)
      == (p * PizzaSizeFactor(tamanho) + (if tipoMassa == Recheada then FilledCrustSurcharge else 0.0)) * q as real
  {
  }

  /** Média, or any size the table does not know, with an ordinary crust: base price times quantity. */
  lemma PizzaDefaultSize(p: real, q: int, tamanho: string, tipoMassa: string)
    requires tamanho !in {"Pequena", "Grande", "Família"} && tipoMassa != Recheada
    ensures CalculateItemPrice(p, q, "pizza", tamanho, tipoMassa) == p * q as real
  {
  }

  /** Pequena, Grande and Família scale the unit price by 0.8, 1.2 and 1.4. */
  lemma PizzaSizeScaling(p: real, q: int, tipoMassa: string)
    requires tipoMassa != Recheada
    ensures CalculateItemPrice(p, q, "pizza", "Pequena", tipoMassa) == p * 0.8 * q as real
    ensures CalculateItemPrice(p, q, "pizza", "Grande", tipoMassa) == p * 1.2 * q as real
    ensures CalculateItemPrice(p, q, "pizza", "Família", tipoMassa) == p * 1.4 * q as real
  {
  }

  /** The filled-crust surcharge is added per unit, after scaling and before the quantity. */
  lemma FilledCrustPerUnit(p: real, q: int, tamanho: string)
    ensures CalculateItemPrice(p, q, "pizza", tamanho, Recheada)
      == CalculateItemPrice(p, q, "pizza", tamanho, "Tradicional") + FilledCrustSurcharge * q as real
  {
  }

  /** A large drink costs half as much again; any other drink size costs the base; the crust is ignored. */
  lemma DrinkPrice(p: real, q: int, tamanho: string, tipoMassa: string)
    ensures tamanho == "Grande" ==> CalculateItemPrice(p, q, "bebida", tamanho, tipoMassa) == p * 1.5 * q as real
    ensures tamanho != "Grande" ==> CalculateItemPrice(p, q, "bebida", tamanho, tipoMassa) == p * q as real
  {
  }

  /** Desserts and unknown categories take no size or crust modifier. */
  lemma PlainCategoryPrice(p: real, q: int, categoria: string, tamanho: string, tipoMassa: string)
    requires categoria != "pizza" && categoria != "bebida"
    ensures CalculateItemPrice(p, q, categoria, tamanho, tipoMassa) == p * q as real
  {
  }

  /** The price is linear in the quantity; quantity zero costs nothing. */
  lemma PriceLinearInQuantity(p: real, q: int, categoria: string, tamanho: string, tipoMassa: string)
    ensures CalculateItemPrice(p, q, categoria, tamanho, tipoMassa)
      == q as real * CalculateItemPrice(p, 1, categoria, tamanho, tipoMassa)
    ensures CalculateItemPrice(p, 0, categoria, tamanho, tipoMassa) == 0.0
  {
  }

  /** The note that records removed ingredients starts with this marker. */
  const ExtraPrefix := "Sem: "

  /** `formatIngredientsToExtra`: no note for an empty list, else "Sem: " and the names joined by ", ". */
  function FormatIngredientsToExtra(ingredients: seq<string>): (r: Option<string>)
    ensures r.None? <==> ingredients == []
    ensures r.Some? ==> r.value == ExtraPrefix + Join(ingredients, ", ")
  {
    if |ingredients| == 0 then None else Some(ExtraPrefix + Join(ingredients, ", "))
  }

  /**
   * `parseExtraToIngredients`: an absent, empty or unprefixed note gives no
   * ingredients; otherwise the text after the marker, split at every comma,
   * each piece trimmed. (The marker's first occurrence is at the front, so
   * replacing it with nothing drops the first five characters.)
   */
  function ParseExtraToIngredients(extra: Option<string>): (r: seq<string>)
    ensures extra.None? || !StartsWith(extra.value, ExtraPrefix) ==> r == []
    ensures extra.Some? && StartsWith(extra.value, ExtraPrefix) ==> |r| >= 1
  {
    if extra.None? || extra.value == "" || !StartsWith(extra.value, ExtraPrefix) then []
    else
      TrimAll(Split(extra.value[|ExtraPrefix|..], ','))
  }

  /** `.map(s => s.trim())`. */
  function TrimAll(pieces: seq<string>): (r: seq<string>)
    ensures |r| == |pieces|
    ensures forall i :: 0 <= i < |r| ==> r[i] == Trim(pieces[i])
  {
    seq(|pieces|, i requires 0 <= i < |pieces| => Trim(pieces[i]))
  }

  /** A note that starts with the marker is parsed from the text after it. */
  lemma ParsePrefixed(j: string)
    ensures ParseExtraToIngredients(Some(ExtraPrefix + j)) == TrimAll(Split(j, ','))
  {
    var note := ExtraPrefix + j;
    assert note[..|ExtraPrefix|] == ExtraPrefix;
    assert note[|ExtraPrefix|..] == j;
  }

  /** Each name with one leading space, as the ", " between them leaves them after a split at the commas. */
  function Spaced(ys: seq<string>): (r: seq<string>)
    ensures |r| == |ys|
    ensures forall i :: 0 <= i < |r| ==> r[i] == [' '] + ys[i]
  {
    seq(|ys|, i requires 0 <= i < |ys| => [' '] + ys[i])
  }

  /** Names joined by ", " split at the commas into the names, all but the first with a leading space. */
  lemma {:induction false} SplitJoined(xs: seq<string>)
    requires |xs| >= 1
    requires forall x :: x in xs ==> ',' !in x
    ensures Split(Join(xs, ", "), ',') == [xs[0]] + Spaced(xs[1..])
  {
    var x := xs[0];
    assert x in xs;
    if |xs| == 1 {
      SplitNoSeparator(x, ',');
    } else {
      var ys := xs[1..];
      assert forall y :: y in ys ==> y in xs;
      var tail := Join(ys, ", ");
      SplitJoined(ys);
      assert Join(xs, ", ") == x + [','] + ([' '] + tail);
      SplitAtSeparator(x, ',', [' '] + tail);
      SplitCons(' ', tail, ',');
      assert Spaced(ys) == [[' '] + ys[0]] + Spaced(ys[1..]);
    }
  }

  /** A leading space on every piece does not change the trimmed pieces. */
  lemma TrimAllSpaced(ys: seq<string>)
    ensures TrimAll(Spaced(ys)) == TrimAll(ys)
  {
    forall i | 0 <= i < |ys|
      ensures TrimAll(Spaced(ys))[i] == TrimAll(ys)[i]
    {
      TrimLeadingSpace(' ', ys[i]);
    }
  }

  /** Trimming a list that starts with `p`. */
  lemma TrimAllCons(p: string, ps: seq<string>)
    ensures TrimAll([p] + ps) == [Trim(p)] + TrimAll(ps)
  {
    var l, r := TrimAll([p] + ps), [Trim(p)] + TrimAll(ps);
    assert forall i :: 0 <= i < |l| ==> l[i] == r[i];
  }

  /** Names that are already trimmed are left as they are. */
  lemma TrimAllTrimmed(ys: seq<string>)
    requires forall y :: y in ys ==> Trim(y) == y
    ensures TrimAll(ys) == ys
  {
    forall i | 0 <= i < |ys|
      ensures TrimAll(ys)[i] == ys[i]
    {
      assert ys[i] in ys;
    }
  }

  /** Names joined by ", ", split at the commas and trimmed, are the names again. */
  lemma TrimSplitJoined(xs: seq<string>)
    requires |xs| >= 1
    requires forall x :: x in xs ==> ',' !in x && Trim(x) == x
    ensures TrimAll(Split(Join(xs, ", "), ',')) == xs
  {
    var ys := xs[1..];
    SplitJoined(xs);
    TrimAllTrimmed(xs);
    TrimAllSpaced(ys);
    calc {
      TrimAll([xs[0]] + Spaced(ys));
      { TrimAllCons(xs[0], Spaced(ys)); }
      [Trim(xs[0])] + TrimAll(Spaced(ys));
      [Trim(xs[0])] + TrimAll(ys);
      { TrimAllCons(xs[0], ys); assert [xs[0]] + ys == xs; }
      TrimAll(xs);
    }
  }

  /**
   * Formatting a list and parsing the note back gives the list again, provided
   * no name contains a comma or surrounding white space.
   */
  lemma ParseFormatRoundTrip(xs: seq<string>)
    requires forall x :: x in xs ==> ',' !in x && Trim(x) == x
    ensures ParseExtraToIngredients(FormatIngredientsToExtra(xs)) == xs
  {
    if xs != [] {
      ParsePrefixed(Join(xs, ", "));
      TrimSplitJoined(xs);
    }
  }
}
