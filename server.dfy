/**
 * The order server: a create request is defaulted and priced on the server,
 * stored under a fresh id and appended to the active log; finishing an order
 * removes it from the store, drops its line from the active log and appends
 * it, with the time it left, to the history log.
 */
module Server {
  import opened Common
  import opened Strings
  import opened Types
  import opened Csv
  import Database

  const NotApplicable := "N/A"
  const DefaultSize := "Média"

  /** `n || 0`: a missing quantity (or zero) is zero. */
  function OrZero(n: Option<int>): int
  {
    if n.Some? then n.value else 0
  }

  /** `b || false`. */
  function OrFalse(b: Option<bool>): bool
  {
    b.Some? && b.value
  }

  /** `s ?? ''`: only a missing value becomes the empty string. */
  function OrEmpty(s: Option<string>): string
  {
    if s.Some? then s.value else ""
  }

  /** A request field that JavaScript's `||` replaces: missing or empty. */
  predicate Missing(s: Option<string>)
  {
    s.None? || s.value == ""
  }

  /** backend/src/server.ts lines 78-86: what the server prices, after its own defaults. */
  function PriceInputOf(d: CreateRequest): Database.PriceInput
  {
    Database.PriceInput(
      OrDefault(d.tamanhoPizza, DefaultSize), OrZero(d.quantidadePizza), OrFalse(d.bordaRecheada),
      OrZero(d.quantidadeBebidas), OrDefault(d.sobremesa, NotApplicable), OrZero(d.quantidadeSobremesa),
      d.precoItemExtra)
  }

  /** The fields of a stored row that its price depends on. */
  function StoredPriceInput(r: BackendOrder): Database.PriceInput
  {
    Database.PriceInput(
      r.tamanhoPizza, r.quantidadePizza, r.bordaRecheada, r.quantidadeBebidas, r.sobremesa,
      r.quantidadeSobremesa, Some(r.precoItemExtra))
  }

  /**
   * backend/src/server.ts lines 88-110, with the id and the time the store assigns: the row that a
   * create request is saved as.
   */
  function NewRecord(d: CreateRequest, id: int, now: string): (r: BackendOrder)
    ensures r.idPedido == id && r.horaPedido == now
    ensures Missing(d.pedidoPizza) ==> r.pedidoPizza == NotApplicable
    ensures Missing(d.pedidoBebida) ==> r.pedidoBebida == NotApplicable
    ensures Missing(d.sobremesa) ==> r.sobremesa == NotApplicable
    ensures Missing(d.tamanhoPizza) ==> r.tamanhoPizza == DefaultSize
    ensures d.quantidadePizza.None? ==> r.quantidadePizza == 0
    ensures d.quantidadeBebidas.None? ==> r.quantidadeBebidas == 0
    ensures d.quantidadeSobremesa.None? ==> r.quantidadeSobremesa == 0
    ensures d.bordaRecheada.None? ==> !r.bordaRecheada
    ensures d.precoItemExtra.None? ==> r.precoItemExtra == 0.0
    ensures Missing(d.itemExtra) ==> r.itemExtra.None?
    ensures r.itemExtra.Some? ==> r.itemExtra.value != ""
    ensures !Missing(d.pedidoPizza) ==> r.pedidoPizza == d.pedidoPizza.value
    ensures !Missing(d.pedidoBebida) ==> r.pedidoBebida == d.pedidoBebida.value
    ensures !Missing(d.sobremesa) ==> r.sobremesa == d.sobremesa.value
    ensures !Missing(d.tamanhoPizza) ==> r.tamanhoPizza == d.tamanhoPizza.value
    ensures !Missing(d.itemExtra) ==> r.itemExtra == d.itemExtra
    ensures d.quantidadePizza.Some? ==> r.quantidadePizza == d.quantidadePizza.value
    ensures d.quantidadeBebidas.Some? ==> r.quantidadeBebidas == d.quantidadeBebidas.value
    ensures d.quantidadeSobremesa.Some? ==> r.quantidadeSobremesa == d.quantidadeSobremesa.value
    ensures d.bordaRecheada.Some? ==> r.bordaRecheada == d.bordaRecheada.value
    ensures d.precoItemExtra.Some? ==> r.precoItemExtra == d.precoItemExtra.value
    ensures r.cliente == OrEmpty(d.cliente) && r.telefone == OrEmpty(d.telefone)
    ensures r.enderecoEntrega == OrEmpty(d.enderecoEntrega) && r.formaPagamento == OrEmpty(d.formaPagamento)
    ensures r.cpfNota == d.cpfNota
  {
    BackendOrder(
      id, OrEmpty(d.cliente), OrEmpty(d.telefone), OrEmpty(d.enderecoEntrega), OrEmpty(d.formaPagamento), now,
      OrDefault(d.pedidoPizza, NotApplicable), OrDefault(d.pedidoBebida, NotApplicable), OrDefault(d.sobremesa, NotApplicable),
      OrDefault(d.tamanhoPizza, DefaultSize),
      OrZero(d.quantidadePizza), OrFalse(d.bordaRecheada), OrZero(d.quantidadeBebidas), OrZero(d.quantidadeSobremesa),
      Database.CalcularPrecoTotal(PriceInputOf(d)),
      if Missing(d.itemExtra) then None else d.itemExtra,
      if d.precoItemExtra.Some? then d.precoItemExtra.value else 0.0,
      d.cpfNota)
  }

  /**
   * The saved total is the server price of the saved row's own fields: the
   * defaults used for pricing are the ones stored.
   */
  lemma SavedTotalIsServerPrice(d: CreateRequest, id: int, now: string)
    ensures NewRecord(d, id, now).precoTotal == Database.CalcularPrecoTotal(StoredPriceInput(NewRecord(d, id, now)))
  {
    var r := NewRecord(d, id, now);
    var a := PriceInputOf(d);
    assert StoredPriceInput(r) == a.(precoItemExtra := Some(r.precoItemExtra));
    if d.precoItemExtra.None? {
      Database.ExtraIsFlat(a, 0.0);
      assert a.(precoItemExtra := None) == a;
    } else {
      assert a.(precoItemExtra := Some(r.precoItemExtra)) == a;
    }
  }

  /** A price, id or time sent by the client has no effect on the saved row. */
  lemma ClientValuesIgnored(d: CreateRequest, id: int, now: string, price: Option<real>, clientId: Option<int>, clientTime: Option<string>)
    ensures NewRecord(d.(precoTotal := price, idPedido := clientId, horaPedido := clientTime), id, now) == NewRecord(d, id, now)
  {
  }

  /** `String(b)` for a boolean. */
  function BoolText(b: bool): string
  {
    if b then "true" else "false"
  }

  /** A whole number of cents as JavaScript prints the amount: no trailing zeros after the point. */
  function CentsText(c: nat): string
  {
    var whole, frac := c / 100, c % 100;
    if frac == 0 then NatToString(whole)
    else if frac % 10 == 0 then NatToString(whole) + "." + [DigitChar(frac / 10)]
    else NatToString(whole) + "." + [DigitChar(frac / 10), DigitChar(frac % 10)]
  }

  /** `String(x)` for a price, exact when the price is a whole number of cents. */
  function PriceText(x: real): (r: string)
    ensures forall i :: 0 <= i < |r| ==> r[i] == '-' || r[i] == '.' || '0' <= r[i] <= '9'
  {
    if x < 0.0 then "-" + CentsText((-x * 100.0).Floor) else CentsText((x * 100.0).Floor)
  }

  /** A whole price prints as its digits alone. */
  lemma PriceTextWhole(n: nat)
    ensures PriceText(n as real) == NatToString(n)
  {
    CentsFloor(n);
    PriceTextCents(n as real, n * 100);
    CentsWhole(n);
  }

  /** A price of zero or more prints as its whole number of cents, with no sign. */
  lemma PriceTextCents(x: real, c: nat)
    requires x >= 0.0 && (x * 100.0).Floor == c
    ensures PriceText(x) == CentsText(c)
  {
  }

  /** A whole amount has exactly a hundred cents per unit. */
  lemma CentsFloor(n: nat)
    ensures (n as real * 100.0).Floor == n * 100
  {
    assert n as real * 100.0 == (n * 100) as real;
  }

  /** A whole number of hundreds of cents prints without a point. */
  lemma CentsWhole(n: nat)
    ensures CentsText(n * 100) == NatToString(n)
  {
    var c := n * 100;
    assert c / 100 == n && c % 100 == 0;
  }

  /** backend/src/server.ts lines 39-57: the eighteen fields of a log line, in their fixed order. */
  function EntradaFields(p: BackendOrder, horaSaida: Option<string>): (r: seq<string>)
    ensures |r| == 18
  {
    [ IntToString(p.idPedido), p.cliente, p.telefone, p.pedidoPizza, p.pedidoBebida, p.tamanhoPizza,
      IntToString(p.quantidadePizza), BoolText(p.bordaRecheada), IntToString(p.quantidadeBebidas),
      p.sobremesa, IntToString(p.quantidadeSobremesa), p.enderecoEntrega, p.horaPedido, p.formaPagamento,
      OrEmpty(horaSaida), PriceText(p.precoTotal), OrEmpty(p.itemExtra), PriceText(p.precoItemExtra) ]
  }

  /** `entradaToCsv`: the safe fields joined by commas, ended by one line break. */
  function EntradaToCsv(p: BackendOrder, horaSaida: Option<string>): (r: string)
    ensures |r| >= 1 && r[|r| - 1] == '\n'
  {
    EncodeRecord(EntradaFields(p, horaSaida)) + "\n"
  }

  /** A log line reads back, by section 2 of RFC 4180, as exactly one record: its eighteen fields. */
  lemma EntradaCsvRoundTrip(p: BackendOrder, horaSaida: Option<string>)
    ensures ReadRecords(EntradaToCsv(p, horaSaida)) == [EntradaFields(p, horaSaida)]
  {
    var f := EntradaFields(p, horaSaida);
    ReadRecordEncoded(f, "");
    assert EncodeRecord(f) + "\n" + "" == EntradaToCsv(p, horaSaida);
  }

  /** A number's text needs no quoting. */
  lemma NumberNeedsNoQuoting(n: int)
    ensures !NeedsQuoting(IntToString(n))
  {
    var s := IntToString(n);
    assert forall i :: 0 <= i < |s| ==> s[i] != ',' && s[i] != '"' && s[i] != '\n';
  }

  /** A log line begins with the order's id, unquoted, and a comma. */
  lemma EntradaStartsWithId(p: BackendOrder, horaSaida: Option<string>)
    ensures EncodeRecord(EntradaFields(p, horaSaida))
         == IntToString(p.idPedido) + "," + Join(QuoteAll(EntradaFields(p, horaSaida))[1..], ",")
  {
    NumberNeedsNoQuoting(p.idPedido);
  }

  /** A line that starts with one id and a comma starts with another id and a comma only when the ids agree. */
  lemma IdPrefix(a: int, b: int, rest: string)
    ensures StartsWith(IntToString(a) + "," + rest, IntToString(b) + ",") <==> a == b
  {
    var x, y := IntToString(a), IntToString(b);
    var line := x + "," + rest;
    if StartsWith(line, y + ",") {
      assert line[|y|] == (y + ",")[|y|] == ',';
      assert |x| <= |y| by {
        forall i | 0 <= i < |x|
          ensures line[i] != ','
        {
          assert line[i] == x[i];
        }
      }
      assert line[|x|] == ',';
      assert (y + ",")[|x|] == ',';
      assert |x| == |y| by {
        forall i | 0 <= i < |y|
          ensures (y + ",")[i] != ','
        {
          assert (y + ",")[i] == y[i];
        }
      }
      assert x == line[..|x|] == y;
      IntToStringInjective(a, b);
    }
  }

  /** A line that begins with a number is not blank. */
  lemma NumberLineNotBlank(a: int, rest: string)
    ensures !IsBlank(IntToString(a) + rest)
  {
    var line := IntToString(a) + rest;
    assert line[0] == IntToString(a)[0];
    BlankIffAllSpace(line);
  }

  /** A line that begins with a number does not begin with a quote. */
  lemma NumberLineNotQuoted(a: int, rest: string, quoted: string)
    requires |quoted| >= 1 && quoted[0] == '"'
    ensures !StartsWith(IntToString(a) + rest, quoted)
  {
    var line := IntToString(a) + rest;
    assert line[0] == IntToString(a)[0];
    FirstCharDiffers(line, quoted);
  }

  /** The as-written line filter keeps a line that begins with an id and a comma exactly when the id differs. */
  lemma IdLineKept(a: int, id: int, rest: string)
    ensures KeepLine(id)(IntToString(a) + "," + rest) <==> a != id
  {
    IdPrefix(a, id, rest);
    NumberLineNotBlank(a, "," + rest);
    NumberLineNotQuoted(a, "," + rest, "\"" + IntToString(id) + "\",");
    assert IntToString(a) + "," + rest == IntToString(a) + ("," + rest);
  }

  /** The active log of a list of stored rows: their lines, one after another. */
  function ActiveLog(rs: seq<BackendOrder>): string
  {
    if rs == [] then "" else EntradaToCsv(rs[0], None) + ActiveLog(rs[1..])
  }

  /** The fields of each row's active line. */
  function RecordsOf(rs: seq<BackendOrder>): (r: seq<seq<string>>)
    ensures |r| == |rs|
    ensures forall i :: 0 <= i < |rs| ==> r[i] == EntradaFields(rs[i], None)
  {
    if rs == [] then [] else [EntradaFields(rs[0], None)] + RecordsOf(rs[1..])
  }

  /** Each record's text without its line break (`.map` of the encoder). */
  function EncodeAll(records: seq<seq<string>>): (r: seq<string>)
    ensures |r| == |records|
    ensures forall i :: 0 <= i < |records| ==> r[i] == EncodeRecord(records[i])
  {
    if records == [] then [] else [EncodeRecord(records[0])] + EncodeAll(records[1..])
  }

  lemma {:induction false} ActiveLogEncoded(rs: seq<BackendOrder>)
    ensures ActiveLog(rs) == EncodeRecords(RecordsOf(rs))
  {
    if rs != [] {
      ActiveLogEncoded(rs[1..]);
      assert RecordsOf(rs)[1..] == RecordsOf(rs[1..]);
    }
  }

  /** Reading an active log gives back each row's fields, in order. */
  lemma ReadActiveLog(rs: seq<BackendOrder>)
    ensures ReadRecords(ActiveLog(rs)) == RecordsOf(rs)
  {
    ActiveLogEncoded(rs);
    ReadRecordsEncoded(RecordsOf(rs));
  }

  /** A line with nothing but white space: the file's blank lines. */
  predicate BlankRecord(r: seq<string>)
  {
    |r| == 1 && IsBlank(r[0])
  }

  /** The records that survive deleting `id`: not blank and with another first field. */
  function KeepRecord(id: int): seq<string> -> bool
  {
    (r: seq<string>) => !BlankRecord(r) && (r == [] || r[0] != IntToString(id))
  }

  /**
   * backend/src/server.ts lines 155-161 read record by record: the active log without blank lines
   * and without the records whose id field is `id`, rewritten one record per
   * line and ended by a line break.
   */
  function RewriteActive(content: string, id: int): (r: string)
    ensures |r| >= 1 && r[|r| - 1] == '\n'
  {
    Join(EncodeAll(Filter(ReadRecords(content), KeepRecord(id))), "\n") + "\n"
  }

  lemma {:induction false} FilterRecordsOf(rs: seq<BackendOrder>, id: int)
    ensures Filter(RecordsOf(rs), KeepRecord(id)) == RecordsOf(Filter(rs, OtherId(id)))
  {
    if rs != [] {
      FilterRecordsOf(rs[1..], id);
      var f := EntradaFields(rs[0], None);
      assert RecordsOf(rs)[0] == f && RecordsOf(rs)[1..] == RecordsOf(rs[1..]);
      if f[0] == IntToString(id) {
        IntToStringInjective(rs[0].idPedido, id);
      }
      assert KeepRecord(id)(f) == OtherId(id)(rs[0]);
    }
  }

  /** The lines of a non-empty list, joined by line breaks and ended by one, are its active log. */
  lemma {:induction false} JoinedLines(rs: seq<BackendOrder>)
    requires rs != []
    ensures Join(EncodeAll(RecordsOf(rs)), "\n") + "\n" == ActiveLog(rs)
  {
    var lines := EncodeAll(RecordsOf(rs));
    assert lines[0] == EncodeRecord(EntradaFields(rs[0], None));
    if |rs| > 1 {
      JoinedLines(rs[1..]);
      assert lines[1..] == EncodeAll(RecordsOf(rs[1..]));
    }
  }

  /**
   * Deleting `id` from an active log made of stored rows leaves exactly the
   * lines of the other rows, in their order (a lone line break when none is left).
   */
  lemma RewriteActiveLog(rs: seq<BackendOrder>, id: int)
    ensures var kept := Filter(rs, OtherId(id));
            RewriteActive(ActiveLog(rs), id) == if kept == [] then "\n" else ActiveLog(kept)
  {
    ReadActiveLog(rs);
    FilterRecordsOf(rs, id);
    var kept := Filter(rs, OtherId(id));
    if kept != [] {
      JoinedLines(kept);
    }
  }

  /** The line filter of lines 157-160, as written: split at every line break. */
  function KeepLine(id: int): string -> bool
  {
    (l: string) => !IsBlank(l) && !StartsWith(l, IntToString(id) + ",") && !StartsWith(l, "\"" + IntToString(id) + "\",")
  }

  /** backend/src/server.ts lines 155-161 as written: split the file at '\n', filter the pieces, join them again. */
  function RewriteActiveAsWritten(content: string, id: int): (r: string)
    ensures |r| >= 1 && r[|r| - 1] == '\n'
  {
    Join(Filter(Split(content, '\n'), KeepLine(id)), "\n") + "\n"
  }

  /** A row none of whose fields holds a line break. */
  predicate SingleLine(p: BackendOrder)
  {
    forall x :: x in EntradaFields(p, None) ==> '\n' !in x
  }

  lemma {:induction false} SplitActiveLog(rs: seq<BackendOrder>)
    requires forall p :: p in rs ==> SingleLine(p)
    ensures Split(ActiveLog(rs), '\n') == EncodeAll(RecordsOf(rs)) + [""]
  {
    if rs != [] {
      var tail := rs[1..];
      var body := EncodeRecord(EntradaFields(rs[0], None));
      var enc := EncodeAll(RecordsOf(tail));
      assert '\n' !in body by {
        assert SingleLine(rs[0]);
        EncodeRecordSingleLine(EntradaFields(rs[0], None));
      }
      assert Split(ActiveLog(tail), '\n') == enc + [""] by {
        assert forall p :: p in tail ==> p in rs;
        SplitActiveLog(tail);
      }
      assert EncodeAll(RecordsOf(rs)) == [body] + enc by {
        assert RecordsOf(rs) == [EntradaFields(rs[0], None)] + RecordsOf(tail);
      }
      calc {
        Split(ActiveLog(rs), '\n');
        Split(body + ['\n'] + ActiveLog(tail), '\n');
        { SplitAtSeparator(body, '\n', ActiveLog(tail)); }
        [body] + (enc + [""]);
        { AppendAssoc([body], enc, [""]); }
        [body] + enc + [""];
      }
    }
  }

  /** The as-written filter keeps a single line exactly when its id differs. */
  lemma LineKept(p: BackendOrder, id: int)
    ensures KeepLine(id)(EncodeRecord(EntradaFields(p, None))) <==> p.idPedido != id
  {
    EntradaStartsWithId(p, None);
    IdLineKept(p.idPedido, id, Join(QuoteAll(EntradaFields(p, None))[1..], ","));
  }

  lemma {:induction false} FilterLines(rs: seq<BackendOrder>, id: int)
    ensures Filter(EncodeAll(RecordsOf(rs)), KeepLine(id)) == EncodeAll(RecordsOf(Filter(rs, OtherId(id))))
  {
    if rs != [] {
      FilterLines(rs[1..], id);
      LineKept(rs[0], id);
      assert EncodeAll(RecordsOf(rs))[1..] == EncodeAll(RecordsOf(rs[1..]));
    }
  }

  /** The empty piece after the last line break is dropped. */
  lemma EmptyLineDropped(id: int)
    ensures Filter([""], KeepLine(id)) == []
  {
    assert IsBlank("");
    assert [""][1..] == [];
  }

  /** On a log of rows without line breaks in their fields, the as-written rewrite drops exactly the rows of `id`. */
  lemma RewriteAsWrittenSingleLine(rs: seq<BackendOrder>, id: int)
    requires forall p :: p in rs ==> SingleLine(p)
    ensures var kept := Filter(rs, OtherId(id));
            RewriteActiveAsWritten(ActiveLog(rs), id) == if kept == [] then "\n" else ActiveLog(kept)
  {
    var lines := EncodeAll(RecordsOf(rs));
    var kept := Filter(rs, OtherId(id));
    SplitActiveLog(rs);
    FilterAppend(lines, [""], KeepLine(id));
    EmptyLineDropped(id);
    FilterLines(rs, id);
    assert Filter(Split(ActiveLog(rs), '\n'), KeepLine(id)) == EncodeAll(RecordsOf(kept));
    if kept != [] {
      JoinedLines(kept);
    }
  }

  /** The first piece of a split begins with the text's first character, when that is not the separator. */
  lemma SplitFirstPiece(r: string, sep: char)
    requires |r| >= 1 && r[0] != sep
    ensures |Split(r, sep)[0]| >= 1 && Split(r, sep)[0][0] == r[0]
  {
    SplitCons(r[0], r[1..], sep);
    assert [r[0]] + r[1..] == r;
  }

  /** A piece starting with a capital letter survives the as-written line filter for any id. */
  lemma LetterLineKept(w: string, id: int)
    requires |w| >= 1 && 'A' <= w[0] <= 'Z'
    ensures KeepLine(id)(w)
  {
    BlankIffAllSpace(w);
    FirstCharDiffers(w, IntToString(id) + ",");
    FirstCharDiffers(w, "\"" + IntToString(id) + "\",");
  }

  /** A number's text holds no line break. */
  lemma NumberSingleLine(n: int)
    ensures '\n' !in IntToString(n)
  {
    NumberNeedsNoQuoting(n);
  }

  /** The eleven fields of a row that come before the address. */
  function FieldsBeforeAddress(p: BackendOrder): (r: seq<string>)
    ensures r == EntradaFields(p, None)[..11]
  {
    [ IntToString(p.idPedido), p.cliente, p.telefone, p.pedidoPizza, p.pedidoBebida,
      p.tamanhoPizza, IntToString(p.quantidadePizza), BoolText(p.bordaRecheada),
      IntToString(p.quantidadeBebidas), p.sobremesa, IntToString(p.quantidadeSobremesa) ]
  }

  /** The eleven fields before the address are written on one line. */
  lemma FieldsBeforeAddressSingleLine(p: BackendOrder)
    requires '\n' !in p.cliente && '\n' !in p.telefone && '\n' !in p.pedidoPizza
    requires '\n' !in p.pedidoBebida && '\n' !in p.tamanhoPizza && '\n' !in p.sobremesa
    ensures '\n' !in Join(QuoteAll(EntradaFields(p, None))[..11], ",")
  {
    var head := FieldsBeforeAddress(p);
    assert '\n' !in EncodeRecord(head) by {
      NumberSingleLine(p.idPedido);
      NumberSingleLine(p.quantidadePizza);
      NumberSingleLine(p.quantidadeBebidas);
      NumberSingleLine(p.quantidadeSobremesa);
      assert '\n' !in BoolText(p.bordaRecheada);
      EncodeRecordSingleLine(head);
    }
    QuoteAllPrefix(EntradaFields(p, None), 11);
  }

  /** A record of eighteen fields, cut around its twelfth field. */
  lemma EncodeAroundField11(f: seq<string>)
    requires |f| == 18
    ensures EncodeRecord(f) == Join(QuoteAll(f)[..11], ",") + "," + CsvSafe(f[11]) + "," + Join(QuoteAll(f)[12..], ",")
  {
    JoinAround(QuoteAll(f), 11, ",");
  }

  /** A two-line address is written quoted, with its line break kept inside the quotes. */
  lemma TwoLineFieldQuoted(a: string, b: string)
    ensures CsvSafe(a + "\n" + b) == "\"" + DoubleQuotes(a) + "\n" + DoubleQuotes(b) + "\""
  {
    var s, q := a + "\n" + b, "\"";
    var da, db := DoubleQuotes(a), DoubleQuotes(b);
    assert NeedsQuoting(s) by {
      assert s[|a|] == '\n';
    }
    assert DoubleQuotes(s) == (da + "\n") + db by {
      DoubleQuotesAppend(a + "\n", b);
      DoubleQuotesAppend(a, "\n");
      assert DoubleQuotes("\n") == "\n";
    }
    AppendAssoc(q, da + "\n", db);
    AppendAssoc(q, da, "\n");
  }

  /** A line whose twelfth field holds one line break, cut at that break. */
  lemma RecordAtBreak(f: seq<string>, a: string, b: string) returns (before: string, after: string)
    requires |f| == 18 && f[11] == a + "\n" + b && '\n' !in a
    requires '\n' !in Join(QuoteAll(f)[..11], ",")
    ensures EncodeRecord(f) + "\n" == before + ['\n'] + after
    ensures '\n' !in before
    ensures after == DoubleQuotes(b) + "\"," + Join(QuoteAll(f)[12..], ",") + "\n"
  {
    var j1, j2 := Join(QuoteAll(f)[..11], ","), Join(QuoteAll(f)[12..], ",");
    var da, db := DoubleQuotes(a), DoubleQuotes(b);
    EncodeAroundField11(f);
    TwoLineFieldQuoted(a, b);
    DoubleQuotesSingleLine(a);
    before := j1 + ",\"" + da;
    after := db + "\"," + j2 + "\n";
    CutAtBreak(j1, da, db, j2);
  }

  /** Regrouping a line around the break inside its quoted field. */
  lemma CutAtBreak(j1: string, da: string, db: string, j2: string)
    ensures j1 + "," + ("\"" + da + "\n" + db + "\"") + "," + j2 + "\n"
         == (j1 + ",\"" + da) + ['\n'] + (db + "\"," + j2 + "\n")
  {
  }

  /** The active line of an order with a two-line address, cut at the address's line break. */
  lemma ActiveLineAtAddressBreak(p: BackendOrder, a: string, b: string) returns (before: string, after: string)
    requires p.enderecoEntrega == a + "\n" + b
    requires '\n' !in a
    requires '\n' !in p.cliente && '\n' !in p.telefone && '\n' !in p.pedidoPizza
    requires '\n' !in p.pedidoBebida && '\n' !in p.tamanhoPizza && '\n' !in p.sobremesa
    ensures ActiveLog([p]) == before + ['\n'] + after
    ensures '\n' !in before
    ensures after == DoubleQuotes(b) + "\"," + Join(QuoteAll(EntradaFields(p, None))[12..], ",") + "\n"
  {
    FieldsBeforeAddressSingleLine(p);
    before, after := RecordAtBreak(EntradaFields(p, None), a, b);
    assert ActiveLog([p]) == EntradaToCsv(p, None) + ActiveLog([]);
  }

  /** A second line that starts with a capital letter survives the as-written rewrite. */
  lemma LetterLineSurvives(before: string, after: string, id: int)
    requires '\n' !in before && |after| >= 1 && 'A' <= after[0] <= 'Z'
    ensures RewriteActiveAsWritten(before + ['\n'] + after, id) != "\n"
  {
    SplitAtSeparator(before, '\n', after);
    SplitFirstPiece(after, '\n');
    var w := Split(after, '\n')[0];
    LetterLineKept(w, id);
    var pieces := Split(before + ['\n'] + after, '\n');
    assert w == pieces[1];
    FilterKeeps(pieces, KeepLine(id), w);
    JoinLength(Filter(pieces, KeepLine(id)), "\n", w);
  }

  /**
   * The address is typed into a multi-line field and `csvSafe` keeps its line
   * break inside quotes, but the as-written rewrite splits at every line
   * break: deleting such an order leaves the second part of its address in
   * the active log as a line of its own. The record-aware rewrite removes the
   * whole record.
   */
  lemma MultilineAddressLeavesFragment(p: BackendOrder, a: string, b: string)
    requires p.enderecoEntrega == a + "\n" + b
    requires '\n' !in a && |b| >= 1 && 'A' <= b[0] <= 'Z'
    requires '\n' !in p.cliente && '\n' !in p.telefone && '\n' !in p.pedidoPizza
    requires '\n' !in p.pedidoBebida && '\n' !in p.tamanhoPizza && '\n' !in p.sobremesa
    ensures RewriteActiveAsWritten(ActiveLog([p]), p.idPedido) != "\n"
    ensures RewriteActive(ActiveLog([p]), p.idPedido) == "\n"
  {
    var id := p.idPedido;
    var before, after := ActiveLineAtAddressBreak(p, a, b);
    assert after[0] == b[0] by {
      DoubleQuotesCons(b[0], b[1..]);
      assert [b[0]] + b[1..] == b;
    }
    LetterLineSurvives(before, after, id);
    RewriteActiveLog([p], id);
    assert Filter([p], OtherId(id)) == [];
  }

  /** What a request to the server is answered with. */
  datatype Response = Created(saved: BackendOrder) | Finished(idPedido: int) | NotFound | ServerError

  /**
   * The order store behind the two routes that change it, with the active and
   * history logs as file contents (None while a file does not exist).
   */
  class OrderServer {
    var pedidos: map<int, BackendOrder>
    var nextId: int
    var ativos: Option<string>
    var historico: Option<string>

    /** Every stored row sits under its own id, and ids already given out are below `nextId`. */
    predicate Valid()
      reads this
    {
      nextId >= 1 && forall id :: id in pedidos ==> pedidos[id].idPedido == id && 1 <= id < nextId
    }

    /** An empty store; the log files may already hold lines from earlier runs. */
    constructor (ativos0: Option<string>, historico0: Option<string>)
      ensures Valid()
      ensures pedidos == map[] && nextId == 1 && ativos == ativos0 && historico == historico0
    {
      pedidos := map[];
      nextId := 1;
      ativos := ativos0;
      historico := historico0;
    }

    /**
     * POST: the request is saved under a fresh id with the server's own price
     * and one line is appended to the active log; a failed insert answers 500
     * and changes nothing.
     */
    method Post(d: CreateRequest, now: string, insertOk: bool) returns (res: Response)
      requires Valid()
      modifies this
      ensures Valid()
      ensures !insertOk ==> res == ServerError && unchanged(this)
      ensures insertOk ==> old(nextId) !in old(pedidos)
      ensures insertOk ==> res == Created(NewRecord(d, old(nextId), now))
      ensures insertOk ==> pedidos == old(pedidos)[old(nextId) := res.saved] && nextId == old(nextId) + 1
      ensures insertOk ==> ativos == Some(OrEmpty(old(ativos)) + EntradaToCsv(res.saved, None))
      ensures insertOk ==> historico == old(historico)
    {
      if !insertOk {
        return ServerError;
      }
      var precoCalculado := Database.CalcularPrecoTotal(PriceInputOf(d));
      var saved := NewRecord(d, nextId, now);
      assert saved.precoTotal == precoCalculado;
      pedidos := pedidos[nextId := saved];
      nextId := nextId + 1;
      ativos := Some(OrEmpty(ativos) + EntradaToCsv(saved, None));
      res := Created(saved);
    }

    /**
     * DELETE: an unknown id answers 404 and changes nothing; otherwise the row
     * leaves the store, the active log is rewritten line by line without the
     * lines that start with its id (when the file exists) and the row, with
     * the time it left, is appended to the history.
     */
    method Delete(id: int, now: string) returns (res: Response)
      requires Valid()
      modifies this
      ensures Valid()
      ensures id !in old(pedidos) ==> res == NotFound && unchanged(this)
      ensures id in old(pedidos) ==> res == Finished(id)
      ensures id in old(pedidos) ==> pedidos == old(pedidos) - {id} && nextId == old(nextId)
      ensures id in old(pedidos) ==>
        ativos == if old(ativos).Some? then Some(RewriteActiveAsWritten(old(ativos).value, id)) else None
      ensures id in old(pedidos) ==>
        historico == Some(OrEmpty(old(historico)) + EntradaToCsv(old(pedidos)[id], Some(now)))
    {
      if id !in pedidos {
        return NotFound;
      }
      var pedido := pedidos[id];
      pedidos := pedidos - {id};
      if ativos.Some? {
        ativos := Some(RewriteActiveAsWritten(ativos.value, id));
      }
      historico := Some(OrEmpty(historico) + EntradaToCsv(pedido, Some(now)));
      res := Finished(id);
    }
  }
}
