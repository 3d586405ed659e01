/**
 * The server's CSV lines: field quoting as in section 2 of RFC 4180 (rules 6
 * and 7), records ended by a bare '\n', and a reader that takes such text back
 * to its fields.
 */
module Csv {
  import opened Strings
  import opened Common

  /** A field must be quoted when it holds a comma, a double quote or a line break. */
  predicate NeedsQuoting(s: string)
  {
    ',' in s || '"' in s || '\n' in s
  }

  /** One character as it is written inside quotes: a quote twice, anything else once. */
  function Doubled(c: char): string
  {
    if c == '"' then "\"\"" else [c]
  }

  /** Every double quote written twice. */
  function DoubleQuotes(s: string): string
  {
    if s == [] then "" else Doubled(s[0]) + DoubleQuotes(s[1..])
  }

  /** `csvSafe`: a field that needs it is wrapped in quotes with its quotes doubled. */
  function CsvSafe(s: string): (r: string)
    ensures !NeedsQuoting(s) ==> r == s
    ensures NeedsQuoting(s) ==> |r| >= 2 && r[0] == '"' && r[|r| - 1] == '"'
  {
    if NeedsQuoting(s) then "\"" + DoubleQuotes(s) + "\"" else s
  }

  /** The fields of a record, each made safe (`.map(csvSafe)`). */
  function QuoteAll(fields: seq<string>): (r: seq<string>)
    ensures |r| == |fields|
    ensures forall i :: 0 <= i < |fields| ==> r[i] == CsvSafe(fields[i])
  {
    if fields == [] then [] else [CsvSafe(fields[0])] + QuoteAll(fields[1..])
  }

  /** Making the first `n` fields safe is a prefix of making them all safe. */
  lemma QuoteAllPrefix(fields: seq<string>, n: nat)
    requires n <= |fields|
    ensures QuoteAll(fields)[..n] == QuoteAll(fields[..n])
  {
  }

  /** A record's text without its line ending: the safe fields joined by commas. */
  function EncodeRecord(fields: seq<string>): string
  {
    Join(QuoteAll(fields), ",")
  }

  /** Reads the inside of a quoted field, after its opening quote, up to the closing quote. */
  function ReadQuoted(s: string): (r: (string, string))
    ensures |r.1| <= |s|
  {
    if s == [] then ("", "")
    else if s[0] == '"' then
      if |s| >= 2 && s[1] == '"' then
        var t := ReadQuoted(s[2..]);
        ("\"" + t.0, t.1)
      else ("", s[1..])
    else
      var t := ReadQuoted(s[1..]);
      ([s[0]] + t.0, t.1)
  }

  /** Reads an unquoted field, up to the next comma or line break. */
  function ReadBare(s: string): (r: (string, string))
    ensures r.0 + r.1 == s
  {
    if s == [] || s[0] == ',' || s[0] == '\n' then ("", s)
    else
      var t := ReadBare(s[1..]);
      ([s[0]] + t.0, t.1)
  }

  /** Reads one field; returns its value and the text after it. */
  function ReadField(s: string): (r: (string, string))
    ensures |r.1| <= |s|
  {
    if s != [] && s[0] == '"' then ReadQuoted(s[1..]) else ReadBare(s)
  }

  /**
   * Reads one record: fields separated by commas, up to the end of the line
   * (or of the text). Whatever follows a field other than a comma ends the record.
   */
  function ReadRecord(s: string): (r: (seq<string>, string))
    ensures |r.0| >= 1
    ensures |r.1| <= |s|
    ensures s != [] ==> |r.1| < |s|
    decreases |s|
  {
    var (f, rest) := ReadField(s);
    if rest == [] then ([f], [])
    else if rest[0] == ',' then
      var (fs, rest2) := ReadRecord(rest[1..]);
      ([f] + fs, rest2)
    else ([f], rest[1..])
  }

  /** Reads every record of a text. */
  function ReadRecords(s: string): seq<seq<string>>
    decreases |s|
  {
    if s == [] then []
    else
      var (fs, rest) := ReadRecord(s);
      [fs] + ReadRecords(rest)
  }

  /** Reading one doubled character gives that character back and goes on after it. */
  lemma ReadQuotedStep(c: char, tail: string)
    ensures ReadQuoted(Doubled(c) + tail) == ([c] + ReadQuoted(tail).0, ReadQuoted(tail).1)
  {
    var u := Doubled(c) + tail;
    if c == '"' {
      assert u[0] == '"' && u[1] == '"' && u[2..] == tail;
    } else {
      assert u[0] == c && u[1..] == tail;
    }
  }

  /** Undoing the doubling: a doubled field read up to its closing quote gives the field back. */
  lemma {:induction false} ReadQuotedDoubled(s: string, rest: string)
    requires rest == [] || rest[0] != '"'
    ensures ReadQuoted(DoubleQuotes(s) + "\"" + rest) == (s, rest)
  {
    if s == [] {
      var t := "\"" + rest;
      assert DoubleQuotes(s) + "\"" + rest == t;
      assert t[1..] == rest;
      assert !(|t| >= 2 && t[1] == '"');
    } else {
      var c, t := s[0], s[1..];
      ReadQuotedDoubled(t, rest);
      var tail := DoubleQuotes(t) + "\"" + rest;
      assert DoubleQuotes(s) + "\"" + rest == Doubled(c) + tail by {
        assert s == [c] + t;
        DoubleQuotesCons(c, t);
        AppendAssoc(Doubled(c), DoubleQuotes(t), "\"");
        AppendAssoc(Doubled(c), DoubleQuotes(t) + "\"", rest);
      }
      ReadQuotedStep(c, tail);
      assert [c] + t == s;
    }
  }

  /** A field without special characters is read up to the comma or line break after it. */
  lemma {:induction false} ReadBareExact(s: string, rest: string)
    requires !NeedsQuoting(s)
    requires rest == [] || rest[0] == ',' || rest[0] == '\n'
    ensures ReadBare(s + rest) == (s, rest)
  {
    if s == [] {
      assert s + rest == rest;
    } else {
      ReadBareExact(s[1..], rest);
      assert (s + rest)[1..] == s[1..] + rest;
      assert [s[0]] + s[1..] == s;
    }
  }

  /** A safe field followed by a comma, a line break or nothing reads back as the original field. */
  lemma ReadFieldSafe(s: string, rest: string)
    requires rest == [] || rest[0] == ',' || rest[0] == '\n'
    ensures ReadField(CsvSafe(s) + rest) == (s, rest)
  {
    if NeedsQuoting(s) {
      var d := DoubleQuotes(s);
      var u := d + "\"" + rest;
      assert CsvSafe(s) + rest == "\"" + u by {
        AppendAssoc("\"", d, "\"");
        AppendAssoc("\"", d + "\"", rest);
      }
      assert ("\"" + u)[0] == '"' && ("\"" + u)[1..] == u;
      ReadQuotedDoubled(s, rest);
    } else {
      ReadBareExact(s, rest);
      if s == [] {
        assert CsvSafe(s) + rest == rest;
      } else {
        assert (CsvSafe(s) + rest)[0] == s[0];
      }
    }
  }

  /** The quoting of section 2 of RFC 4180 undone: a record's line reads back as exactly its fields. */
  lemma {:induction false} ReadRecordEncoded(fields: seq<string>, rest: string)
    requires |fields| >= 1
    ensures ReadRecord(EncodeRecord(fields) + "\n" + rest) == (fields, rest)
  {
    var q := QuoteAll(fields);
    assert q[1..] == QuoteAll(fields[1..]);
    if |fields| == 1 {
      assert EncodeRecord(fields) + "\n" + rest == CsvSafe(fields[0]) + ("\n" + rest);
      ReadFieldSafe(fields[0], "\n" + rest);
      assert ("\n" + rest)[1..] == rest;
      assert [fields[0]] == fields;
    } else {
      var tail := EncodeRecord(fields[1..]) + "\n" + rest;
      assert EncodeRecord(fields) + "\n" + rest == CsvSafe(fields[0]) + ("," + tail);
      ReadFieldSafe(fields[0], "," + tail);
      assert ("," + tail)[1..] == tail;
      ReadRecordEncoded(fields[1..], rest);
      assert [fields[0]] + fields[1..] == fields;
    }
  }

  /** The text of several records, each followed by a line break. */
  function EncodeRecords(records: seq<seq<string>>): string
  {
    if records == [] then "" else EncodeRecord(records[0]) + "\n" + EncodeRecords(records[1..])
  }

  /** Reading the text of several non-empty records gives them back in order. */
  lemma {:induction false} ReadRecordsEncoded(records: seq<seq<string>>)
    requires forall i :: 0 <= i < |records| ==> |records[i]| >= 1
    ensures ReadRecords(EncodeRecords(records)) == records
  {
    if records != [] {
      ReadRecordEncoded(records[0], EncodeRecords(records[1..]));
      ReadRecordsEncoded(records[1..]);
      assert [records[0]] + records[1..] == records;
    }
  }

  /** Stripping the outer quotes of a quoted field and undoubling its quotes. */
  function Unquote(field: string): string
  {
    if |field| >= 2 && field[0] == '"' && field[|field| - 1] == '"' then Undouble(field[1..|field| - 1]) else field
  }

  /** Every doubled quote written once. */
  function Undouble(s: string): string
  {
    if s == [] then ""
    else if |s| >= 2 && s[0] == '"' && s[1] == '"' then "\"" + Undouble(s[2..])
    else [s[0]] + Undouble(s[1..])
  }

  lemma {:induction false} UndoubleDoubled(s: string)
    ensures Undouble(DoubleQuotes(s)) == s
  {
    if s != [] {
      UndoubleDoubled(s[1..]);
      var t := DoubleQuotes(s);
      if s[0] == '"' {
        assert t[2..] == DoubleQuotes(s[1..]);
        assert "\"" + s[1..] == s;
      } else {
        assert t[1..] == DoubleQuotes(s[1..]);
        assert [s[0]] + s[1..] == s;
      }
    }
  }

  /** A safe field with its quotes stripped and undoubled is the original value. */
  lemma CsvSafeRoundTrip(s: string)
    ensures Unquote(CsvSafe(s)) == s
  {
    if NeedsQuoting(s) {
      var r := CsvSafe(s);
      assert r[1..|r| - 1] == DoubleQuotes(s);
      UndoubleDoubled(s);
    } else if |s| >= 2 {
      assert s[0] in s;
    }
  }

  /** Doubling the quotes of a text that starts with `c`. */
  lemma DoubleQuotesCons(c: char, s: string)
    ensures DoubleQuotes([c] + s) == Doubled(c) + DoubleQuotes(s)
  {
    var cs := [c] + s;
    assert cs[0] == c && cs[1..] == s;
  }

  /** Doubling quotes works piece by piece. */
  lemma {:induction false} DoubleQuotesAppend(a: string, b: string)
    ensures DoubleQuotes(a + b) == DoubleQuotes(a) + DoubleQuotes(b)
  {
    if a == [] {
      assert a + b == b;
    } else {
      var c, t := a[0], a[1..];
      DoubleQuotesAppend(t, b);
      assert DoubleQuotes(a + b) == Doubled(c) + DoubleQuotes(t + b) by {
        assert a + b == [c] + (t + b);
        DoubleQuotesCons(c, t + b);
      }
      assert DoubleQuotes(a) == Doubled(c) + DoubleQuotes(t) by {
        assert a == [c] + t;
        DoubleQuotesCons(c, t);
      }
      AppendAssoc(Doubled(c), DoubleQuotes(t), DoubleQuotes(b));
    }
  }

  /** A field without quotes is left as it is. */
  lemma {:induction false} DoubleQuotesNoQuote(s: string)
    requires '"' !in s
    ensures DoubleQuotes(s) == s
  {
    if s != [] {
      DoubleQuotesNoQuote(s[1..]);
      assert s == [s[0]] + s[1..];
    }
  }

  /** Doubling quotes adds no line break. */
  lemma {:induction false} DoubleQuotesSingleLine(s: string)
    requires '\n' !in s
    ensures '\n' !in DoubleQuotes(s)
  {
    if s != [] {
      DoubleQuotesSingleLine(s[1..]);
    }
  }

  /** A field without a line break stays on one line once made safe. */
  lemma SafeFieldSingleLine(s: string)
    requires '\n' !in s
    ensures '\n' !in CsvSafe(s)
  {
    if NeedsQuoting(s) {
      DoubleQuotesSingleLine(s);
    }
  }

  /** A record whose fields have no line break is written on one line. */
  lemma EncodeRecordSingleLine(fields: seq<string>)
    requires forall x :: x in fields ==> '\n' !in x
    ensures '\n' !in EncodeRecord(fields)
  {
    forall i | 0 <= i < |fields|
      ensures '\n' !in QuoteAll(fields)[i]
    {
      SafeFieldSingleLine(fields[i]);
    }
    JoinExcludes(QuoteAll(fields), ",", '\n');
  }
}
