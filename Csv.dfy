/**
 * The lines of the CSV export: a fixed header, then one comma-joined row per
 * transaction in ledger order, with no quoting.
 *
 * How a kind is labelled and how an amount is printed belong to code that is
 * not part of this model, so both are parameters.
 */
module Csv {
  import opened Transactions

  const Header: string := "Type,Description,Amount,Category,Date"

  /** The fields separated by commas. */
  function Join(fields: seq<string>): string
  {
    if |fields| <= 1 then (if fields == [] then "" else fields[0])
    else fields[0] + "," + Join(fields[1..])
  }

  /** The five fields of a row, in header order. */
  function Fields(t: Transaction, kindLabel: Kind -> string, amountText: real -> string): (f: seq<string>)
    ensures |f| == 5
  {
    [kindLabel(t.kind), t.description, amountText(t.amount), t.category, t.timestamp]
  }

  function Row(t: Transaction, kindLabel: Kind -> string, amountText: real -> string): string
  {
    Join(Fields(t, kindLabel, amountText))
  }

  /** The rows of the transactions, in order. */
  function Rows(txs: seq<Transaction>, kindLabel: Kind -> string, amountText: real -> string): (rows: seq<string>)
    ensures |rows| == |txs|
    ensures forall i :: 0 <= i < |txs| ==> rows[i] == Row(txs[i], kindLabel, amountText)
  {
    if txs == [] then []
    else Rows(txs[..|txs| - 1], kindLabel, amountText) + [Row(txs[|txs| - 1], kindLabel, amountText)]
  }

  /** The whole export: the header line first, then one row per transaction. */
  function CsvLines(txs: seq<Transaction>, kindLabel: Kind -> string, amountText: real -> string): (lines: seq<string>)
    ensures |lines| == |txs| + 1 && lines[0] == Header
    ensures forall i :: 0 <= i < |txs| ==> lines[i + 1] == Row(txs[i], kindLabel, amountText)
    ensures txs == [] ==> lines == [Header]
  {
    [Header] + Rows(txs, kindLabel, amountText)
  }

  /** The export of a ledger prefix grows by the next transaction's row. */
  lemma CsvLinesStep(txs: seq<Transaction>, i: nat, kindLabel: Kind -> string, amountText: real -> string)
    requires i < |txs|
    ensures CsvLines(txs[..i + 1], kindLabel, amountText) ==
            CsvLines(txs[..i], kindLabel, amountText) + [Row(txs[i], kindLabel, amountText)]
  {
    assert txs[..i + 1][..i] == txs[..i];
  }

  /** Splits a line at every comma; the reading that the header promises. */
  function Split(line: string): (fields: seq<string>)
    ensures |fields| >= 1
  {
    if line == [] then [""]
    else if line[0] == ',' then [""] + Split(line[1..])
    else var rest := Split(line[1..]); [[line[0]] + rest[0]] + rest[1..]
  }

  predicate NoComma(s: string)
  {
    forall i :: 0 <= i < |s| ==> s[i] != ','
  }

  /** A field without a comma, followed by a comma, splits off as one field. */
  lemma {:induction false} SplitField(a: string, b: string)
    requires NoComma(a)
    ensures Split(a + "," + b) == [a] + Split(b)
  {
    if a == [] {
      assert a + "," + b == [','] + b;
      assert (a + "," + b)[1..] == b;
    } else {
      assert (a + "," + b)[1..] == a[1..] + "," + b;
      SplitField(a[1..], b);
      assert [a[0]] + a[1..] == a;
    }
  }

  /** A field without a comma splits to itself. */
  lemma {:induction false} SplitPlain(a: string)
    requires NoComma(a)
    ensures Split(a) == [a]
  {
    if a != [] {
      SplitPlain(a[1..]);
      assert [a[0]] + a[1..] == a;
    }
  }

  /** Joining fields that hold no comma and splitting the line again gives the
      fields back. */
  lemma {:induction false} SplitJoin(fields: seq<string>)
    requires |fields| >= 1
    requires forall i :: 0 <= i < |fields| ==> NoComma(fields[i])
    ensures Split(Join(fields)) == fields
  {
    if |fields| == 1 {
      SplitPlain(fields[0]);
    } else {
      SplitField(fields[0], Join(fields[1..]));
      SplitJoin(fields[1..]);
    }
  }

  /** A row whose fields hold no comma reads back as its five fields. */
  lemma RowReadsBack(t: Transaction, kindLabel: Kind -> string, amountText: real -> string)
    requires forall i :: 0 <= i < 5 ==> NoComma(Fields(t, kindLabel, amountText)[i])
    ensures Split(Row(t, kindLabel, amountText)) == Fields(t, kindLabel, amountText)
  {
    SplitJoin(Fields(t, kindLabel, amountText));
  }

  /** Without quoting, a description that holds one comma makes its row read
      as six fields rather than five: the description falls apart in two and
      every later column shifts right by one. */
  lemma CommaInDescriptionShiftsColumns(t: Transaction, kindLabel: Kind -> string, amountText: real -> string,
                                        before: string, after: string)
    requires t.description == before + "," + after
    requires NoComma(before) && NoComma(after)
    requires NoComma(kindLabel(t.kind)) && NoComma(amountText(t.amount))
    requires NoComma(t.category) && NoComma(t.timestamp)
    ensures Split(Row(t, kindLabel, amountText)) ==
            [kindLabel(t.kind), before, after, amountText(t.amount), t.category, t.timestamp]
  {
    var shifted := [kindLabel(t.kind), before, after, amountText(t.amount), t.category, t.timestamp];
    var tail := Join([amountText(t.amount), t.category, t.timestamp]);
    assert Join(shifted[2..]) == after + "," + tail by {
      assert shifted[2..][1..] == [amountText(t.amount), t.category, t.timestamp];
    }
    assert Join(shifted[1..]) == before + "," + (after + "," + tail) by {
      assert shifted[1..][1..] == shifted[2..];
    }
    assert Row(t, kindLabel, amountText) == Join(shifted) by {
      var f := Fields(t, kindLabel, amountText);
      assert f[1..][1..] == [amountText(t.amount), t.category, t.timestamp];
      assert Join(f[1..]) == t.description + "," + tail;
      assert shifted[1..][1..] == shifted[2..];
    }
    SplitJoin(shifted);
  }
}
