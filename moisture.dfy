/**
 * The moisture history: the most recent sensor readings, newest first,
 * at most 20 of them, and their rendering as table rows for the web page.
 */
module Moisture {
  import Decimal

  const Capacity: nat := 20

  /** One reading and the time it was taken, as formatted text. */
  datatype Item = Item(data: int, when: string)

  function Min(a: int, b: int): int {
    if a < b then a else b
  }

  /** The history after `item` is pushed at the front and, if that makes it
      longer than the capacity, the back element is dropped. */
  function Pushed(history: seq<Item>, item: Item): (r: seq<Item>)
    ensures |r| >= 1 && r[0] == item
    ensures |history| < Capacity ==> r[1..] == history
    ensures |history| >= Capacity ==> r[1..] == history[..|history| - 1]
    ensures |history| <= Capacity ==> |r| == Min(|history| + 1, Capacity)
  {
    var pushed := [item] + history;
    if |pushed| > Capacity then pushed[..|pushed| - 1] else pushed
  }

  /** The history built from an empty list by pushing `readings` in order. */
  function History(readings: seq<Item>): seq<Item>
    decreases |readings|
  {
    if readings == [] then []
    else Pushed(History(readings[..|readings| - 1]), readings[|readings| - 1])
  }

  /** The history holds the last min(n, 20) readings, newest first. */
  lemma {:induction false} HistoryIsNewestFirst(readings: seq<Item>)
    ensures |History(readings)| == Min(|readings|, Capacity)
    ensures forall k :: 0 <= k < |History(readings)| ==>
      History(readings)[k] == readings[|readings| - 1 - k]
    decreases |readings|
  {
    if readings != [] {
      var n := |readings|;
      var prev := readings[..n - 1];
      HistoryIsNewestFirst(prev);
      var h := History(prev);
      var r := History(readings);
      assert r == Pushed(h, readings[n - 1]);
      forall k | 0 <= k < |r| ensures r[k] == readings[n - 1 - k] {
        if k > 0 {
          assert r[k] == r[1..][k - 1];
          assert r[1..][k - 1] == h[k - 1];
          assert h[k - 1] == prev[n - 2 - (k - 1)];
        }
      }
    }
  }

  /** One table row: the time, then the reading. */
  function Render(item: Item): (row: string)
    ensures |row| > 18 + |item.when|
    ensures row[..8] == "<tr><td>" && row[8..8 + |item.when|] == item.when
    ensures row[8 + |item.when|..|row| - 10] == "</td><td>" + Decimal.IntToString(item.data)
    ensures row[|row| - 10..] == "</td></tr>"
  {
    "<tr>" + "<td>" + item.when + "</td>" + "<td>" + Decimal.IntToString(item.data) + "</td>" + "</tr>"
  }

  /** The reading can be read back from its cell, between the timestamp
      cell and the closing tags. */
  lemma RenderReadingRoundTrip(item: Item)
    ensures var row := Render(item);
      var cell := row[17 + |item.when|..|row| - 10];
      && cell == Decimal.IntToString(item.data)
      && |cell| >= 1
      && (cell[0] == '-' ==> Decimal.AllDigits(cell[1..]))
      && (cell[0] != '-' ==> Decimal.AllDigits(cell))
      && Decimal.ParseInt(cell) == item.data
  {
    var row := Render(item);
    var tail := row[8 + |item.when|..|row| - 10];
    assert tail == "</td><td>" + Decimal.IntToString(item.data);
    assert row[17 + |item.when|..|row| - 10] == tail[9..];
    Decimal.IntToStringRoundTrip(item.data);
  }

  /** The rows of `items` in order, each followed by a newline. */
  function Rows(items: seq<Item>): string
    decreases |items|
  {
    if items == [] then "" else Render(items[0]) + "\n" + Rows(items[1..])
  }

  lemma {:induction false} RowsAppend(a: seq<Item>, b: seq<Item>)
    ensures Rows(a + b) == Rows(a) + Rows(b)
    decreases |a|
  {
    if a == [] {
      assert a + b == b;
    } else {
      assert (a + b)[1..] == a[1..] + b;
      RowsAppend(a[1..], b);
    }
  }

  function CountNewlines(s: string): nat {
    if s == [] then 0 else (if s[0] == '\n' then 1 else 0) + CountNewlines(s[1..])
  }

  lemma {:induction false} CountNewlinesAppend(a: string, b: string)
    ensures CountNewlines(a + b) == CountNewlines(a) + CountNewlines(b)
    decreases |a|
  {
    if a == [] {
      assert a + b == b;
    } else {
      assert (a + b)[1..] == a[1..] + b;
      CountNewlinesAppend(a[1..], b);
    }
  }

  lemma {:induction false} NoNewlines(s: string)
    requires forall i :: 0 <= i < |s| ==> s[i] != '\n'
    ensures CountNewlines(s) == 0
    decreases |s|
  {
    if s != [] {
      NoNewlines(s[1..]);
    }
  }

  /** With timestamps free of newlines, the text holds one line per reading. */
  lemma {:induction false} RowsLineCount(items: seq<Item>)
    requires forall k, i :: 0 <= k < |items| && 0 <= i < |items[k].when| ==> items[k].when[i] != '\n'
    ensures CountNewlines(Rows(items)) == |items|
    decreases |items|
  {
    if items != [] {
      var row := Render(items[0]);
      var digits := Decimal.IntToString(items[0].data);
      assert forall i :: 0 <= i < |digits| ==> digits[i] != '\n' by {
        if items[0].data < 0 {
          assert digits == "-" + Decimal.NatToString(-items[0].data);
        }
      }
      assert forall i :: 0 <= i < |row| ==> row[i] != '\n';
      NoNewlines(row);
      CountNewlinesAppend(row, "\n");
      CountNewlinesAppend(row + "\n", Rows(items[1..]));
      RowsLineCount(items[1..]);
    }
  }

  class MoistureData {
    var data: seq<Item>

    ghost predicate Valid()
      reads this
    {
      |data| <= Capacity
    }

    constructor ()
      ensures Valid() && data == []
    {
      data := [];
    }

    /** Records a reading at the front, dropping the oldest once over capacity. */
    method Add(val: int, timestamp: string)
      requires Valid()
      modifies this
      ensures Valid()
      ensures data == Pushed(old(data), Item(val, timestamp))
    {
      var item := Item(val, timestamp);
      data := [item] + data;
      if |data| > Capacity {
        data := data[..|data| - 1];
      }
    }

    /** The history as table rows, newest first, one per line. */
    method RenderText() returns (text: string)
      ensures text == Rows(data)
    {
      text := "";
      for i := 0 to |data|
        invariant text == Rows(data[..i])
      {
        var line := Render(data[i]) + "\n";
        assert Rows([data[i]]) == line by {
          assert [data[i]][1..] == [];
        }
        RowsAppend(data[..i], [data[i]]);
        assert data[..i + 1] == data[..i] + [data[i]];
        text := text + line;
      }
      assert data[..|data|] == data;
    }
  }
}
