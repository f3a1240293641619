/**
 * The share-of-voice panel: brands as horizontal bars ordered by share,
 * highest first, and cards for the leading three.
 */
module ShareOfVoiceChart {
  import opened Types
  import opened Palette

  /** A bar: the brand, its share as a fraction, and the colour of its input position. */
  datatype Entry = Entry(name: string, rawValue: real, color: string)

  /** A leader card. */
  datatype Card = Card(rank: nat, name: string, share: real, color: string)

  datatype View = Loading | NoShares | Chart(entries: seq<Entry>, cards: seq<Card>)

  /** The bars before sorting: colours follow the input order. */
  function Entries(data: seq<ShareOfVoice>): seq<Entry> {
    seq(|data|, i requires 0 <= i < |data| => Entry(data[i].brand, data[i].shareOfVoice, ColorAt(i)))
  }

  /** Highest share first. */
  predicate Descending(s: seq<Entry>) {
    forall i, j :: 0 <= i < j < |s| ==> s[i].rawValue >= s[j].rawValue
  }

  /**
   * Places `x` after every element whose share is at least its own, so that
   * equal shares keep their relative order.
   */
  function InsertByShare(t: seq<Entry>, x: Entry): (r: seq<Entry>)
    ensures multiset(r) == multiset(t) + multiset{x}
  {
    if t == [] || t[|t| - 1].rawValue >= x.rawValue then t + [x]
    else
      assert t == t[..|t| - 1] + [t[|t| - 1]];
      InsertByShare(t[..|t| - 1], x) + [t[|t| - 1]]
  }

  /** `.sort((a, b) => b.rawValue - a.rawValue)`, a stable sort. */
  function SortByShare(s: seq<Entry>): (r: seq<Entry>)
    ensures multiset(r) == multiset(s)
  {
    if s == [] then []
    else
      assert s == s[..|s| - 1] + [s[|s| - 1]];
      InsertByShare(SortByShare(s[..|s| - 1]), s[|s| - 1])
  }

  lemma {:induction false} InsertByShareDescending(t: seq<Entry>, x: Entry)
    requires Descending(t)
    ensures Descending(InsertByShare(t, x))
  {
    if t != [] && t[|t| - 1].rawValue < x.rawValue {
      var p := t[..|t| - 1];
      var y := t[|t| - 1];
      InsertByShareDescending(p, x);
      var q := InsertByShare(p, x);
      forall e | e in q ensures e.rawValue >= y.rawValue {
        assert e in multiset(q);
        if e != x {
          assert e in multiset(p);
          var k :| 0 <= k < |p| && p[k] == e;
          assert t[k] == e;
        }
      }
      forall i, j | 0 <= i < j < |q| + 1 ensures (q + [y])[i].rawValue >= (q + [y])[j].rawValue {
        if j == |q| {
          assert q[i] in q;
        }
      }
    }
  }

  /** The sorted bars are in descending order of share and are the same bars. */
  lemma {:induction false} SortByShareDescending(s: seq<Entry>)
    ensures Descending(SortByShare(s))
  {
    if s != [] {
      SortByShareDescending(s[..|s| - 1]);
      InsertByShareDescending(SortByShare(s[..|s| - 1]), s[|s| - 1]);
    }
  }

  /** The bars with share exactly `v`, in order. */
  function WithShare(s: seq<Entry>, v: real): seq<Entry> {
    if s == [] then []
    else WithShare(s[..|s| - 1], v) + (if s[|s| - 1].rawValue == v then [s[|s| - 1]] else [])
  }

  lemma WithShareSnoc(s: seq<Entry>, e: Entry, v: real)
    ensures WithShare(s + [e], v) == WithShare(s, v) + (if e.rawValue == v then [e] else [])
  {
    assert (s + [e])[..|s|] == s;
  }

  lemma {:induction false} InsertByShareStable(t: seq<Entry>, x: Entry, v: real)
    ensures WithShare(InsertByShare(t, x), v) == WithShare(t, v) + (if x.rawValue == v then [x] else [])
  {
    if t == [] || t[|t| - 1].rawValue >= x.rawValue {
      assert InsertByShare(t, x) == t + [x];
      WithShareSnoc(t, x, v);
    } else {
      var p := t[..|t| - 1];
      var y := t[|t| - 1];
      var q := InsertByShare(p, x);
      assert InsertByShare(t, x) == q + [y];
      InsertByShareStable(p, x, v);
      WithShareSnoc(q, y, v);
      assert WithShare(t, v) == WithShare(p, v) + (if y.rawValue == v then [y] else []);
      assert x.rawValue == v ==> y.rawValue != v;
    }
  }

  /** Sorting is stable: bars of equal share keep their input order. */
  lemma {:induction false} SortByShareStable(s: seq<Entry>, v: real)
    ensures WithShare(SortByShare(s), v) == WithShare(s, v)
  {
    if s != [] {
      var p := s[..|s| - 1];
      var x := s[|s| - 1];
      SortByShareStable(p, v);
      InsertByShareStable(SortByShare(p), x, v);
      assert SortByShare(s) == InsertByShare(SortByShare(p), x);
    }
  }

  /** The bars as drawn. */
  function ChartData(data: seq<ShareOfVoice>): seq<Entry> {
    SortByShare(Entries(data))
  }

  /**
   * The drawn bars are in descending order of share, one per input share,
   * and equal shares keep their input order.
   */
  lemma ChartDataSorted(data: seq<ShareOfVoice>, v: real)
    ensures Descending(ChartData(data))
    ensures |ChartData(data)| == |data|
    ensures WithShare(ChartData(data), v) == WithShare(Entries(data), v)
  {
    SortByShareDescending(Entries(data));
    SortByShareStable(Entries(data), v);
    assert |multiset(ChartData(data))| == |multiset(Entries(data))|;
  }

  /** Every drawn bar is an input brand with its share and the colour of its input position. */
  lemma ChartDataEntries(data: seq<ShareOfVoice>, e: Entry)
    ensures e in ChartData(data) <==>
      exists i :: 0 <= i < |data| && e == Entry(data[i].brand, data[i].shareOfVoice, ColorAt(i))
  {
    var es := Entries(data);
    assert e in ChartData(data) <==> e in multiset(es);
    if e in es {
      var i :| 0 <= i < |es| && es[i] == e;
      assert e == Entry(data[i].brand, data[i].shareOfVoice, ColorAt(i));
    }
    if exists i :: 0 <= i < |data| && e == Entry(data[i].brand, data[i].shareOfVoice, ColorAt(i)) {
      var i :| 0 <= i < |data| && e == Entry(data[i].brand, data[i].shareOfVoice, ColorAt(i));
      assert es[i] == e;
    }
  }

  /** `chartData.slice(0, 3)`, ranked from 1. */
  function Cards(chart: seq<Entry>): seq<Card> {
    var n := if |chart| < 3 then |chart| else 3;
    seq(n, i requires 0 <= i < n => Card(i + 1, chart[i].name, chart[i].rawValue, chart[i].color))
  }

  /**
   * There are three cards, or one per bar when fewer; they are ranked 1, 2, 3,
   * each shows the name, share and colour of the bar of that rank, and no bar
   * left without a card has a higher share than a carded one.
   */
  lemma CardsAreLeaders(data: seq<ShareOfVoice>)
    ensures |Cards(ChartData(data))| == if |data| < 3 then |data| else 3
    ensures forall i :: 0 <= i < |Cards(ChartData(data))| ==>
      Cards(ChartData(data))[i].rank == i + 1 && Cards(ChartData(data))[i].name == ChartData(data)[i].name &&
      Cards(ChartData(data))[i].share == ChartData(data)[i].rawValue &&
      Cards(ChartData(data))[i].color == ChartData(data)[i].color
    ensures forall i, j :: 0 <= i < |Cards(ChartData(data))| <= j < |ChartData(data)| ==>
      Cards(ChartData(data))[i].share >= ChartData(data)[j].rawValue
  {
    ChartDataSorted(data, 0.0);
  }

  function SovView(data: seq<ShareOfVoice>, loading: bool): View {
    if loading then Loading
    else if |data| == 0 then NoShares
    else
      var chart := ChartData(data);
      Chart(chart, Cards(chart))
  }

  /** Loading wins; otherwise the panel is empty exactly when there is no share. */
  lemma SovViewCases(data: seq<ShareOfVoice>, loading: bool)
    ensures loading <==> SovView(data, loading) == Loading
    ensures SovView(data, loading) == NoShares <==> !loading && data == []
    ensures SovView(data, loading).Chart? ==> |SovView(data, loading).cards| >= 1
  {
  }
}
