/**
 * The history panel: a multi-line chart of daily mention counts per brand and
 * a multi-line chart of daily share of voice per brand. Chart rows are plain
 * objects keyed by "date" and by brand name, as the charting library expects.
 */
module HistoryChart {
  import opened Wrappers
  import opened Text
  import opened Collections
  import opened Types
  import opened Palette

  /** A value in a chart row: the date label, a mention count, or a share of voice. */
  datatype Cell = Label(date: string) | Count(mentions: int) | Share(fraction: real)

  /** What the panel shows. */
  datatype View =
    | Loading
    | NoHistory
    | Charts(mentionsRows: seq<Record<Cell>>, mentionsLines: seq<Line>,
             sovRows: seq<Record<Cell>>, sovLines: seq<Line>)

  /** One drawn line: the row key it plots and its stroke colour. */
  datatype Line = Line(dataKey: string, stroke: string)

  // ------------------------------------------------------------ mentions

  /** `mentionsHistory[brand]`, with a missing brand read as no points. */
  function History(mh: Record<seq<MentionsHistory>>, b: string): seq<MentionsHistory> {
    Get(mh, b).GetOr([])
  }

  /** Some brand has at least one dated point. */
  predicate HasMentionsData(mh: Record<seq<MentionsHistory>>) {
    |Keys(mh)| > 0 && exists i :: 0 <= i < |mh| && |History(mh, mh[i].0)| > 0
  }

  function DatesOf(h: seq<MentionsHistory>): seq<string> {
    seq(|h|, k requires 0 <= k < |h| => h[k].date)
  }

  /** Every date of the histories of `bs`, brand by brand, repetitions included. */
  function DatesOfBrands(mh: Record<seq<MentionsHistory>>, bs: seq<string>): seq<string> {
    if bs == [] then []
    else DatesOfBrands(mh, bs[..|bs| - 1]) + DatesOf(History(mh, bs[|bs| - 1]))
  }

  function AllDates(mh: Record<seq<MentionsHistory>>): seq<string> {
    DatesOfBrands(mh, Keys(mh))
  }

  /** Some point of `h` lies on date `d`. */
  predicate HasPointOn(h: seq<MentionsHistory>, d: string) {
    exists k :: 0 <= k < |h| && h[k].date == d
  }

  lemma DatesOfMembership(h: seq<MentionsHistory>, d: string)
    ensures d in DatesOf(h) <==> HasPointOn(h, d)
  {
    if HasPointOn(h, d) {
      var k :| 0 <= k < |h| && h[k].date == d;
      assert DatesOf(h)[k] == d;
    }
  }

  /** A date is listed exactly when some brand of `bs` has a point on it. */
  lemma {:induction false} DatesOfBrandsMembership(mh: Record<seq<MentionsHistory>>, bs: seq<string>, d: string)
    ensures d in DatesOfBrands(mh, bs) <==> exists b :: b in bs && HasPointOn(History(mh, b), d)
  {
    if bs != [] {
      var p := bs[..|bs| - 1];
      var last := bs[|bs| - 1];
      DatesOfBrandsMembership(mh, p, d);
      DatesOfMembership(History(mh, last), d);
      assert bs == p + [last];
      assert d in DatesOfBrands(mh, bs) <==> d in DatesOfBrands(mh, p) || d in DatesOf(History(mh, last));
    }
  }

  /** The mentions chart has data exactly when some date is listed. */
  lemma HasMentionsDataIffDates(mh: Record<seq<MentionsHistory>>)
    ensures HasMentionsData(mh) <==> AllDates(mh) != []
  {
    if HasMentionsData(mh) {
      var i :| 0 <= i < |mh| && |History(mh, mh[i].0)| > 0;
      var d := History(mh, mh[i].0)[0].date;
      assert Keys(mh)[i] == mh[i].0;
      assert HasPointOn(History(mh, mh[i].0), d);
      DatesOfBrandsMembership(mh, Keys(mh), d);
    }
    if AllDates(mh) != [] {
      var d := AllDates(mh)[0];
      DatesOfBrandsMembership(mh, Keys(mh), d);
      var b :| b in Keys(mh) && HasPointOn(History(mh, b), d);
      var i :| 0 <= i < |Keys(mh)| && Keys(mh)[i] == b;
      assert mh[i].0 == b;
    }
  }

  /** The row dates: the distinct dates, in the default string order. */
  function RowDates(mh: Record<seq<MentionsHistory>>): seq<string> {
    Sort(Distinct(AllDates(mh)))
  }

  /** Row dates strictly increase, and are exactly the dates some brand has a point on. */
  lemma RowDatesSortedAndComplete(mh: Record<seq<MentionsHistory>>, d: string)
    ensures StrictlyAscending(RowDates(mh))
    ensures |RowDates(mh)| == |Distinct(AllDates(mh))|
    ensures d in RowDates(mh) <==> exists b :: b in Keys(mh) && HasPointOn(History(mh, b), d)
  {
    var ds := Distinct(AllDates(mh));
    SortDistinctIsStrict(ds);
    assert |multiset(RowDates(mh))| == |multiset(ds)|;
    assert d in RowDates(mh) <==> d in multiset(ds);
    DatesOfBrandsMembership(mh, Keys(mh), d);
  }

  /**
   * `history.find((m) => m.date === date)?.mentions || 0`: the count of the
   * first point on that date, or 0 when there is none.
   */
  function FirstMentions(h: seq<MentionsHistory>, d: string): (m: int)
    ensures (forall k :: 0 <= k < |h| ==> h[k].date != d) ==> m == 0
    ensures forall k :: 0 <= k < |h| && h[k].date == d && (forall k' :: 0 <= k' < k ==> h[k'].date != d) ==>
      m == h[k].mentions
  {
    if h == [] then 0
    else if h[0].date == d then h[0].mentions
    else
      var m := FirstMentions(h[1..], d);
      assert forall k :: 1 <= k < |h| ==> h[1..][k - 1] == h[k];
      m
  }

  /** The cells one date's row gets, one per brand of `bs`, in order. */
  function MentionsCells(mh: Record<seq<MentionsHistory>>, bs: seq<string>, d: string): (r: Record<Cell>)
    ensures |r| == |bs|
    ensures forall i :: 0 <= i < |bs| ==> r[i] == (bs[i], Count(FirstMentions(History(mh, bs[i]), d)))
  {
    if bs == [] then []
    else
      var b := bs[|bs| - 1];
      MentionsCells(mh, bs[..|bs| - 1], d) + [(b, Count(FirstMentions(History(mh, b), d)))]
  }

  /** The row of date `d`: `{ date }`, then `point[brand] = …` for every brand in key order. */
  function MentionsRow(mh: Record<seq<MentionsHistory>>, d: string): Record<Cell> {
    Collect([("date", Label(d))] + MentionsCells(mh, Keys(mh), d))
  }

  function MentionsRows(mh: Record<seq<MentionsHistory>>): seq<Record<Cell>> {
    if HasMentionsData(mh) then
      var ds := RowDates(mh);
      seq(|ds|, i requires 0 <= i < |ds| => MentionsRow(mh, ds[i]))
    else []
  }

  /**
   * Every brand's cell is the count of its first point on that date, or 0;
   * a brand named "date" thereby overwrites the date label.
   */
  lemma MentionsRowCell(mh: Record<seq<MentionsHistory>>, d: string, b: string)
    requires b in Keys(mh)
    ensures Get(MentionsRow(mh, d), b) == Some(Count(FirstMentions(History(mh, b), d)))
  {
    var cells := MentionsCells(mh, Keys(mh), d);
    assert Keys(cells) == Keys(mh);
    CollectUniformTail([("date", Label(d))], cells, b, Count(FirstMentions(History(mh, b), d)));
  }

  /** Without a brand named "date" the row's "date" member is the date label. */
  lemma MentionsRowDate(mh: Record<seq<MentionsHistory>>, d: string)
    requires "date" !in Keys(mh)
    ensures Get(MentionsRow(mh, d), "date") == Some(Label(d))
  {
    var cells := MentionsCells(mh, Keys(mh), d);
    var pairs := [("date", Label(d))] + cells;
    forall j | 0 < j < |pairs| ensures pairs[j].0 != pairs[0].0 {
      assert pairs[j] == cells[j - 1];
      assert Keys(mh)[j - 1] in Keys(mh);
    }
    CollectLastWins(pairs, 0);
  }

  /**
   * A row's members are "date" and the brands, each once, in key order; for a
   * genuine object without a brand named "date" that is "date" followed by every brand.
   */
  lemma MentionsRowKeys(mh: Record<seq<MentionsHistory>>, d: string)
    ensures Keys(MentionsRow(mh, d)) == Distinct(["date"] + Keys(mh))
    ensures DistinctKeys(MentionsRow(mh, d))
    ensures DistinctKeys(mh) && "date" !in Keys(mh) ==> Keys(MentionsRow(mh, d)) == ["date"] + Keys(mh)
  {
    var pairs := [("date", Label(d))] + MentionsCells(mh, Keys(mh), d);
    assert MentionsRow(mh, d) == Collect(pairs);
    assert Keys(pairs) == ["date"] + Keys(mh);
    CollectKeys(pairs);
    if DistinctKeys(mh) && "date" !in Keys(mh) {
      DateAndKeysUnique(mh);
      DistinctOfNoDuplicates(["date"] + Keys(mh));
    }
  }

  /** Distinct keys none of which is "date" stay distinct behind "date". */
  lemma DateAndKeysUnique(mh: Record<seq<MentionsHistory>>)
    requires DistinctKeys(mh) && "date" !in Keys(mh)
    ensures NoDuplicates(["date"] + Keys(mh))
  {
    var ks := ["date"] + Keys(mh);
    forall i, j | 0 <= i < j < |ks| ensures ks[i] != ks[j] {
      assert ks[j] == Keys(mh)[j - 1];
      if i > 0 {
        assert ks[i] == Keys(mh)[i - 1];
      }
    }
  }

  /** Adds the dates of `h` not yet in `dates`, in order. */
  method AddDates(dates: seq<string>, ghost before: seq<string>, h: seq<MentionsHistory>) returns (r: seq<string>)
    requires dates == Distinct(before)
    ensures r == Distinct(before + DatesOf(h))
  {
    ghost var all := DatesOf(h);
    ghost var seen := before;
    r := dates;
    var k := 0;
    while k < |h|
      invariant 0 <= k <= |h|
      invariant seen == before + all[..k]
      invariant r == Distinct(seen)
    {
      var d := h[k].date;
      assert all[..k + 1] == all[..k] + [d];
      DistinctSnoc(seen, d);
      if d !in r {
        r := r + [d];
      }
      seen := seen + [d];
      k := k + 1;
    }
    assert all[..k] == all;
  }

  /** `[...new Set(dates)]` over every brand's points in key order. */
  method CollectDates(mh: Record<seq<MentionsHistory>>) returns (dates: seq<string>)
    ensures dates == Distinct(AllDates(mh))
  {
    var brands := Keys(mh);
    dates := [];
    var i := 0;
    while i < |brands|
      invariant 0 <= i <= |brands|
      invariant dates == Distinct(DatesOfBrands(mh, brands[..i]))
    {
      dates := AddDates(dates, DatesOfBrands(mh, brands[..i]), History(mh, brands[i]));
      assert brands[..i + 1][..i] == brands[..i];
      i := i + 1;
    }
    assert brands[..i] == brands;
  }

  /** One date's row, built by assigning each brand's count in turn. */
  method MentionsPoint(mh: Record<seq<MentionsHistory>>, d: string) returns (point: Record<Cell>)
    ensures point == MentionsRow(mh, d)
  {
    var brands := Keys(mh);
    point := [("date", Label(d))];
    assert point == Collect([("date", Label(d))]) by {
      CollectSnoc([], ("date", Label(d)));
      assert [] + [("date", Label(d))] == [("date", Label(d))];
    }
    assert brands[..0] == [];
    var j := 0;
    while j < |brands|
      invariant 0 <= j <= |brands|
      invariant point == Collect([("date", Label(d))] + MentionsCells(mh, brands[..j], d))
    {
      var b := brands[j];
      var cell := (b, Count(FirstMentions(History(mh, b), d)));
      assert brands[..j + 1][..j] == brands[..j];
      assert [("date", Label(d))] + MentionsCells(mh, brands[..j + 1], d)
          == ([("date", Label(d))] + MentionsCells(mh, brands[..j], d)) + [cell];
      CollectSnoc([("date", Label(d))] + MentionsCells(mh, brands[..j], d), cell);
      point := Put(point, b, cell.1);
      j := j + 1;
    }
    assert brands[..j] == brands;
  }

  /** One row per date of `dates`, in that order. */
  method PointsFor(mh: Record<seq<MentionsHistory>>, dates: seq<string>) returns (rows: seq<Record<Cell>>)
    ensures |rows| == |dates|
    ensures forall m :: 0 <= m < |dates| ==> rows[m] == MentionsRow(mh, dates[m])
  {
    rows := [];
    var n := 0;
    while n < |dates|
      invariant 0 <= n <= |dates|
      invariant |rows| == n
      invariant forall m :: 0 <= m < n ==> rows[m] == MentionsRow(mh, dates[m])
    {
      var point := MentionsPoint(mh, dates[n]);
      rows := rows + [point];
      n := n + 1;
    }
  }

  /** The mentions chart rows: one per distinct date, in date order, when there is data. */
  method MentionsChartData(mh: Record<seq<MentionsHistory>>) returns (rows: seq<Record<Cell>>)
    ensures rows == MentionsRows(mh)
  {
    rows := [];
    if HasMentionsData(mh) {
      var allDates := CollectDates(mh);
      var dates := Sort(allDates);
      rows := PointsFor(mh, dates);
    }
  }

  // ------------------------------------------------------------ share of voice

  function ShareCells(s: seq<ShareOfVoice>): (r: Record<Cell>)
    ensures |r| == |s|
    ensures forall i :: 0 <= i < |s| ==> r[i] == (s[i].brand, Share(s[i].shareOfVoice))
  {
    if s == [] then []
    else ShareCells(s[..|s| - 1]) + [(s[|s| - 1].brand, Share(s[|s| - 1].shareOfVoice))]
  }

  /** The row of one dated entry: `{ date }`, then `point[sov.brand] = …` for every share. */
  function SovRow(item: ShareOfVoiceHistory): Record<Cell> {
    Collect([("date", Label(item.date))] + ShareCells(item.shareOfVoice))
  }

  predicate HasSovData(sh: seq<ShareOfVoiceHistory>) {
    |sh| > 0
  }

  function SovRows(sh: seq<ShareOfVoiceHistory>): seq<Record<Cell>> {
    if HasSovData(sh) then seq(|sh|, i requires 0 <= i < |sh| => SovRow(sh[i])) else []
  }

  /**
   * A brand's share cell holds its last share in the entry (a repeated brand
   * overwrites); the date label stays unless a brand is named "date".
   */
  lemma SovRowCells(item: ShareOfVoiceHistory, i: nat)
    requires i < |item.shareOfVoice|
    requires forall j :: i < j < |item.shareOfVoice| ==> item.shareOfVoice[j].brand != item.shareOfVoice[i].brand
    ensures Get(SovRow(item), item.shareOfVoice[i].brand) == Some(Share(item.shareOfVoice[i].shareOfVoice))
  {
    var pairs := [("date", Label(item.date))] + ShareCells(item.shareOfVoice);
    assert pairs[i + 1] == (item.shareOfVoice[i].brand, Share(item.shareOfVoice[i].shareOfVoice));
    CollectLastWins(pairs, i + 1);
  }

  lemma SovRowDate(item: ShareOfVoiceHistory)
    requires forall j :: 0 <= j < |item.shareOfVoice| ==> item.shareOfVoice[j].brand != "date"
    ensures Get(SovRow(item), "date") == Some(Label(item.date))
  {
    var pairs := [("date", Label(item.date))] + ShareCells(item.shareOfVoice);
    assert Keys(pairs)[0] == "date";
    assert [] + pairs == pairs;
    CollectUniformTail([], pairs, "date", Label(item.date));
  }

  /** The share-of-voice chart rows: one per entry, in the given order. */
  method SovChartData(sh: seq<ShareOfVoiceHistory>) returns (rows: seq<Record<Cell>>)
    ensures rows == SovRows(sh)
  {
    rows := [];
    if HasSovData(sh) {
      var n := 0;
      while n < |sh|
        invariant 0 <= n <= |sh|
        invariant |rows| == n
        invariant forall m :: 0 <= m < n ==> rows[m] == SovRow(sh[m])
      {
        var item := sh[n];
        var s := item.shareOfVoice;
        var first := [("date", Label(item.date))];
        var point := first;
        assert point == Collect(first) by {
          CollectSnoc([], ("date", Label(item.date)));
          assert [] + first == first;
        }
        assert s[..0] == [];
        var k := 0;
        while k < |s|
          invariant 0 <= k <= |s|
          invariant point == Collect(first + ShareCells(s[..k]))
        {
          var cell := (s[k].brand, Share(s[k].shareOfVoice));
          assert s[..k + 1][..k] == s[..k];
          assert first + ShareCells(s[..k + 1]) == (first + ShareCells(s[..k])) + [cell];
          CollectSnoc(first + ShareCells(s[..k]), cell);
          point := Put(point, cell.0, cell.1);
          k := k + 1;
        }
        assert s[..k] == s;
        rows := rows + [point];
        n := n + 1;
      }
    }
  }

  function BrandsOf(s: seq<ShareOfVoice>): seq<string> {
    seq(|s|, k requires 0 <= k < |s| => s[k].brand)
  }

  /** `sovHistory.flatMap((h) => h.share_of_voice.map((s) => s.brand))`. */
  function FlatBrands(sh: seq<ShareOfVoiceHistory>): seq<string> {
    if sh == [] then []
    else FlatBrands(sh[..|sh| - 1]) + BrandsOf(sh[|sh| - 1].shareOfVoice)
  }

  /** The brands drawn as share-of-voice lines. */
  function SovBrands(sh: seq<ShareOfVoiceHistory>): seq<string> {
    if HasSovData(sh) then Distinct(FlatBrands(sh)) else []
  }

  lemma {:induction false} FlatBrandsMembership(sh: seq<ShareOfVoiceHistory>, b: string)
    ensures b in FlatBrands(sh) <==>
      exists i, k :: 0 <= i < |sh| && 0 <= k < |sh[i].shareOfVoice| && sh[i].shareOfVoice[k].brand == b
  {
    if sh != [] {
      var p := sh[..|sh| - 1];
      var s := sh[|sh| - 1].shareOfVoice;
      FlatBrandsMembership(p, b);
      assert FlatBrands(sh) == FlatBrands(p) + BrandsOf(s);
      if b in FlatBrands(sh) {
        if b in FlatBrands(p) {
          var i, k :| 0 <= i < |p| && 0 <= k < |p[i].shareOfVoice| && p[i].shareOfVoice[k].brand == b;
          assert sh[i] == p[i];
        } else {
          var k :| 0 <= k < |s| && BrandsOf(s)[k] == b;
          assert sh[|sh| - 1].shareOfVoice[k].brand == b;
        }
      }
      if exists i, k :: 0 <= i < |sh| && 0 <= k < |sh[i].shareOfVoice| && sh[i].shareOfVoice[k].brand == b {
        var i, k :| 0 <= i < |sh| && 0 <= k < |sh[i].shareOfVoice| && sh[i].shareOfVoice[k].brand == b;
        if i < |p| {
          assert p[i] == sh[i];
        } else {
          assert BrandsOf(s)[k] == b;
        }
      }
    }
  }

  /**
   * Every brand with a share on some date gets exactly one line, and lines
   * are ordered by the brand's first appearance.
   */
  lemma SovBrandsSpec(sh: seq<ShareOfVoiceHistory>, b: string)
    ensures b in SovBrands(sh) <==>
      exists i, k :: 0 <= i < |sh| && 0 <= k < |sh[i].shareOfVoice| && sh[i].shareOfVoice[k].brand == b
    ensures NoDuplicates(SovBrands(sh))
    ensures forall i, j :: 0 <= i < j < |SovBrands(sh)| ==>
      FirstIndex(FlatBrands(sh), SovBrands(sh)[i]) < FirstIndex(FlatBrands(sh), SovBrands(sh)[j])
  {
    FlatBrandsMembership(sh, b);
    DistinctFirstAppearanceOrder(FlatBrands(sh));
  }

  // ------------------------------------------------------------ the panel

  /** `keys.map((brand, index) => <Line dataKey={brand} stroke={COLORS[index % COLORS.length]} />)`. */
  function Lines(keys: seq<string>): seq<Line> {
    seq(|keys|, i requires 0 <= i < |keys| => Line(keys[i], ColorAt(i)))
  }

  /**
   * Line `i` plots key `i` in the palette's colour `i`: colours repeat every
   * six lines, and the six lines after any line all differ from it.
   */
  lemma LinesCycleColors(keys: seq<string>, i: nat)
    requires i < |keys|
    ensures |Lines(keys)| == |keys|
    ensures Lines(keys)[i].dataKey == keys[i] && Lines(keys)[i].stroke == Colors[i % 6]
    ensures i + 6 < |keys| ==> Lines(keys)[i + 6].stroke == Lines(keys)[i].stroke
    ensures forall j :: i < j < |keys| && j < i + 6 ==> Lines(keys)[j].stroke != Lines(keys)[i].stroke
  {
    ColorCycle(i, i);
    forall j | i < j < |keys| && j < i + 6 ensures Lines(keys)[j].stroke != Lines(keys)[i].stroke {
      ColorCycle(i, j);
    }
  }

  /** The panel for the given histories and loading flag. */
  function HistoryView(mh: Record<seq<MentionsHistory>>, sh: seq<ShareOfVoiceHistory>, loading: bool): View {
    if loading then Loading
    else if !HasMentionsData(mh) && !HasSovData(sh) then NoHistory
    else
      var mentionsLines := if HasMentionsData(mh) then Lines(Keys(mh)) else [];
      Charts(MentionsRows(mh), mentionsLines, SovRows(sh), Lines(SovBrands(sh)))
  }

  /**
   * Loading wins; otherwise the panel is empty exactly when no brand has a
   * dated point and there is no share-of-voice entry; a shown panel has one
   * mentions row per distinct date and one share row per entry; each chart
   * is drawn only when it has data, with a line per history key and per
   * share-of-voice brand.
   */
  lemma HistoryViewCases(mh: Record<seq<MentionsHistory>>, sh: seq<ShareOfVoiceHistory>, loading: bool)
    ensures loading ==> HistoryView(mh, sh, loading) == Loading
    ensures !loading ==> (HistoryView(mh, sh, loading) == NoHistory <==> AllDates(mh) == [] && sh == [])
    ensures HistoryView(mh, sh, loading).Charts? ==>
      |HistoryView(mh, sh, loading).mentionsRows| == |Distinct(AllDates(mh))| &&
      |HistoryView(mh, sh, loading).sovRows| == |sh|
    ensures HistoryView(mh, sh, loading).Charts? ==>
      HistoryView(mh, sh, loading).mentionsLines == (if AllDates(mh) != [] then Lines(Keys(mh)) else []) &&
      HistoryView(mh, sh, loading).sovLines == (if sh != [] then Lines(SovBrands(sh)) else [])
  {
    HasMentionsDataIffDates(mh);
    RowDatesSortedAndComplete(mh, "");
  }
}
