/**
 * The mentions panel: a bar chart of each brand's mention counts, a pie chart
 * of each brand's total, and the sum of all totals.
 */
module MentionsChart {
  import opened Collections
  import opened Types
  import opened Palette

  /** One brand's bars. */
  datatype Bar = Bar(name: string, totalMentions: int, onlyThisBrand: int, withCompetitors: int)

  /** One brand's pie slice. */
  datatype Slice = Slice(name: string, value: int, color: string)

  /** What the panel shows. */
  datatype View = Loading | NoMentions | Charts(bars: seq<Bar>, slices: seq<Slice>, totalMentions: int)

  function Bars(data: seq<MentionsOverview>): seq<Bar> {
    seq(|data|, i requires 0 <= i < |data| =>
      Bar(data[i].brand, data[i].total, data[i].onlyTargetBrand, data[i].targetAndCompetitorsBrands))
  }

  function Slices(data: seq<MentionsOverview>): seq<Slice> {
    seq(|data|, i requires 0 <= i < |data| => Slice(data[i].brand, data[i].total, ColorAt(i)))
  }

  /** `data.reduce((sum, item) => sum + item.total, 0)`. */
  function TotalMentions(data: seq<MentionsOverview>): int {
    if data == [] then 0 else TotalMentions(data[..|data| - 1]) + data[|data| - 1].total
  }

  function SliceValues(slices: seq<Slice>): seq<int> {
    seq(|slices|, i requires 0 <= i < |slices| => slices[i].value)
  }

  /** The headline total is the sum of the pie slices. */
  lemma {:induction false} TotalIsSumOfSlices(data: seq<MentionsOverview>)
    ensures TotalMentions(data) == Sum(SliceValues(Slices(data)))
  {
    if data != [] {
      var p := data[..|data| - 1];
      TotalIsSumOfSlices(p);
      assert SliceValues(Slices(data))[..|data| - 1] == SliceValues(Slices(p));
    }
  }

  /** With non-negative counts, no slice exceeds the total: each is a share of the pie. */
  lemma {:induction false} SliceWithinTotal(data: seq<MentionsOverview>, i: nat)
    requires forall j :: 0 <= j < |data| ==> data[j].total >= 0
    requires i < |data|
    ensures 0 <= Slices(data)[i].value <= TotalMentions(data)
  {
    var values := SliceValues(Slices(data));
    TotalIsSumOfSlices(data);
    SumBoundsElements(values, i);
  }

  /**
   * Bars and slices list the brands in input order, the slice of a brand
   * being its total bar and its two stacked bars its "only this brand" and
   * "with competitors" counts; slice colours cycle with period six and any
   * six consecutive slices differ.
   */
  lemma BarsMatchSlices(data: seq<MentionsOverview>, i: nat)
    requires i < |data|
    ensures |Bars(data)| == |Slices(data)| == |data|
    ensures Bars(data)[i].name == Slices(data)[i].name == data[i].brand
    ensures Bars(data)[i].totalMentions == Slices(data)[i].value
    ensures Bars(data)[i].onlyThisBrand == data[i].onlyTargetBrand
    ensures Bars(data)[i].withCompetitors == data[i].targetAndCompetitorsBrands
    ensures i + 6 < |data| ==> Slices(data)[i + 6].color == Slices(data)[i].color
    ensures forall j :: i < j < |data| && j < i + 6 ==> Slices(data)[j].color != Slices(data)[i].color
  {
    ColorCycle(i, i);
    forall j | i < j < |data| && j < i + 6 ensures Slices(data)[j].color != Slices(data)[i].color {
      ColorCycle(i, j);
    }
  }

  function MentionsView(data: seq<MentionsOverview>, loading: bool): View {
    if loading then Loading
    else if |data| == 0 then NoMentions
    else Charts(Bars(data), Slices(data), TotalMentions(data))
  }

  /** Loading wins; otherwise the panel is empty exactly when there is no overview. */
  lemma MentionsViewCases(data: seq<MentionsOverview>, loading: bool)
    ensures loading <==> MentionsView(data, loading) == Loading
    ensures MentionsView(data, loading) == NoMentions <==> !loading && data == []
    ensures MentionsView(data, loading).Charts? ==> |MentionsView(data, loading).bars| == |data| > 0
  {
  }
}
