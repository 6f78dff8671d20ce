/**
 * The dashboard's overview page (dashboard/app/dashboard/page.tsx): one card per printer,
 * with a toner bar whose colour, width and label come from the latest toner level.
 */
module Overview {
  import opened Wrappers
  import opened Text
  import Session

  /** One row of `/metrics/summary`. */
  datatype PrinterSummary = PrinterSummary(
    printerId: int, printerName: string, printerIp: string, location: Option<string>,
    latestTimestamp: Option<int>, totalPages: Option<int>, tonerLevelPct: Option<int>,
    tonerStatus: Option<string>, drumLevelPct: Option<int>, connectionStatus: string)

  datatype Shade = Gray | Green | Yellow | Red

  /**
   * `getTonerColor`: unknown is gray, above 50 green, 21..50 yellow and 20 or below red.
   */
  function TonerShade(level: Option<int>): (c: Shade)
    ensures c == Gray <==> level.None?
    ensures c == Green <==> level.Some? && level.value > 50
    ensures c == Yellow <==> level.Some? && 20 < level.value <= 50
    ensures c == Red <==> level.Some? && level.value <= 20
  {
    match level
    case None => Gray
    case Some(n) => if n > 50 then Green else if n > 20 then Yellow else Red
  }

  /** The CSS class the bar gets, in the order the page tests the level. */
  function TonerColor(level: Option<int>): (s: string)
    ensures s == "bg-gray-200" <==> level.None?
    ensures s == "bg-green-500" <==> level.Some? && level.value > 50
    ensures s == "bg-yellow-500" <==> level.Some? && 20 < level.value <= 50
    ensures s == "bg-red-500" <==> level.Some? && level.value <= 20
  {
    match level
    case None => "bg-gray-200"
    case Some(n) => if n > 50 then "bg-green-500" else if n > 20 then "bg-yellow-500" else "bg-red-500"
  }

  /** Two levels get the same class exactly when they get the same shade. */
  lemma ColorFollowsShade(a: Option<int>, b: Option<int>)
    ensures TonerColor(a) == TonerColor(b) <==> TonerShade(a) == TonerShade(b)
  {
  }

  function Rank(c: Shade): nat
  {
    match c
    case Red => 0
    case Yellow => 1
    case Green => 2
    case Gray => 3
  }

  /** More toner never gives a more alarming colour, and the boundaries fall as stated. */
  lemma ShadeMonotone(a: int, b: int)
    requires a <= b
    ensures Rank(TonerShade(Some(a))) <= Rank(TonerShade(Some(b)))
    ensures TonerShade(Some(50)) == Yellow && TonerShade(Some(51)) == Green
    ensures TonerShade(Some(20)) == Red && TonerShade(Some(21)) == Yellow
  {
  }

  /** `${toner_level_pct || 0}%`: the bar width, with an unknown level drawn as 0. */
  function BarWidth(level: Option<int>): (w: int)
    ensures level.Some? ==> w == level.value
    ensures level.None? ==> w == 0
  {
    match level
    case Some(n) => if n != 0 then n else 0
    case None => 0
  }

  /** The text under the bar: the level with a percent sign, or "Unknown". */
  function TonerLabel(level: Option<int>): (s: string)
    ensures |s| >= 2
    ensures level.None? <==> s == "Unknown"
  {
    match level
    case Some(n) =>
      var s := IntToString(n) + "%";
      assert s[|s| - 1] != "Unknown"[6];
      s
    case None => "Unknown"
  }

  /** A known level's label ends in `%` and reads back as that level. */
  lemma LabelReadsBack(n: int)
    ensures var s := TonerLabel(Some(n)); s[|s| - 1] == '%' && ParseInt(s[..|s| - 1]) == Some(n)
  {
    var s := TonerLabel(Some(n));
    assert s[..|s| - 1] == IntToString(n);
    IntToStringRoundTrip(n);
  }

  /** What the page renders. */
  datatype PageView = LoadingPrinters | NoPrinters | Cards(printers: seq<PrinterSummary>)

  function Render(loading: bool, printers: seq<PrinterSummary>): (v: PageView)
    ensures loading <==> v == LoadingPrinters
    ensures v == NoPrinters <==> !loading && printers == []
    ensures v.Cards? ==> v.printers == printers && printers != []
  {
    if loading then LoadingPrinters else if printers == [] then NoPrinters else Cards(printers)
  }

  /** The page's state: the summaries and its loading flag. */
  class DashboardPage {
    var printers: seq<PrinterSummary>
    var loading: bool

    constructor ()
      ensures printers == [] && loading
    {
      printers, loading := [], true;
    }

    /** `loadData`: a successful summary replaces the list; a failure keeps it. */
    method LoadData(summary: Result<seq<PrinterSummary>, Session.ApiError>)
      modifies this
      ensures !loading
      ensures summary.Ok? ==> printers == summary.value
      ensures summary.Err? ==> printers == old(printers)
    {
      if summary.Ok? {
        printers := summary.value;
      }
      loading := false;
    }
  }
}
