/**
 * The contribution reshaper: the flat list of daily contribution counts
 * reported for a user is cut, purely by position, into a calendar grid of
 * exactly 53 weeks of 7 days. Positions past the end of the input hold a
 * padding day with no date and a count of 0.
 */
module Contributions {
  import opened Common

  /** One day as the contributions service reports it. */
  datatype ContributionDay = ContributionDay(date: string, count: int)

  /** One cell of the grid; a `date` of None marks padding. */
  datatype WeekDay = WeekDay(date: Option<string>, count: int)

  const DaysInWeek: nat := 7
  const TotalWeeks: nat := 53
  /** Number of cells in the grid: TotalWeeks * DaysInWeek. */
  const GridSize: nat := 371

  /** The cell written where the input has run out. */
  const Padding: WeekDay := WeekDay(None, 0)

  /** The grid cell built from a reported day: its date and count, nothing else. */
  function Project(day: ContributionDay): WeekDay {
    WeekDay(Some(day.date), day.count)
  }

  /** The cells of a list of days, in order. */
  function ProjectAll(days: seq<ContributionDay>): (cells: seq<WeekDay>)
    ensures |cells| == |days|
    ensures forall i :: 0 <= i < |days| ==> cells[i] == Project(days[i])
  {
    if days == [] then [] else [Project(days[0])] + ProjectAll(days[1..])
  }

  /** `n` padding cells. */
  function Fill(n: nat): (cells: seq<WeekDay>)
    ensures |cells| == n
    ensures forall i :: 0 <= i < n ==> cells[i] == Padding
  {
    if n == 0 then [] else [Padding] + Fill(n - 1)
  }

  function Min(a: nat, b: nat): nat {
    if a < b then a else b
  }

  /**
   * The grid read week by week: the first min(|days|, 371) days, then
   * padding up to 371 cells.
   */
  function Cells(days: seq<ContributionDay>): (cells: seq<WeekDay>)
    ensures |cells| == GridSize
    ensures forall i :: 0 <= i < GridSize ==>
      cells[i] == if i < |days| then Project(days[i]) else Padding
  {
    var kept := Min(|days|, GridSize);
    ProjectAll(days[..kept]) + Fill(GridSize - kept)
  }

  /** Cuts a list into consecutive runs of seven. */
  function Chunk<T>(cells: seq<T>): (weeks: seq<seq<T>>)
    requires |cells| % 7 == 0
    ensures |weeks| == |cells| / 7
    ensures forall w :: 0 <= w < |weeks| ==> weeks[w] == cells[w * 7 .. w * 7 + 7]
    decreases |cells|
  {
    if |cells| == 0 then [] else [cells[..7]] + Chunk(cells[7..])
  }

  /** Concatenates the weeks of a grid in order. */
  function Flatten<T>(weeks: seq<seq<T>>): seq<T> {
    if weeks == [] then [] else weeks[0] + Flatten(weeks[1..])
  }

  /** The reference definition of the reshaped grid. */
  function Grid(days: seq<ContributionDay>): (weeks: seq<seq<WeekDay>>)
    ensures |weeks| == TotalWeeks
    ensures forall w :: 0 <= w < TotalWeeks ==> |weeks[w]| == DaysInWeek
    ensures forall w, d :: 0 <= w < TotalWeeks && 0 <= d < DaysInWeek ==>
      weeks[w][d] == if w * 7 + d < |days| then Project(days[w * 7 + d]) else Padding
  {
    Chunk(Cells(days))
  }

  /** Chunking into weeks and flattening again gives back the cells. */
  lemma {:induction false} FlattenChunk<T>(cells: seq<T>)
    requires |cells| % 7 == 0
    ensures Flatten(Chunk(cells)) == cells
    decreases |cells|
  {
    if |cells| != 0 {
      FlattenChunk(cells[7..]);
      assert cells == cells[..7] + cells[7..];
    }
  }

  /**
   * Read in order, the grid is the first min(|days|, 371) days followed only
   * by padding.
   */
  lemma GridFlattens(days: seq<ContributionDay>)
    ensures var kept := Min(|days|, GridSize);
      Flatten(Grid(days)) == ProjectAll(days[..kept]) + Fill(GridSize - kept)
  {
    FlattenChunk(Cells(days));
  }

  /** A cell is padding exactly when its position is past the end of the input. */
  lemma GridPaddingExactlyPastEnd(days: seq<ContributionDay>, w: nat, d: nat)
    requires w < TotalWeeks && d < DaysInWeek
    ensures Grid(days)[w][d].date.None? <==> w * 7 + d >= |days|
    ensures Grid(days)[w][d].date.None? ==> Grid(days)[w][d] == Padding
  {
  }

  /** Days from position 371 on never reach the grid. */
  lemma GridIgnoresTail(days: seq<ContributionDay>, more: seq<ContributionDay>)
    requires |days| >= GridSize
    ensures Grid(days + more) == Grid(days)
  {
    assert Cells(days + more) == Cells(days);
  }

  /**
   * Builds the grid week by week with two nested loops, appending one cell
   * at a time.
   */
  method ProcessContributions(days: seq<ContributionDay>) returns (weeks: seq<seq<WeekDay>>)
    ensures weeks == Grid(days)
  {
    ghost var grid := Grid(days);
    weeks := [];
    for w := 0 to TotalWeeks
      invariant |weeks| == w
      invariant forall i :: 0 <= i < w ==> weeks[i] == grid[i]
    {
      var week := [];
      for d := 0 to DaysInWeek
        invariant |week| == d
        invariant forall j :: 0 <= j < d ==> week[j] == grid[w][j]
      {
        var index := w * 7 + d;
        if index < |days| {
          week := week + [WeekDay(Some(days[index].date), days[index].count)];
        } else {
          week := week + [Padding];
        }
      }
      weeks := weeks + [week];
    }
  }
}
