/** The seat-fare planner: one suggested fare per seat of a rows-by-columns
    layout. Every seat of a row gets the same position and seat type, chosen by
    the bus's seating type, and is priced by the fare adjuster. The base fare
    (the mean of the listing store) is a parameter. */
module SeatGrid {
  import opened Wrappers
  import opened ClockTime
  import opened FareAdjuster

  /** The position and seat-type strings the planner hands the fare adjuster. */
  datatype Seat = Seat(position: string, seatType: string)

  /** The seat of row `row` in a bus of `rows` rows.
      A sleeper has upper berths in its first rows / 2 rows and lower berths
      after; a seater-plus-sleeper has lower double seats in its first
      `numSeats` rows and upper single berths after; any other seating type
      has lower double seats throughout. (The source halves the row count with
      floor division; for the divisor 2 Dafny's `/` is the same operation.) */
  function SeatFor(seatingType: string, row: int, rows: int, numSeats: int): (r: Seat)
    ensures r.position == "upper" || r.position == "lower"
    ensures r.position == "upper" <==>
      (seatingType == "Sleeper" && row < rows / 2) || (seatingType == "Seater + Sleeper" && row >= numSeats)
    ensures r.seatType == "single" <==> seatingType == "Sleeper" || r.position == "upper"
    ensures r.seatType != "single" ==> r.seatType == "double"
  {
    if seatingType == "Sleeper" then
      Seat(if row < rows / 2 then "upper" else "lower", "single")
    else if seatingType == "Seater + Sleeper" then
      if row < numSeats then Seat("lower", "double") else Seat("upper", "single")
    else
      Seat("lower", "double")
  }

  /** The number of iterations of a loop over range(n). */
  function Max0(n: int): nat {
    if n < 0 then 0 else n
  }

  /** The fare of a seat once the departure time is known. */
  function SeatFare(base: Option<real>, amenities: seq<string>, t: Minute, seat: Seat): real {
    ApplyStages(BaseOrZero(base), amenities, t, ClassifyPosition(seat.position), ClassifySeatType(seat.seatType))
  }

  /** The whole grid at once: Max0(rows) rows of Max0(columns) fares, or the
      departure time's error when there is at least one seat to price. */
  function FareGrid(base: Option<real>, seatingType: string, amenities: seq<string>, departure: string,
                    rows: int, columns: int, numSeats: int): (r: Result<seq<seq<real>>, TimeError>)
    ensures r.Failure? <==> rows > 0 && columns > 0 && ParseTime(departure).Failure?
    ensures r.Failure? ==> r.error == Unparsable(departure)
    ensures r.Success? ==> |r.value| == Max0(rows)
    ensures r.Success? ==> forall i :: 0 <= i < |r.value| ==> |r.value[i]| == Max0(columns)
  {
    var parsed := ParseTime(departure);
    if parsed.Failure? then
      if rows > 0 && columns > 0 then Failure(parsed.error)
      else Success(seq(Max0(rows), i => []))
    else
      Success(seq(Max0(rows), i =>
        seq(Max0(columns), j => SeatFare(base, amenities, parsed.value, SeatFor(seatingType, i, rows, numSeats)))))
  }

  /** The planner as the source runs it: row by row, seat by seat, pricing each
      seat with the fare adjuster and stopping at the first error. The berth
      count is accepted and not used. */
  method CalculateSeatFares(base: Option<real>, seatingType: string, amenities: seq<string>, departure: string,
                            rows: int, columns: int, numSeats: int, numBerths: int)
    returns (r: Result<seq<seq<real>>, TimeError>)
    ensures r == FareGrid(base, seatingType, amenities, departure, rows, columns, numSeats)
  {
    var grid: seq<seq<real>> := [];
    var row := 0;
    while row < rows
      invariant 0 <= row <= Max0(rows)
      invariant |grid| == row
      invariant row > 0 && columns > 0 ==> ParseTime(departure).Success?
      invariant forall i :: 0 <= i < row ==> |grid[i]| == Max0(columns)
      invariant forall i, j :: 0 <= i < row && 0 <= j < |grid[i]| ==>
        ParseTime(departure).Success? &&
        grid[i][j] == SeatFare(base, amenities, ParseTime(departure).value, SeatFor(seatingType, i, rows, numSeats))
    {
      var seat := SeatFor(seatingType, row, rows, numSeats);
      var rowFares: seq<real> := [];
      var col := 0;
      while col < columns
        invariant 0 <= col <= Max0(columns)
        invariant |rowFares| == col
        invariant col > 0 ==> ParseTime(departure).Success?
        invariant forall j :: 0 <= j < col ==>
          ParseTime(departure).Success? && rowFares[j] == SeatFare(base, amenities, ParseTime(departure).value, seat)
      {
        var fare := CalculateFare(base, amenities, departure, seat.position, seat.seatType);
        if fare.Failure? {
          return Failure(fare.error);
        }
        FareIsStages(base, amenities, departure, seat.position, seat.seatType);
        rowFares := rowFares + [fare.value];
        col := col + 1;
      }
      assert forall j :: 0 <= j < |rowFares| ==>
        ParseTime(departure).Success? &&
        rowFares[j] == SeatFare(base, amenities, ParseTime(departure).value, SeatFor(seatingType, row, rows, numSeats));
      grid := grid + [rowFares];
      row := row + 1;
    }
    r := Success(grid);
    GridIsReference(grid, base, seatingType, amenities, departure, rows, columns, numSeats);
  }

  /** A grid of the reference's shape whose every fare is the reference's
      fare is the reference grid. */
  lemma GridIsReference(grid: seq<seq<real>>, base: Option<real>, seatingType: string, amenities: seq<string>,
                        departure: string, rows: int, columns: int, numSeats: int)
    requires |grid| == Max0(rows)
    requires forall i :: 0 <= i < |grid| ==> |grid[i]| == Max0(columns)
    requires forall i, j :: 0 <= i < |grid| && 0 <= j < |grid[i]| ==>
      ParseTime(departure).Success? &&
      grid[i][j] == SeatFare(base, amenities, ParseTime(departure).value, SeatFor(seatingType, i, rows, numSeats))
    requires ParseTime(departure).Failure? ==> rows <= 0 || columns <= 0
    ensures Success(grid) == FareGrid(base, seatingType, amenities, departure, rows, columns, numSeats)
  {
    var g := FareGrid(base, seatingType, amenities, departure, rows, columns, numSeats);
    assert g.Success?;
    assert |g.value| == |grid|;
    forall i | 0 <= i < |grid|
      ensures g.value[i] == grid[i]
    {
      assert |g.value[i]| == |grid[i]|;
      forall j | 0 <= j < |grid[i]|
        ensures g.value[i][j] == grid[i][j]
      {
      }
    }
    assert g.value == grid;
  }

  // ---------------------------------------------------------------------------
  // The grid against the fare adjuster

  /** Every fare of the grid is what the fare adjuster gives for that row's seat. */
  lemma GridCellsAreFares(base: Option<real>, seatingType: string, amenities: seq<string>, departure: string,
                          rows: int, columns: int, numSeats: int)
    requires FareGrid(base, seatingType, amenities, departure, rows, columns, numSeats).Success?
    ensures var g := FareGrid(base, seatingType, amenities, departure, rows, columns, numSeats).value;
      forall i, j :: 0 <= i < |g| && 0 <= j < |g[i]| ==>
        CalculateFare(base, amenities, departure, SeatFor(seatingType, i, rows, numSeats).position,
                      SeatFor(seatingType, i, rows, numSeats).seatType) == Success(g[i][j])
  {
    var g := FareGrid(base, seatingType, amenities, departure, rows, columns, numSeats).value;
    forall i, j | 0 <= i < |g| && 0 <= j < |g[i]|
      ensures CalculateFare(base, amenities, departure, SeatFor(seatingType, i, rows, numSeats).position,
                            SeatFor(seatingType, i, rows, numSeats).seatType) == Success(g[i][j])
    {
      var seat := SeatFor(seatingType, i, rows, numSeats);
      FareIsStages(base, amenities, departure, seat.position, seat.seatType);
    }
  }

  /** All seats of a row are priced alike: the column never matters. */
  lemma RowsAreUniform(base: Option<real>, seatingType: string, amenities: seq<string>, departure: string,
                       rows: int, columns: int, numSeats: int)
    requires FareGrid(base, seatingType, amenities, departure, rows, columns, numSeats).Success?
    ensures var g := FareGrid(base, seatingType, amenities, departure, rows, columns, numSeats).value;
      forall i, j1, j2 :: 0 <= i < |g| && 0 <= j1 < |g[i]| && 0 <= j2 < |g[i]| ==> g[i][j1] == g[i][j2]
  {
  }

  /** A seating type other than "Sleeper" and "Seater + Sleeper" gives every
      seat the same fare. */
  lemma PlainLayoutUniform(base: Option<real>, seatingType: string, amenities: seq<string>, departure: string,
                           rows: int, columns: int, numSeats: int)
    requires seatingType != "Sleeper" && seatingType != "Seater + Sleeper"
    requires FareGrid(base, seatingType, amenities, departure, rows, columns, numSeats).Success?
    ensures var g := FareGrid(base, seatingType, amenities, departure, rows, columns, numSeats).value;
      forall i1, j1, i2, j2 :: 0 <= i1 < |g| && 0 <= j1 < |g[i1]| && 0 <= i2 < |g| && 0 <= j2 < |g[i2]| ==>
        g[i1][j1] == g[i2][j2]
  {
  }

  /** In a sleeper, an upper-berth row is priced at exactly 0.995 of a
      lower-berth row. */
  lemma SleeperUpperDiscount(base: Option<real>, amenities: seq<string>, departure: string,
                             rows: int, columns: int, numSeats: int, i1: int, j1: int, i2: int, j2: int)
    requires FareGrid(base, "Sleeper", amenities, departure, rows, columns, numSeats).Success?
    requires 0 <= i1 < rows / 2 <= i2 < rows && 0 <= j1 < columns && 0 <= j2 < columns
    ensures var g := FareGrid(base, "Sleeper", amenities, departure, rows, columns, numSeats).value;
      g[i1][j1] == 0.995 * g[i2][j2]
  {
    var g := FareGrid(base, "Sleeper", amenities, departure, rows, columns, numSeats).value;
    var b, t := BaseOrZero(base), ParseTime(departure).value;
    assert g[i1][j1] == SeatFare(base, amenities, t, Seat("upper", "single"));
    assert g[i1][j1] == ApplyStages(b, amenities, t, Upper, Single);
    assert g[i2][j2] == SeatFare(base, amenities, t, Seat("lower", "single"));
    assert g[i2][j2] == ApplyStages(b, amenities, t, Lower, Single);
    UpperDiscount(b, amenities, t, Single);
    Proportional(g[i2][j2], g[i1][j1], ApplyStages(b, amenities, t, Lower, Single),
                 ApplyStages(b, amenities, t, Upper, Single), 0.995);
  }

  /** In a seater-plus-sleeper, a berth row (from row numSeats on) is priced at
      exactly 0.995 * 1.07 of a seat row: upper and single against lower and
      "double", which no seat-type test matches. */
  lemma SeaterSleeperBerthPremium(base: Option<real>, amenities: seq<string>, departure: string,
                                  rows: int, columns: int, numSeats: int, i1: int, j1: int, i2: int, j2: int)
    requires FareGrid(base, "Seater + Sleeper", amenities, departure, rows, columns, numSeats).Success?
    requires 0 <= i1 < numSeats <= i2 < rows && i1 < rows && 0 <= j1 < columns && 0 <= j2 < columns
    ensures var g := FareGrid(base, "Seater + Sleeper", amenities, departure, rows, columns, numSeats).value;
      g[i2][j2] == 0.995 * 1.07 * g[i1][j1]
  {
    var g := FareGrid(base, "Seater + Sleeper", amenities, departure, rows, columns, numSeats).value;
    var b, t := BaseOrZero(base), ParseTime(departure).value;
    assert ClassifyPosition("lower") == Lower && ClassifySeatType("double") == UnknownType;
    assert g[i1][j1] == SeatFare(base, amenities, t, Seat("lower", "double"));
    assert g[i1][j1] == ApplyStages(b, amenities, t, Lower, UnknownType);
    assert g[i2][j2] == SeatFare(base, amenities, t, Seat("upper", "single"));
    assert g[i2][j2] == ApplyStages(b, amenities, t, Upper, Single);
    BerthPremium(b, amenities, t, UnknownType);
    Proportional(g[i1][j1], g[i2][j2], ApplyStages(b, amenities, t, Lower, UnknownType),
                 ApplyStages(b, amenities, t, Upper, Single), 0.995 * 1.07);
  }

  /** Algebra step for the solver, modelling nothing of its own: equal values
      keep a ratio between them. */
  lemma Proportional(x0: real, x1: real, y0: real, y1: real, f: real)
    requires x0 == y0 && x1 == y1 && y1 == f * y0
    ensures x1 == f * x0
  {
  }

  // ---------------------------------------------------------------------------
  // Where the berths are

  /** The number of rows among the first n whose seats are upper berths. */
  function UpperRows(seatingType: string, rows: int, numSeats: int, n: nat): nat {
    if n == 0 then 0
    else UpperRows(seatingType, rows, numSeats, n - 1)
         + (if SeatFor(seatingType, n - 1, rows, numSeats).position == "upper" then 1 else 0)
  }

  /** A sleeper's upper berths fill its first rows / 2 rows and no others. */
  lemma {:induction false} SleeperUpperRows(rows: int, numSeats: int, n: nat)
    ensures UpperRows("Sleeper", rows, numSeats, n) == if n < Max0(rows / 2) then n else Max0(rows / 2)
  {
    if n > 0 {
      SleeperUpperRows(rows, numSeats, n - 1);
    }
  }

  /** A seater-plus-sleeper has upper berths in every row from numSeats on. */
  lemma {:induction false} SeaterSleeperUpperRows(rows: int, numSeats: int, n: nat)
    ensures UpperRows("Seater + Sleeper", rows, numSeats, n) == if n < Max0(numSeats) then 0 else n - Max0(numSeats)
  {
    if n > 0 {
      SeaterSleeperUpperRows(rows, numSeats, n - 1);
    }
  }

  /** Any other seating type has no upper berths. */
  lemma {:induction false} PlainLayoutNoUpperRows(seatingType: string, rows: int, numSeats: int, n: nat)
    requires seatingType != "Sleeper" && seatingType != "Seater + Sleeper"
    ensures UpperRows(seatingType, rows, numSeats, n) == 0
  {
    if n > 0 {
      PlainLayoutNoUpperRows(seatingType, rows, numSeats, n - 1);
    }
  }
}
