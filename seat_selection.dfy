/**
 * The seat map: seats are grouped by the row number read from their seat label, rows are
 * listed in ascending order, each row is sorted into columns A to F and split around the
 * aisle, and the component keeps the selected seat until it is confirmed.
 */
module SeatSelection {
  import opened Wrappers
  import opened Text
  import opened Schema
  import opened HostedStore
  import Ordering
  import Grouping

  // ---------------------------------------------------------------------------
  // Rows
  // ---------------------------------------------------------------------------

  /** The object key a seat is filed under: its row number, or NaN when the label has none. */
  datatype RowKey = Row(n: int) | NaN

  /** `parseInt(seat.seat_number.slice(0, -1))` */
  function RowKeyOf(seat: Seat): RowKey {
    match ParseInt(DropLast(seat.seatNumber))
    case Some(n) => Row(n)
    case None => NaN
  }

  /** A label made of a row number and one column letter is filed under that row and shows that letter. */
  lemma RowKeyOfLabel(seat: Seat, row: int, letter: char)
    requires seat.seatNumber == IntToString(row) + [letter]
    ensures RowKeyOf(seat) == Row(row)
    ensures LastChar(seat.seatNumber) == [letter]
  {
    assert DropLast(seat.seatNumber) == IntToString(row) + [];
    ParseIntOfIntToString(row, []);
  }

  /** The numeric keys, in order (`Object.keys(...).map(Number)` without the NaN key). */
  function Numbered(keys: seq<RowKey>): seq<int> {
    if keys == [] then []
    else (if keys[0].Row? then [keys[0].n] else []) + Numbered(keys[1..])
  }

  /** The numeric keys are the row numbers of the keys, and none is lost or repeated. */
  lemma {:induction false} NumberedFacts(keys: seq<RowKey>)
    ensures forall n :: n in Numbered(keys) <==> Row(n) in keys
    ensures Ordering.Distinct(keys) ==> Ordering.Distinct(Numbered(keys))
    decreases |keys|
  {
    if keys != [] {
      NumberedFacts(keys[1..]);
      assert keys == [keys[0]] + keys[1..];
      if Ordering.Distinct(keys) {
        assert Ordering.Distinct(keys[1..]);
        if keys[0].Row? {
          assert keys[0] !in keys[1..];
          assert keys[0].n !in Numbered(keys[1..]);
        }
      }
    }
  }

  /** `rows`: the row numbers sorted with `(a, b) => a - b`. */
  function SortedRows(seats: seq<Seat>): seq<int> {
    Ordering.SortBy(Numbered(Grouping.KeyOrder(seats, RowKeyOf)), Ordering.Id)
  }

  /** The rows are strictly ascending and are exactly the row numbers that occur in seat labels. */
  lemma {:induction false} RowsAscendingAndComplete(seats: seq<Seat>)
    ensures var rows := SortedRows(seats);
      forall i, j :: 0 <= i < j < |rows| ==> rows[i] < rows[j]
    ensures forall n :: n in SortedRows(seats) <==> exists x :: x in seats && RowKeyOf(x) == Row(n)
  {
    var keys := Grouping.KeyOrder(seats, RowKeyOf);
    var numbered := Numbered(keys);
    Grouping.KeyOrderFacts(seats, RowKeyOf);
    NumberedFacts(keys);
    Ordering.SortDistinctIsStrict(numbered);
    Ordering.SortByOrders(numbered, Ordering.Id);
    assert SortedRows(seats) == Ordering.SortBy(numbered, Ordering.Id);
    forall n ensures n in SortedRows(seats) <==> n in numbered {
      assert n in SortedRows(seats) <==> n in multiset(SortedRows(seats));
    }
  }

  // ---------------------------------------------------------------------------
  // Columns
  // ---------------------------------------------------------------------------

  /**
   * The column letters in the order a row is sorted. The aisle split is by position, not by
   * letter: the first three seats of a sorted row go left of the aisle and the rest right of it.
   */
  const Columns: seq<string> := ["A", "B", "C", "D", "E", "F"]

  /** `order.indexOf(seat.seat_number.slice(-1))`: 0 to 5 for A to F, -1 for anything else. */
  function ColumnRank(seat: Seat): (rank: int)
    ensures -1 <= rank < 6
    ensures rank >= 0 ==> Columns[rank] == LastChar(seat.seatNumber)
    ensures rank == -1 <==> LastChar(seat.seatNumber) !in Columns
  {
    IndexOf(Columns, LastChar(seat.seatNumber))
  }

  /** No seat among the first three of a sorted row (the left block) has a later column than a seat of the rest. */
  lemma {:induction false} LeftBeforeRight(row: seq<Seat>)
    ensures var sorted := Ordering.SortBy(row, ColumnRank);
      var cut := if |sorted| < 3 then |sorted| else 3;
      forall x, y :: x in sorted[..cut] && y in sorted[cut..] ==> ColumnRank(x) <= ColumnRank(y)
  {
    var sorted := Ordering.SortBy(row, ColumnRank);
    Ordering.SortByOrders(row, ColumnRank);
    Ordering.SortedCut(sorted, ColumnRank, if |sorted| < 3 then |sorted| else 3);
  }

  /** Sorting by column is idempotent: a second sort leaves a sorted row as it is. */
  lemma SortRowIdempotent(row: seq<Seat>)
    ensures Ordering.SortBy(Ordering.SortBy(row, ColumnRank), ColumnRank) == Ordering.SortBy(row, ColumnRank)
  {
    Ordering.SortByOrders(row, ColumnRank);
    Ordering.SortSortedIsIdentity(Ordering.SortBy(row, ColumnRank), ColumnRank);
  }

  // ---------------------------------------------------------------------------
  // Row views
  // ---------------------------------------------------------------------------

  datatype Band = FirstClass | Business | Economy

  /** `isFirstClass` (rows up to 3) and `isBusiness` (rows 4 to 8); every other row is economy. */
  function RowBand(row: int): Band {
    if row <= 3 then FirstClass else if row <= 8 then Business else Economy
  }

  /** The band heading drawn above a row: First Class above row 1, Business above 4, Economy above 9. */
  function HeaderAt(row: int): Option<Band> {
    if row == 1 then Some(FirstClass)
    else if row == 4 then Some(Business)
    else if row == 9 then Some(Economy)
    else None
  }

  /** The row that carries the exit-row marker. */
  const ExitRow: int := 12

  /** A heading names its row's band, and from row 2 on a heading appears exactly where the band changes. */
  lemma HeaderMarksBandStart(row: int)
    ensures HeaderAt(row).Some? ==> HeaderAt(row).value == RowBand(row)
    ensures row >= 2 ==> (HeaderAt(row).Some? <==> RowBand(row - 1) != RowBand(row))
  {
  }

  /** One rendered row: its heading, the seats left and right of the aisle, and the exit marker. */
  datatype RowView = RowView(row: int, header: Option<Band>, left: seq<Seat>, right: seq<Seat>, exitMarker: bool)

  /** The row `row` drawn from its sorted seats: `slice(0, 3)` left of the aisle, `slice(3)` right of it. */
  function RowViewOf(row: int, sorted: seq<Seat>): RowView {
    var cut := if |sorted| < 3 then |sorted| else 3;
    RowView(row, HeaderAt(row), sorted[..cut], sorted[cut..], row == ExitRow)
  }

  /**
   * A row view loses no seat and invents none: left and right together are the sorted row,
   * the left block holds the first three seats (all of them when there are fewer), and the
   * exit marker is shown on row 12 only.
   */
  lemma RowViewSplitsAtAisle(row: int, sorted: seq<Seat>)
    ensures var v := RowViewOf(row, sorted);
      && v.row == row && v.header == HeaderAt(row)
      && v.left + v.right == sorted
      && |v.left| == (if |sorted| < 3 then |sorted| else 3)
      && (v.exitMarker <==> row == ExitRow)
  {
    var v := RowViewOf(row, sorted);
    assert v.left + v.right == sorted;
  }

  /** The seats of row `row`, sorted by column. */
  function SortedRowSeats(seats: seq<Seat>, row: int): seq<Seat> {
    Ordering.SortBy(Grouping.Group(seats, RowKeyOf, Row(row)), ColumnRank)
  }

  /** The views of the given rows, each drawn from that row's seats sorted by column. */
  function ViewsFor(seats: seq<Seat>, rows: seq<int>): seq<RowView> {
    seq(|rows|, i requires 0 <= i < |rows| => RowViewOf(rows[i], SortedRowSeats(seats, rows[i])))
  }

  /** The rows of the seat map for the given seats. */
  function SeatMapOf(seats: seq<Seat>): seq<RowView> {
    ViewsFor(seats, SortedRows(seats))
  }

  /** One row of the render: the row's seats are copied into an array, sorted in place by column and split at the aisle. */
  method LayoutRow(row: int, group: seq<Seat>) returns (v: RowView)
    ensures v == RowViewOf(row, Ordering.SortBy(group, ColumnRank))
  {
    var a := new Seat[|group|](k requires 0 <= k < |group| => group[k]);
    assert a[..] == group;
    Ordering.SortInPlace(a, ColumnRank);
    v := RowViewOf(row, a[..]);
  }

  /** `seatsByRow` and `rows`: the seats grouped by row key, and the numeric row keys in ascending order. */
  method GroupRows(seats: seq<Seat>) returns (byRow: map<RowKey, seq<Seat>>, rows: seq<int>)
    ensures rows == SortedRows(seats)
    ensures forall r :: r in rows ==> Row(r) in byRow && byRow[Row(r)] == Grouping.Group(seats, RowKeyOf, Row(r))
  {
    var keys;
    byRow, keys := Grouping.GroupBy(seats, RowKeyOf);
    rows := Ordering.SortBy(Numbered(keys), Ordering.Id);
    assert forall r :: r in rows ==> Row(r) in keys by {
      NumberedFacts(keys);
      Ordering.SortByOrders(Numbered(keys), Ordering.Id);
      assert forall r :: r in rows ==> r in multiset(rows);
    }
  }

  /** Lays out the given rows one after the other. */
  method LayoutRows(seats: seq<Seat>, rows: seq<int>, byRow: map<RowKey, seq<Seat>>) returns (views: seq<RowView>)
    requires forall r :: r in rows ==> Row(r) in byRow && byRow[Row(r)] == Grouping.Group(seats, RowKeyOf, Row(r))
    ensures views == ViewsFor(seats, rows)
  {
    views := [];
    for i := 0 to |rows|
      invariant |views| == i
      invariant forall k :: 0 <= k < i ==> views[k] == RowViewOf(rows[k], SortedRowSeats(seats, rows[k]))
    {
      var row := rows[i];
      var v := LayoutRow(row, byRow[Row(row)]);
      views := views + [v];
    }
  }

  /** The render: group the seats, order the rows, and lay out each row. */
  method BuildSeatMap(seats: seq<Seat>) returns (views: seq<RowView>)
    ensures views == SeatMapOf(seats)
  {
    var byRow, rows := GroupRows(seats);
    views := LayoutRows(seats, rows, byRow);
  }

  /** The seats drawn in row `n` are seats filed under `n`, and each seat filed under `n` is drawn there as often as it occurs. */
  lemma RowSeatsAreTheRowsGroup(seats: seq<Seat>, n: int)
    ensures forall x :: x in SortedRowSeats(seats, n) ==> x in seats && RowKeyOf(x) == Row(n)
    ensures forall x :: RowKeyOf(x) == Row(n) ==> multiset(SortedRowSeats(seats, n))[x] == multiset(seats)[x]
  {
    var group := Grouping.Group(seats, RowKeyOf, Row(n));
    Ordering.SortByOrders(group, ColumnRank);
    forall x | x in SortedRowSeats(seats, n) ensures x in seats && RowKeyOf(x) == Row(n) {
      assert x in multiset(SortedRowSeats(seats, n));
      Grouping.GroupCount(seats, RowKeyOf, Row(n), x);
    }
    forall x | RowKeyOf(x) == Row(n) ensures multiset(SortedRowSeats(seats, n))[x] == multiset(seats)[x] {
      Grouping.GroupCount(seats, RowKeyOf, Row(n), x);
    }
  }

  /** Entry `i` of the views of `rows` is row `rows[i]`, and its two blocks together are that row's sorted seats. */
  lemma ViewOfRow(seats: seq<Seat>, rows: seq<int>, i: nat)
    requires i < |rows|
    ensures |ViewsFor(seats, rows)| == |rows|
    ensures ViewsFor(seats, rows)[i].row == rows[i]
    ensures ViewsFor(seats, rows)[i].left + ViewsFor(seats, rows)[i].right == SortedRowSeats(seats, rows[i])
  {
    RowViewSplitsAtAisle(rows[i], SortedRowSeats(seats, rows[i]));
  }

  /** The seat map lists its rows in strictly ascending order. */
  lemma SeatMapRowsAscend(seats: seq<Seat>)
    ensures var m := SeatMapOf(seats);
      forall i, j :: 0 <= i < j < |m| ==> m[i].row < m[j].row
  {
    RowsAscendingAndComplete(seats);
  }

  /** A seat drawn in entry `i` of the seat map is one of the flight's seats and is filed under that entry's row. */
  lemma DrawnSeatInItsRow(seats: seq<Seat>, i: nat, x: Seat)
    requires i < |SeatMapOf(seats)|
    requires x in SeatMapOf(seats)[i].left + SeatMapOf(seats)[i].right
    ensures x in seats && RowKeyOf(x) == Row(SeatMapOf(seats)[i].row)
  {
    var rows := SortedRows(seats);
    ViewOfRow(seats, rows, i);
    RowSeatsAreTheRowsGroup(seats, rows[i]);
  }

  /** Every seat whose label has a row number is drawn in that row, exactly as often as it occurs. */
  lemma SeatMapDrawsEverySeat(seats: seq<Seat>)
    ensures var m := SeatMapOf(seats);
      forall x :: x in seats && RowKeyOf(x).Row? ==>
        exists i :: 0 <= i < |m| && m[i].row == RowKeyOf(x).n && multiset(m[i].left + m[i].right)[x] == multiset(seats)[x]
  {
    var rows := SortedRows(seats);
    var m := SeatMapOf(seats);
    RowsAscendingAndComplete(seats);
    forall x | x in seats && RowKeyOf(x).Row?
      ensures exists i :: 0 <= i < |m| && m[i].row == RowKeyOf(x).n && multiset(m[i].left + m[i].right)[x] == multiset(seats)[x]
    {
      var n := RowKeyOf(x).n;
      assert n in rows;
      var i :| 0 <= i < |rows| && rows[i] == n;
      ViewOfRow(seats, rows, i);
      RowSeatsAreTheRowsGroup(seats, n);
    }
  }

  // ---------------------------------------------------------------------------
  // Seat buttons and the selected-seat summary
  // ---------------------------------------------------------------------------

  /** The colour scheme `getSeatClass` picks for a seat button. */
  datatype Look = Occupied | Picked | FirstLook | BusinessLook | EconomyLook

  /** `getSeatClass(seat)`: occupied first, then the selected seat (by id), then by seat class. */
  function LookOf(seat: Seat, selected: Option<Seat>): Look {
    if !seat.isAvailable then Occupied
    else if selected.Some? && selected.value.id == seat.id then Picked
    else if seat.seatClass == "first" then FirstLook
    else if seat.seatClass == "business" then BusinessLook
    else EconomyLook
  }

  /** What a seat button shows: a check mark on the selected seat, its column letter otherwise. */
  datatype Label = CheckMark | Letter(text: string)

  datatype SeatButton = SeatButton(look: Look, exitRing: bool, disabled: bool, caption: Label, title: string)

  /** One seat button of the map (both sides of the aisle draw the same button). */
  function ButtonOf(seat: Seat, selected: Option<Seat>): SeatButton {
    var picked := selected.Some? && selected.value.id == seat.id;
    SeatButton(
      LookOf(seat, selected),
      seat.isExitRow,
      !seat.isAvailable,
      if picked then CheckMark else Letter(LastChar(seat.seatNumber)),
      seat.seatNumber + " - " + (if seat.isAvailable then "Available" else "Occupied"))
  }

  /**
   * A button is disabled exactly when it looks occupied; a button that looks selected shows the
   * check mark; an enabled button that is not the selected one shows its column letter.
   */
  lemma ButtonAgreesWithLook(seat: Seat, selected: Option<Seat>)
    ensures ButtonOf(seat, selected).disabled <==> LookOf(seat, selected) == Occupied
    ensures LookOf(seat, selected) == Picked ==> ButtonOf(seat, selected).caption == CheckMark
    ensures LookOf(seat, selected) != Picked && !ButtonOf(seat, selected).disabled ==>
      ButtonOf(seat, selected).caption == Letter(LastChar(seat.seatNumber))
  {
  }

  /** Among seats with distinct ids, at most one looks selected. */
  lemma AtMostOnePicked(seats: seq<Seat>, selected: Option<Seat>)
    requires forall i, j :: 0 <= i < j < |seats| ==> seats[i].id != seats[j].id
    ensures forall i, j :: 0 <= i < |seats| && 0 <= j < |seats| && LookOf(seats[i], selected) == Picked && LookOf(seats[j], selected) == Picked ==> i == j
  {
  }

  /** The panel under the map describing the selected seat. */
  datatype Summary = Summary(seatNumber: string, classLabel: string, window: bool, aisle: bool, exitRow: bool, fare: real, premium: bool)

  /** The selected-seat panel: the capitalised class, the seat's features, its fare, and a premium note when the modifier exceeds 1. */
  function SummaryOf(seat: Seat, basePrice: real): (s: Summary)
    ensures s.seatNumber == seat.seatNumber
    ensures s.classLabel == Capitalize(seat.seatClass) + " Class"
    ensures s.window == seat.isWindow && s.aisle == seat.isAisle && s.exitRow == seat.isExitRow
    ensures s.fare == SeatPrice(basePrice, seat)
  {
    Summary(seat.seatNumber, Capitalize(seat.seatClass) + " Class", seat.isWindow, seat.isAisle, seat.isExitRow,
            SeatPrice(basePrice, seat), seat.priceModifier > 1.0)
  }

  /** For a positive base price the premium note appears exactly when the seat costs more than the base fare. */
  lemma PremiumMeansDearer(seat: Seat, basePrice: real)
    requires basePrice > 0.0
    ensures SummaryOf(seat, basePrice).premium <==> SummaryOf(seat, basePrice).fare > basePrice
  {
    if seat.priceModifier > 1.0 {
      assert basePrice * seat.priceModifier > basePrice * 1.0;
    } else {
      assert basePrice * seat.priceModifier <= basePrice * 1.0;
    }
  }

  /** `Continue with Seat {selectedSeat?.seat_number || ''}` */
  function ConfirmLabel(selected: Option<Seat>): (text: string)
    ensures selected.None? ==> text == "Continue with Seat "
    ensures selected.Some? ==> text == "Continue with Seat " + selected.value.seatNumber
  {
    "Continue with Seat " + OrElse(if selected.Some? then Some(selected.value.seatNumber) else None, "")
  }

  // ---------------------------------------------------------------------------
  // The component
  // ---------------------------------------------------------------------------

  /** What the component renders. */
  datatype Screen = Spinner | SeatMap(rows: seq<RowView>, summary: Option<Summary>, confirmEnabled: bool)

  class SeatPicker {
    /** `seats` */
    var seats: seq<Seat>
    /** `selectedSeat` */
    var selected: Option<Seat>
    /** `loading` */
    var loading: bool

    /** The selected seat was available when it was clicked. */
    ghost predicate Valid()
      reads this
    {
      selected.Some? ==> selected.value.isAvailable
    }

    /** The initial state: no seats, nothing selected, loading. */
    constructor ()
      ensures seats == [] && selected == None && loading
      ensures Valid()
    {
      seats := [];
      selected := None;
      loading := true;
    }

    /**
     * `fetchSeats()`: the flight's seat-map rows replace `seats` on an answer; an error answer
     * keeps the old seats; either way loading ends. A rejected call stops before `setLoading(false)`.
     */
    method FetchSeats(seatMaps: map<string, seq<Seat>>, flightId: string, reply: Reply)
      modifies this
      ensures reply == Answered ==> seats == SeatsOf(seatMaps, flightId) && !loading
      ensures reply == ErrorReply ==> seats == old(seats) && !loading
      ensures reply == Rejected ==> seats == old(seats) && loading == old(loading)
      ensures selected == old(selected)
    {
      if reply == Rejected {
        return;
      }
      if reply == Answered {
        seats := SeatsOf(seatMaps, flightId);
      }
      loading := false;
    }

    /** `handleSeatClick(seat)`: an available seat becomes the selection; a click on an occupied seat does nothing. */
    method HandleSeatClick(seat: Seat)
      requires Valid()
      modifies this
      ensures Valid()
      ensures seat.isAvailable ==> selected == Some(seat)
      ensures !seat.isAvailable ==> selected == old(selected)
      ensures seats == old(seats) && loading == old(loading)
    {
      if !seat.isAvailable {
        return;
      }
      selected := Some(seat);
    }

    /** The confirm button is enabled exactly when a seat is selected (`disabled={!selectedSeat}`). */
    function ConfirmEnabled(): (enabled: bool)
      reads this
      ensures enabled <==> selected.Some?
    {
      selected != None
    }

    /** `handleConfirm()`: hands the selected seat to `onSelect`, which only ever receives an available seat. */
    method HandleConfirm() returns (chosen: Option<Seat>)
      requires Valid()
      ensures chosen == selected
      ensures chosen.Some? <==> ConfirmEnabled()
      ensures chosen.Some? ==> chosen.value.isAvailable
    {
      chosen := selected;
    }

    /** The render: a spinner while loading, otherwise the seat map, the summary of the selected seat and the confirm button. */
    function View(basePrice: real): (s: Screen)
      reads this
      ensures loading <==> s == Spinner
      ensures !loading ==> s.rows == SeatMapOf(seats) && s.confirmEnabled == ConfirmEnabled()
      ensures !loading ==> (s.summary.Some? <==> selected.Some?)
      ensures !loading && selected.Some? ==> s.summary == Some(SummaryOf(selected.value, basePrice))
    {
      if loading then Spinner
      else SeatMap(SeatMapOf(seats), if selected.Some? then Some(SummaryOf(selected.value, basePrice)) else None, ConfirmEnabled())
    }
  }
}
