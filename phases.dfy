/** The phase cursor `step_index`, the sequence of phase writes the stepping
    loop produces from an 8-entry phase table, and the literal phase tables of
    the driver. */
module Phases {
  import opened Mcp23s17

  /** FocusDirection of the focuser framework. */
  datatype Direction = Inward | Outward

  /** Number of entries of the phase table (`sizeof(step_states)/sizeof(int)`). */
  const TableSize := 8

  /** The index the loop reads at for cursor `c`: the cursor is reset to 0 only
      when it has reached the table size, just before the read. */
  function ReadIndex(c: int): (k: int)
    requires 0 <= c <= TableSize
    ensures 0 <= k < TableSize
  {
    if c == TableSize then 0 else c
  }

  /** The cursor after `n` reads starting from cursor `c`: each read resets a
      cursor at the table size to 0 and then increments it. */
  function Cursor(c: int, n: nat): (r: int)
    requires 0 <= c <= TableSize
    ensures 0 <= r <= TableSize
  {
    if n == 0 then c else ReadIndex(Cursor(c, n - 1)) + 1
  }

  /** The phase writes of `n` loop iterations on port A (`portA`) or B,
      reading `table` from cursor `c` on. */
  function PhaseWrites(table: seq<int>, portA: bool, c: int, n: nat): (w: seq<Write>)
    requires |table| == TableSize && 0 <= c <= TableSize
    ensures |w| == n
  {
    if n == 0 then []
    else
      var k := ReadIndex(Cursor(c, n - 1));
      PhaseWrites(table, portA, c, n - 1) + [Write(Gpio(portA), PhasePayload(portA, table[k]))]
  }

  /** After n >= 1 reads the cursor rests in 1..8 (never 0, and 8 when the last
      read was at index 7), and the next read is at (c + n) mod 8: the reads go
      round the table cyclically from wherever the cursor started. */
  lemma {:induction false} CursorClosedForm(c: int, n: nat)
    requires 0 <= c <= TableSize
    ensures n > 0 ==> Cursor(c, n) == (c + n - 1) % TableSize + 1
    ensures ReadIndex(Cursor(c, n)) == (c + n) % TableSize
  {
    if n > 0 {
      CursorClosedForm(c, n - 1);
    }
  }

  /** Reading n1 and then n2 more phases continues from where the first run
      stopped: nothing resets the cursor between runs. */
  lemma {:induction false} CursorCompose(c: int, n1: nat, n2: nat)
    requires 0 <= c <= TableSize
    ensures Cursor(Cursor(c, n1), n2) == Cursor(c, n1 + n2)
  {
    if n2 > 0 {
      CursorCompose(c, n1, n2 - 1);
    }
  }

  /** The writes of n loop iterations: exactly n of them, all to the selected
      GPIO register, the j-th carrying the payload of table entry (c + j) mod 8;
      every payload fits in a byte, with the low nibble clear on port A and the
      high nibble clear on port B. */
  lemma {:induction false} PhaseWritesAt(table: seq<int>, portA: bool, c: int, n: nat)
    requires |table| == TableSize && 0 <= c <= TableSize
    ensures |PhaseWrites(table, portA, c, n)| == n
    ensures forall j :: 0 <= j < n ==>
      PhaseWrites(table, portA, c, n)[j] == Write(Gpio(portA), PhasePayload(portA, table[(c + j) % TableSize]))
    ensures forall j :: 0 <= j < n ==>
      var v := PhaseWrites(table, portA, c, n)[j].value;
      0 <= v < 256 && (if portA then v % 16 == 0 else v / 16 == 0)
  {
    if n > 0 {
      PhaseWritesAt(table, portA, c, n - 1);
      CursorClosedForm(c, n - 1);
      var w := PhaseWrites(table, portA, c, n);
      forall j | 0 <= j < n
        ensures w[j] == Write(Gpio(portA), PhasePayload(portA, table[(c + j) % TableSize]))
      {
        if j < n - 1 {
          assert w[j] == PhaseWrites(table, portA, c, n - 1)[j];
        }
      }
    }
  }

  /** The writes of two successive runs of n1 and n2 iterations equal those of
      one run of n1 + n2 iterations: phase order is continuous across calls. */
  lemma {:induction false} PhaseWritesCompose(table: seq<int>, portA: bool, c: int, n1: nat, n2: nat)
    requires |table| == TableSize && 0 <= c <= TableSize
    ensures PhaseWrites(table, portA, c, n1) + PhaseWrites(table, portA, Cursor(c, n1), n2)
         == PhaseWrites(table, portA, c, n1 + n2)
  {
    if n2 > 0 {
      PhaseWritesCompose(table, portA, c, n1, n2 - 1);
      CursorCompose(c, n1, n2 - 1);
    }
  }

  // The driver's literal phase tables. In the driver they are declared in
  // blocks of their own, shadow the array the loop reads, and are never read.

  /** The table commented "clockwise out". */
  const ClockwiseOut: seq<int> := [0xa, 0x2, 0x6, 0x4, 0x5, 0x1, 0x9, 0x8]

  /** The table commented "clockwise in". */
  const ClockwiseIn: seq<int> := [0x8, 0x9, 0x1, 0x5, 0x4, 0x6, 0x2, 0xa]

  /** The table each (direction, reversed-polarity) branch declares. */
  function SelectTable(direction: Direction, reversed: bool): (t: seq<int>)
    ensures |t| == TableSize
    ensures forall k :: 0 <= k < |t| ==> 0 <= t[k] < 16
  {
    if direction == Outward then
      (if reversed then ClockwiseOut else ClockwiseIn)
    else
      (if reversed then ClockwiseIn else ClockwiseOut)
  }

  function Opposite(d: Direction): Direction {
    if d == Inward then Outward else Inward
  }

  /** The four branches hold only two tables: outward with reversed polarity
      uses the same table as inward with normal polarity, and outward normal
      the same as inward reversed; reversing either the direction or the
      polarity switches table. */
  lemma SelectTableSymmetry(direction: Direction, reversed: bool)
    ensures SelectTable(Outward, true) == SelectTable(Inward, false)
    ensures SelectTable(Outward, false) == SelectTable(Inward, true)
    ensures SelectTable(Opposite(direction), !reversed) == SelectTable(direction, reversed)
    ensures SelectTable(Opposite(direction), reversed) != SelectTable(direction, reversed)
  {
    assert ClockwiseOut[0] != ClockwiseIn[0];
  }

  /** The two tables are one sequence read forwards and backwards. */
  lemma TablesReversed(k: int)
    requires 0 <= k < TableSize
    ensures ClockwiseIn[k] == ClockwiseOut[TableSize - 1 - k]
  {
  }

  /** Two 4-bit codes that differ in exactly one coil. */
  predicate OneCoilApart(a: int, b: int)
    requires 0 <= a < 16 && 0 <= b < 16
  {
    var x := (a as bv8) ^ (b as bv8);
    x == 1 || x == 2 || x == 4 || x == 8
  }

  /** Each table is a half-step sequence: going round it cyclically, every
      code switches exactly one coil relative to the one before. */
  lemma HalfStepTables(reversed: bool, direction: Direction, k: int)
    requires 0 <= k < TableSize
    ensures OneCoilApart(SelectTable(direction, reversed)[k], SelectTable(direction, reversed)[(k + 1) % TableSize])
  {
    var t := SelectTable(direction, reversed);
    var a, b := t[k], t[(k + 1) % TableSize];
    if t == ClockwiseOut {
      assert (k, a, b) in {(0, 0xa, 0x2), (1, 0x2, 0x6), (2, 0x6, 0x4), (3, 0x4, 0x5),
                           (4, 0x5, 0x1), (5, 0x1, 0x9), (6, 0x9, 0x8), (7, 0x8, 0xa)};
    } else {
      assert (k, a, b) in {(0, 0x8, 0x9), (1, 0x9, 0x1), (2, 0x1, 0x5), (3, 0x5, 0x4),
                           (4, 0x4, 0x6), (5, 0x6, 0x2), (6, 0x2, 0xa), (7, 0xa, 0x8)};
    }
  }
}
