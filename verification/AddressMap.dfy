/** Which row, bank and column a host address names, and what of it reaches the address pins. */
module AddressMap {
  import opened ProtocolEngine

  const ROWS := 0x2000
  const COLUMNS := 0x400

  /** Row, high column bits, bank and low column bits, from the top of the address down. */
  function AddressOf(row: int, bank: int, col: int): (a: Address)
    requires 0 <= row < ROWS && 0 <= bank < 4 && 0 <= col < COLUMNS
  {
    row * 0x1000 + col / 8 * 32 + bank * 8 + col % 8
  }

  /** Every address names one place, and the place names the address: no two addresses share one. */
  lemma AddressSplits(a: Address)
    ensures 0 <= RowOf(a) < ROWS && 0 <= ColOf(a) < COLUMNS
    ensures a == RowOf(a) * 0x1000 + ColOf(a) / 8 * 32 + BankOf(a) * 8 + ColOf(a) % 8
    ensures AddressOf(RowOf(a), BankOf(a), ColOf(a)) == a
  {
    ColumnSplits(a);
    Digits(a);
    RowInRange(a);
  }

  lemma RowInRange(a: Address)
    ensures 0 <= RowOf(a) < ROWS
  {
  }

  lemma ColumnSplits(a: Address)
    ensures ColOf(a) / 8 == a / 32 % 128 && ColOf(a) % 8 == a % 8
  {
  }

  lemma Digits(a: nat)
    ensures a == a / 0x1000 * 0x1000 + a / 32 % 128 * 32 + a / 8 % 4 * 8 + a % 8
  {
    assert a / 8 / 4 == a / 32;
    assert a / 32 / 128 == a / 0x1000;
    assert a / 8 == a / 32 * 4 + a / 8 % 4;
    assert a / 32 == a / 0x1000 * 128 + a / 32 % 128;
  }

  /** Every place has an address. */
  lemma PlacesHaveAddresses(row: int, bank: int, col: int)
    requires 0 <= row < ROWS && 0 <= bank < 4 && 0 <= col < COLUMNS
    ensures var a := AddressOf(row, bank, col); RowOf(a) == row && BankOf(a) == bank && ColOf(a) == col
  {
    PartsOf(row, col / 8, bank, col % 8);
  }

  lemma PartsOf(row: nat, high: nat, bank: nat, low: nat)
    requires high < 128 && bank < 4 && low < 8
    ensures var a := row * 0x1000 + high * 32 + bank * 8 + low;
      a / 0x1000 == row && a / 8 % 4 == bank && a / 32 % 128 == high && a % 8 == low
  {
    var a := row * 0x1000 + high * 32 + bank * 8 + low;
    assert a / 8 == row * 512 + high * 4 + bank;
    assert a / 32 == row * 128 + high;
  }

  /**
   * The device takes the column from A[9:1]: sub-burst j of a block starts eight columns further on, modulo 512.
   * A[0] is the precharge flag and A10 stays low.
   */
  lemma ColumnsOnPins(col: int, j: int, flag: bool)
    requires 0 <= col < COLUMNS && 0 <= j < 4
    ensures var p := ColumnPins(BlockColumn(col, j), flag);
      && 0 <= p < 0x400 && p / 2 % 512 == (col + 8 * j) % 512 && p % 2 == (if flag then 1 else 0)
    ensures var p := ColumnPins(col, flag);
      && 0 <= p < 0x400 && p / 2 % 512 == col % 512 && p % 2 == (if flag then 1 else 0)
  {
    Wraps(col, 8 * j);
    OnPins(BlockColumn(col, j), flag);
    OnPins(col, flag);
  }

  lemma OnPins(col: nat, flag: bool)
    ensures var p := ColumnPins(col, flag);
      && 0 <= p < 0x400 && p / 2 % 512 == col % 512 && p % 2 == (if flag then 1 else 0)
  {
    assert ColumnPins(col, flag) / 2 == col % 512;
  }

  lemma Wraps(col: nat, k: nat)
    ensures (col % 512 + k) % 512 % 512 == (col + k) % 512
  {
    var x := col % 512 + k;
    Remainder(x % 512, 0, x % 512);
    Remainder(col + k, col / 512 + x / 512, x % 512);
  }

  lemma Remainder(v: nat, q: int, r: nat)
    requires v == q * 512 + r && r < 512
    ensures v % 512 == r
  {
  }
}
