/**
 * The two parsers of `i2cdetect -y 1` output in the sensor registry. The
 * BME280 routine computes each address as row label plus column index; the
 * LTR329 routine reads the hexadecimal cell text itself. `str.split()` drops
 * the blank cells i2cdetect prints for addresses it does not probe (0x00-0x02
 * in row `00:`), so the two disagree on such a row. Both are modelled as written.
 */
module I2cDetect {
  import opened Values
  import opened PyText

  /** Neither `--` (no answer) nor `UU` (busy, claimed by a kernel driver). */
  predicate Occupied(cell: string) {
    cell != "--" && cell != "UU"
  }

  // ---------------------------------------------------------------------------
  // BME280 routine: row label + column index

  /** `row_addr + col` for every occupied cell, the first cell being column `row`'s offset 0. */
  function RowPlusColumn(row: int, cells: seq<string>): seq<int>
    decreases |cells|
  {
    if cells == [] then []
    else (if Occupied(cells[0]) then [row] else []) + RowPlusColumn(row + 1, cells[1..])
  }

  /** Python's `s[:-1]`. */
  function DropLast(s: string): (r: string)
    ensures s != [] ==> r + [s[|s| - 1]] == s
    ensures s == [] ==> r == []
  {
    if s == [] then [] else s[..|s| - 1]
  }

  /** One line, already split: lines with fewer than two tokens are ignored; a bad label raises. */
  function BmeRow(parts: seq<string>): Result<seq<int>>
  {
    if |parts| < 2 then Ok([])
    else
      match ParseHex(DropLast(parts[0]))
      case None => Err("invalid literal for int() with base 16")
      case Some(row) => Ok(RowPlusColumn(row, parts[1..]))
  }

  function BmeLine(line: string): Result<seq<int>>
  {
    BmeRow(Split(line))
  }

  /** The lines after the header, in order; the first line whose label does not parse aborts. */
  function BmeLines(lines: seq<string>): Result<seq<int>>
  {
    if lines == [] then Ok([])
    else
      match BmeLine(lines[0])
      case Err(m) => Err(m)
      case Ok(here) => Prepend(here, BmeLines(lines[1..]))
  }

  /** What the BME280 routine's parsing loop computes from i2cdetect's standard output. */
  function BmeAddresses(stdout: string): Result<seq<int>>
  {
    BmeLines(SplitOn(stdout, '\n')[1..])
  }

  // ---------------------------------------------------------------------------
  // LTR329 routine: int(cell, 16)

  /** `int(cell, 16)` for every occupied cell that parses; the others are skipped. */
  function HexCells(cells: seq<string>): seq<int>
  {
    if cells == [] then []
    else
      var c := cells[0];
      (if Occupied(c) && ParseHex(c).Some? then [ParseHex(c).value] else []) + HexCells(cells[1..])
  }

  function LtrRow(parts: seq<string>): seq<int>
  {
    if |parts| > 1 then HexCells(parts[1..]) else []
  }

  function LtrLines(lines: seq<string>): seq<int>
  {
    if lines == [] then []
    else LtrRow(Split(lines[0])) + LtrLines(lines[1..])
  }

  /** What the LTR329 routine's parsing loop computes from i2cdetect's standard output. */
  function LtrAddresses(stdout: string): seq<int>
  {
    LtrLines(SplitOn(Strip(stdout), '\n')[1..])
  }

  // ---------------------------------------------------------------------------
  // The parsing loops

  /** The BME280 routine's inner loop: `enumerate(parts[1:], 0)`. */
  method ScanRowByColumn(row: int, cells: seq<string>) returns (found: seq<int>)
    ensures found == RowPlusColumn(row, cells)
  {
    found := [];
    var col := 0;
    assert cells[0..] == cells;
    while col < |cells|
      invariant 0 <= col <= |cells|
      invariant RowPlusColumn(row, cells) == found + RowPlusColumn(row + col, cells[col..])
    {
      RowPlusColumnStep(row, cells, col);
      var here: seq<int> := [];
      if cells[col] != "--" && cells[col] != "UU" {
        here := [row + col];
      }
      Assoc(found, here, RowPlusColumn(row + col + 1, cells[col + 1..]));
      found := found + here;
      col := col + 1;
    }
    assert found + [] == found;
  }

  /** The LTR329 routine's inner loop, with its `except ValueError: pass`. */
  method ScanRowByText(cells: seq<string>) returns (found: seq<int>)
    ensures found == HexCells(cells)
  {
    found := [];
    var j := 0;
    assert cells[0..] == cells;
    while j < |cells|
      invariant 0 <= j <= |cells|
      invariant HexCells(cells) == found + HexCells(cells[j..])
    {
      HexCellsStep(cells, j);
      var cell := cells[j];
      var here: seq<int> := [];
      if cell != "--" && cell != "UU" {
        var v := ParseHex(cell);
        if v.Some? {
          here := [v.value];
        }
      }
      Assoc(found, here, HexCells(cells[j + 1..]));
      found := found + here;
      j := j + 1;
    }
    assert found + [] == found;
  }

  lemma RowPlusColumnStep(row: int, cells: seq<string>, col: nat)
    requires col < |cells|
    ensures RowPlusColumn(row + col, cells[col..]) ==
            (if Occupied(cells[col]) then [row + col] else []) + RowPlusColumn(row + col + 1, cells[col + 1..])
  {
    assert cells[col..][1..] == cells[col + 1..];
  }

  lemma HexCellsStep(cells: seq<string>, j: nat)
    requires j < |cells|
    ensures HexCells(cells[j..]) ==
            (if Occupied(cells[j]) && ParseHex(cells[j]).Some? then [ParseHex(cells[j]).value] else []) + HexCells(cells[j + 1..])
  {
    assert cells[j..][1..] == cells[j + 1..];
  }

  lemma LtrLinesStep(lines: seq<string>, i: nat)
    requires i < |lines|
    ensures LtrLines(lines[i..]) == LtrRow(Split(lines[i])) + LtrLines(lines[i + 1..])
  {
    assert lines[i..][1..] == lines[i + 1..];
  }

  /** One line of the BME280 routine's loop. */
  method ScanBmeLine(line: string) returns (r: Result<seq<int>>)
    ensures r == BmeLine(line)
  {
    var parts := Split(line);
    if |parts| < 2 {
      return Ok([]);
    }
    var rowLabel := ParseHex(DropLast(parts[0]));
    if rowLabel.None? {
      return Err("invalid literal for int() with base 16");
    }
    var found := ScanRowByColumn(rowLabel.value, parts[1..]);
    r := Ok(found);
  }

  /** One step of the BME280 line loop, stated over the remaining lines. */
  lemma BmeLinesStep(lines: seq<string>, i: nat, here: Result<seq<int>>)
    requires i < |lines| && here == BmeLine(lines[i])
    ensures here.Err? ==> BmeLines(lines[i..]) == here
    ensures here.Ok? ==> BmeLines(lines[i..]) == Prepend(here.value, BmeLines(lines[i + 1..]))
  {
    assert lines[i..][1..] == lines[i + 1..];
  }

  /** The BME280 routine's loop over the lines of the grid. */
  method ParseBmeGrid(stdout: string) returns (r: Result<seq<int>>)
    ensures r == BmeAddresses(stdout)
  {
    var lines := SplitOn(stdout, '\n')[1..];
    var detected: seq<int> := [];
    var i := 0;
    assert lines[0..] == lines;
    PrependNothing(BmeLines(lines));
    while i < |lines|
      invariant 0 <= i <= |lines|
      invariant BmeLines(lines) == Prepend(detected, BmeLines(lines[i..]))
    {
      var here := ScanBmeLine(lines[i]);
      BmeLinesStep(lines, i, here);
      if here.Err? {
        return here;
      }
      PrependPrepend(detected, here.value, BmeLines(lines[i + 1..]));
      detected := detected + here.value;
      i := i + 1;
    }
    assert lines[i..] == [];
    assert detected + [] == detected;
    r := Ok(detected);
  }

  /** The LTR329 routine's loop over the lines of the grid. */
  method ParseLtrGrid(stdout: string) returns (detected: seq<int>)
    ensures detected == LtrAddresses(stdout)
  {
    var lines := SplitOn(Strip(stdout), '\n')[1..];
    detected := ScanLtrLines(lines);
  }

  /** `for line in lines[1:]`, each row's cells after the label read as hex. */
  method ScanLtrLines(lines: seq<string>) returns (detected: seq<int>)
    ensures detected == LtrLines(lines)
  {
    detected := [];
    var i := 0;
    assert lines[0..] == lines;
    while i < |lines|
      invariant 0 <= i <= |lines|
      invariant LtrLines(lines) == detected + LtrLines(lines[i..])
    {
      LtrLinesStep(lines, i);
      var parts := Split(lines[i]);
      var found := [];
      if |parts| > 1 {
        found := ScanRowByText(parts[1..]);
      }
      assert found == LtrRow(parts);
      Assoc(detected, found, LtrLines(lines[i + 1..]));
      detected := detected + found;
      i := i + 1;
    }
    assert detected + [] == detected;
  }

  // ---------------------------------------------------------------------------
  // Properties

  /** The BME280 routine reports `row + col` exactly for the occupied columns. */
  lemma {:induction false} RowPlusColumnMembers(row: int, cells: seq<string>, x: int)
    ensures x in RowPlusColumn(row, cells) <==>
            exists col :: 0 <= col < |cells| && Occupied(cells[col]) && x == row + col
    decreases |cells|
  {
    if cells != [] {
      var rest := cells[1..];
      RowPlusColumnMembers(row + 1, rest, x);
      if exists col :: 0 <= col < |cells| && Occupied(cells[col]) && x == row + col {
        var col :| 0 <= col < |cells| && Occupied(cells[col]) && x == row + col;
        if col > 0 {
          assert rest[col - 1] == cells[col];
        }
      }
      if exists col :: 0 <= col < |rest| && Occupied(rest[col]) && x == row + 1 + col {
        var col :| 0 <= col < |rest| && Occupied(rest[col]) && x == row + 1 + col;
        assert cells[col + 1] == rest[col];
      }
    }
  }

  /** The LTR329 routine reports exactly the values of the occupied cells that parse as hex. */
  lemma {:induction false} HexCellsMembers(cells: seq<string>, x: int)
    ensures x in HexCells(cells) <==>
            exists i :: 0 <= i < |cells| && Occupied(cells[i]) && ParseHex(cells[i]) == Some(x)
  {
    if cells != [] {
      var rest := cells[1..];
      HexCellsMembers(rest, x);
      if exists i :: 0 <= i < |cells| && Occupied(cells[i]) && ParseHex(cells[i]) == Some(x) {
        var i :| 0 <= i < |cells| && Occupied(cells[i]) && ParseHex(cells[i]) == Some(x);
        if i > 0 {
          assert rest[i - 1] == cells[i];
        }
      }
      if exists i :: 0 <= i < |rest| && Occupied(rest[i]) && ParseHex(rest[i]) == Some(x) {
        var i :| 0 <= i < |rest| && Occupied(rest[i]) && ParseHex(rest[i]) == Some(x);
        assert cells[i + 1] == rest[i];
      }
    }
  }

  /** A row made only of `--` and `UU` yields nothing under either parser. */
  lemma {:induction false} PlaceholderRowsYieldNothing(row: int, cells: seq<string>)
    requires forall i :: 0 <= i < |cells| ==> !Occupied(cells[i])
    ensures RowPlusColumn(row, cells) == [] && HexCells(cells) == []
    decreases |cells|
  {
    if cells != [] {
      PlaceholderRowsYieldNothing(row + 1, cells[1..]);
    }
  }

  /** `n` leading placeholders shift the BME280 column count and add nothing to either parser. */
  lemma {:induction false} Placeholders(row: int, cells: seq<string>, n: nat)
    requires n <= |cells|
    requires forall i :: 0 <= i < n ==> !Occupied(cells[i])
    ensures RowPlusColumn(row, cells) == RowPlusColumn(row + n, cells[n..])
    ensures HexCells(cells) == HexCells(cells[n..])
    decreases |cells|
  {
    if n > 0 {
      var rest := cells[1..];
      assert rest[n - 1..] == cells[n..];
      Placeholders(row + 1, rest, n - 1);
    }
  }

  /**
   * On a row whose label is the row's address and whose cells each show their
   * own address (or a placeholder), both parsers report the same addresses.
   */
  lemma {:induction false} ParsersAgreeOnAlignedRow(row: nat, cells: seq<string>)
    requires forall i :: 0 <= i < |cells| ==> !Occupied(cells[i]) || cells[i] == Hex2(row + i)
    ensures RowPlusColumn(row, cells) == HexCells(cells)
    decreases |cells|
  {
    if cells != [] {
      var rest := cells[1..];
      assert forall i :: 0 <= i < |rest| ==> rest[i] == cells[i + 1];
      ParsersAgreeOnAlignedRow(row + 1, rest);
      if Occupied(cells[0]) {
        Hex2RoundTrip(row);
      }
    }
  }

  /**
   * i2cdetect leaves 0x00-0x02 blank in row `00:`, so `split()` shifts the row:
   * a device at 0x08 is reported as 0x05 by the BME280 parser and as 0x08 by
   * the LTR329 parser.
   */
  lemma FirstRowShifts()
    ensures BmeRow(["00:", "--", "--", "--", "--", "--", "08"]) == Ok([5])
    ensures LtrRow(["00:", "--", "--", "--", "--", "--", "08"]) == [8]
  {
    var parts := ["00:", "--", "--", "--", "--", "--", "08"];
    assert DropLast(parts[0]) == "00";
    assert Grouped("00");
    assert HexValue("00") == 0 by {
      assert "00"[..1] == "0";
      assert "0"[..0] == "";
    }
    assert ParseMagnitude("00") == Some(0);
    assert ParseHex("00") == Some(0);
    var cells := parts[1..];
    assert Grouped("08") && HexValue("08") == 8 by {
      assert "08"[..1] == "0";
      assert "0"[..0] == "";
    }
    assert ParseMagnitude("08") == Some(8);
    assert ParseHex("08") == Some(8);
    var tail := cells[5..];
    assert tail == ["08"];
    assert RowPlusColumn(5, tail) == [5] && HexCells(tail) == [8];
    assert cells == ["--", "--", "--", "--", "--"] + tail;
    Placeholders(0, cells, 5);
  }

  /** The header line never contributes: any first line gives the BME280 parser the same result. */
  lemma HeaderIgnoredByBme(h1: string, h2: string, rest: string)
    requires '\n' !in h1 && '\n' !in h2
    ensures BmeAddresses(h1 + "\n" + rest) == BmeAddresses(h2 + "\n" + rest)
  {
    SplitOnHead(h1, rest, '\n');
    SplitOnHead(h2, rest, '\n');
    assert h1 + "\n" + rest == h1 + ['\n'] + rest;
    assert h2 + "\n" + rest == h2 + ['\n'] + rest;
  }

  /** The header line never contributes to the LTR329 parser's result either (text already stripped). */
  lemma HeaderIgnoredByLtr(h1: string, h2: string, rest: string)
    requires '\n' !in h1 && '\n' !in h2
    requires Strip(h1 + "\n" + rest) == h1 + "\n" + rest
    requires Strip(h2 + "\n" + rest) == h2 + "\n" + rest
    ensures LtrAddresses(h1 + "\n" + rest) == LtrAddresses(h2 + "\n" + rest)
  {
    SplitOnHead(h1, rest, '\n');
    SplitOnHead(h2, rest, '\n');
    assert h1 + "\n" + rest == h1 + ['\n'] + rest;
    assert h2 + "\n" + rest == h2 + ['\n'] + rest;
  }

  /** A single line of output (only the header) yields no addresses. */
  lemma HeaderOnly(stdout: string)
    requires '\n' !in stdout
    ensures BmeAddresses(stdout) == Ok([])
  {
  }
}
