/** The pure parts of the interactive debugger shell (debugger/main.go):
    the argument checks of the `sv` and `st` commands, the word pairing of
    the `iv` command, and the column layout of `buildHorizontalTable`.

    The shell talks to the emulator only through callbacks; a command that
    passes its checks is modelled as the `SetterCall` it makes, and the
    emulator side applies it (see the Emulator module).
 */
module Debugger {
  import opened Results
  import opened Cpu

  // ---------------------------------------------------------------------
  // sv and st

  /** A call the shell makes into the emulator. */
  datatype SetterCall =
    | SetRegisterCall(index: bv8, value: bv8)
    | SetTimerCall(isDelayTimer: bool, value: bv8)

  /** What a setter command does with its two parsed arguments. */
  datatype Reply =
    | Invoke(call: SetterCall)  // the callback is invoked
    | LocationUnparsable        // first argument is not a hex byte
    | LocationOutOfRange        // first argument is out of range
    | ValueUnparsable           // second argument is not a hex byte

  /** `sv <register> <value>`. Each argument is the result of
      `strconv.ParseUint(_, 16, 8)`: `None` when parsing failed. */
  function SetRegisterCommand(location: Option<bv8>, value: Option<bv8>): (r: Reply)
    ensures r.Invoke? <==> location.Some? && location.value <= 0xF && value.Some?
    ensures r.Invoke? ==> r.call == SetRegisterCall(location.value, value.value)
    ensures location.Some? && location.value > 0xF ==> r == LocationOutOfRange
  {
    if location.None? then LocationUnparsable
    else if location.value > 0xF then LocationOutOfRange
    else if value.None? then ValueUnparsable
    else Invoke(SetRegisterCall(location.value, value.value))
  }

  /** `st <timer> <value>`: timer 0 is the delay timer, 1 the sound timer. */
  function SetTimerCommand(location: Option<bv8>, value: Option<bv8>): (r: Reply)
    ensures r.Invoke? <==> location.Some? && location.value <= 1 && value.Some?
    ensures r.Invoke? ==> r.call.SetTimerCall? && r.call.value == value.value
    ensures r.Invoke? ==> (r.call.isDelayTimer <==> location.value == 0)
    ensures location.Some? && location.value > 1 ==> r == LocationOutOfRange
  {
    if location.None? then LocationUnparsable
    else if location.value > 0x1 then LocationOutOfRange
    else if value.None? then ValueUnparsable
    else Invoke(SetTimerCall(location.value == 0, value.value))
  }

  // ---------------------------------------------------------------------
  // iv

  /** One entry of the instruction view: a word, or the word at pc, which
      the shell prints in brackets. */
  datatype ViewCell = Word(word: bv16) | Current(word: bv16)

  /** The index, within the memory view, of the byte that starts the
      instruction at pc (the view starts 120 bytes before pc). */
  const CurrentOffset: int := 120

  /** The loop of the `iv` command: bytes are paired, each odd position
      emitting `prev<<8 | v` with `prev` the byte before it, and the pair
      ending at position 121 is the current instruction. */
  method InstructionView(view: seq<bv8>) returns (cells: seq<ViewCell>)
    ensures |cells| == |view| / 2
    ensures forall j :: 0 <= j < |cells| ==> cells[j].word == Join(view[2 * j], view[2 * j + 1])
    ensures forall j :: 0 <= j < |cells| ==> (cells[j].Current? <==> 2 * j == CurrentOffset)
  {
    cells := [];
    var prev: bv8 := 0;
    for i := 0 to |view|
      invariant |cells| == i / 2
      invariant i % 2 == 1 ==> prev == view[i - 1]
      invariant forall j :: 0 <= j < |cells| ==> cells[j].word == Join(view[2 * j], view[2 * j + 1])
      invariant forall j :: 0 <= j < |cells| ==> (cells[j].Current? <==> 2 * j == CurrentOffset)
    {
      if i == 121 {
        cells := cells + [Current(Join(prev, view[i]))];
      } else if i % 2 == 0 {
        prev := view[i];
      } else {
        cells := cells + [Word(Join(prev, view[i]))];
      }
    }
  }

  // ---------------------------------------------------------------------
  // buildHorizontalTable

  /** `n` spaces. */
  function Spaces(n: nat): (r: string)
    ensures |r| == n && forall i :: 0 <= i < n ==> r[i] == ' '
  {
    seq(n, _ => ' ')
  }

  /** The longest cell of a row, as the inner loop computes `maxLength`. */
  function MaxLength(row: seq<string>): (m: nat)
    ensures forall i :: 0 <= i < |row| ==> |row[i]| <= m
    ensures |row| == 0 ==> m == 0
    ensures |row| > 0 ==> exists i :: 0 <= i < |row| && |row[i]| == m
  {
    if |row| == 0 then 0
    else
      var m := MaxLength(row[..|row| - 1]);
      var last := row[|row| - 1];
      if |last| > m then |last| else m
  }

  /** The cells concatenated in order. */
  function Concat(cells: seq<string>): string {
    if |cells| == 0 then "" else Concat(cells[..|cells| - 1]) + cells[|cells| - 1]
  }

  lemma ConcatSingle(cell: string)
    ensures Concat([cell]) == cell
  {
    assert [cell][..0] == [];
  }

  /** The row's header text: its first cell. */
  function Head(row: seq<string>): string {
    if |row| == 0 then "" else row[0]
  }

  /** The row's content text: all the other cells, concatenated. */
  function Body(row: seq<string>): string {
    if |row| == 0 then "" else Concat(row[1..])
  }

  /** Right-padding with spaces to `width`, as the padding loops are meant
      to pad: a shorter text is extended to exactly `width`, a longer one
      is left as it is. */
  function Pad(s: string, width: int): (r: string)
    ensures |r| == if |s| < width then width else |s|
    ensures r[..|s|] == s
    ensures forall i :: |s| <= i < |r| ==> r[i] == ' '
  {
    if |s| < width then s + Spaces(width - |s|) else s
  }

  /** The padding loop as written: `for i := 0; i < maxLength-len(head);
      i++ { head += " " }`. The bound is re-evaluated after every append,
      while `head` grows. */
  function PadLoop(s: string, width: int, i: int): string
    decreases width - |s| - i
  {
    if i < width - |s| then PadLoop(s + " ", width, i + 1) else s
  }

  /** The padding statement as written, with its `len(head) < maxLength`
      guard. */
  function PadAsWritten(s: string, width: int): string {
    if |s| < width then PadLoop(s, width, 0) else s
  }

  /** The loop runs until `i` meets the shrinking bound, so it appends only
      half the missing spaces, rounded up. */
  lemma {:induction false} PadLoopAppendsHalf(s: string, width: int, i: int)
    requires 0 <= i
    ensures PadLoop(s, width, i)
         == s + Spaces(if i < width - |s| then (width - |s| - i + 1) / 2 else 0)
    decreases width - |s| - i
  {
    if i < width - |s| {
      PadLoopAppendsHalf(s + " ", width, i + 1);
      assert s + " " + Spaces((width - |s| - i - 1) / 2) == s + Spaces((width - |s| - i + 1) / 2);
    }
  }

  /** The as-written padding leaves a text that is `d` characters short
      still `d / 2` (rounded down) characters short. */
  lemma PadAsWrittenFallsShort(s: string, width: int)
    ensures PadAsWritten(s, width)
         == s + Spaces(if |s| < width then (width - |s| + 1) / 2 else 0)
    ensures |s| + 1 < width ==> |PadAsWritten(s, width)| < |Pad(s, width)|
  {
    PadLoopAppendsHalf(s, width, 0);
  }

  type Table = (string, string)

  /** `buildHorizontalTable` with the padding as a parameter: for each
      row, in order, a header segment and a content segment, each padded
      to the row's longest cell and ended by a tab. */
  function BuildTableWith(data: seq<seq<string>>, pad: (string, int) -> string): (t: Table)
    ensures |data| == 0 ==> t == ("", "")
  {
    if |data| == 0 then ("", "")
    else
      var (header, content) := BuildTableWith(data[..|data| - 1], pad);
      var row := data[|data| - 1];
      var width := MaxLength(row);
      (header + pad(Head(row), width) + "\t", content + pad(Body(row), width) + "\t")
  }

  /** The table as the shell builds it. */
  function BuildHorizontalTableAsWritten(data: seq<seq<string>>): Table {
    BuildTableWith(data, PadAsWritten)
  }

  /** The table with the padding its authors intended. */
  function BuildHorizontalTable(data: seq<seq<string>>): Table {
    BuildTableWith(data, Pad)
  }

  /** A row's header segment is its first cell padded to exactly the row's
      width; its content segment is the remaining cells, padded to that
      width when shorter and left whole when longer. Both keep their text
      as a prefix. */
  lemma SegmentWidths(row: seq<string>)
    ensures |Pad(Head(row), MaxLength(row))| == MaxLength(row)
    ensures |Pad(Body(row), MaxLength(row))|
         == if |Body(row)| < MaxLength(row) then MaxLength(row) else |Body(row)|
    ensures Pad(Head(row), MaxLength(row))[..|Head(row)|] == Head(row)
    ensures Pad(Body(row), MaxLength(row))[..|Body(row)|] == Body(row)
  {
    if |row| > 0 {
      assert |Head(row)| <= MaxLength(row);
    }
  }

  /** For rows of two cells, the `register` and `timer` tables, the header
      line and the content line have the same length: columns line up. */
  lemma {:induction false} TwoCellTablesAlign(data: seq<seq<string>>)
    requires forall i :: 0 <= i < |data| ==> |data[i]| == 2
    ensures |BuildHorizontalTable(data).0| == |BuildHorizontalTable(data).1|
  {
    if |data| > 0 {
      var row := data[|data| - 1];
      TwoCellTablesAlign(data[..|data| - 1]);
      assert Body(row) == row[1] by {
        assert row[1..] == [row[1]];
        ConcatSingle(row[1]);
      }
      SegmentWidths(row);
    }
  }

  /** Each row adds one tab-ended segment, in row order, to both lines:
      the header line of a table is the header line of its first rows
      followed by the last row's segment. This holds whatever the padding,
      so for the table as the shell builds it as well as for the intended
      one. */
  lemma {:induction false} TableGrowsByRows(data: seq<seq<string>>, row: seq<string>,
                                            pad: (string, int) -> string)
    ensures BuildTableWith(data + [row], pad).0
         == BuildTableWith(data, pad).0 + pad(Head(row), MaxLength(row)) + "\t"
    ensures BuildTableWith(data + [row], pad).1
         == BuildTableWith(data, pad).1 + pad(Body(row), MaxLength(row)) + "\t"
  {
    assert (data + [row])[..|data|] == data;
  }

  /** The shell's own two-cell row `v0 | 0xff` comes out misaligned: the
      header segment is one space short. */
  lemma AsWrittenTableMisaligns()
    ensures BuildHorizontalTableAsWritten([["v0", "0xff"]]) == ("v0 \t", "0xff\t")
    ensures BuildHorizontalTable([["v0", "0xff"]]) == ("v0  \t", "0xff\t")
  {
    var row := ["v0", "0xff"];
    assert MaxLength(row) == 4 by {
      assert row[..1] == ["v0"];
      assert ["v0"][..0] == [];
    }
    assert Body(row) == "0xff" by {
      assert row[1..] == ["0xff"];
      ConcatSingle("0xff");
    }
    assert Head(row) == "v0";
    PadAsWrittenFallsShort("v0", 4);
    assert Spaces(1) == " ";
    assert Spaces(2) == "  ";
    assert PadAsWritten("v0", 4) == "v0 ";
    assert PadAsWritten("0xff", 4) == "0xff";
    assert Pad("v0", 4) == "v0  ";
    assert Pad("0xff", 4) == "0xff";
    assert [row][..0] == [];
    assert BuildTableWith([row], PadAsWritten)
        == ("" + PadAsWritten(Head(row), 4) + "\t", "" + PadAsWritten(Body(row), 4) + "\t");
    assert BuildTableWith([row], Pad)
        == ("" + Pad(Head(row), 4) + "\t", "" + Pad(Body(row), 4) + "\t");
    assert "" + "v0 " + "\t" == "v0 \t";
    assert "" + "v0  " + "\t" == "v0  \t";
    assert "" + "0xff" + "\t" == "0xff\t";
  }
}
