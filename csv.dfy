/**
 * The text built by `exportRegistrations` (src/lib/auth.ts): a header row and
 * one row per registration, cells joined with ',' and rows with '\n', without
 * any quoting. The date cell is `toLocaleDateString()` of the registration
 * date, an opaque formatting passed in as `localeDate`.
 */
module Csv {
  import opened Common
  import opened Types
  import opened Text

  const Header: seq<string> := ["Name", "Email", "School", "Grade", "Role", "Registration Date", "Status"]

  /** `reg.grade || 'N/A'`: a missing or empty grade prints as N/A. */
  function GradeCell(grade: Option<string>): (r: string)
    ensures grade.None? || grade.value == "" ==> r == "N/A"
    ensures grade.Some? && grade.value != "" ==> r == grade.value
  {
    match grade
    case Some(g) => if g != "" then g else "N/A"
    case None => "N/A"
  }

  function Row(reg: Registration, localeDate: string -> string): (cells: seq<string>)
    ensures |cells| == |Header|
  {
    [reg.form.fullName, reg.form.email, reg.form.schoolName, GradeCell(reg.form.grade),
     reg.form.role, localeDate(reg.registrationDate), reg.status]
  }

  function RowLine(reg: Registration, localeDate: string -> string): string {
    Join(Row(reg, localeDate), ',')
  }

  function RowLines(regs: seq<Registration>, localeDate: string -> string): (lines: seq<string>)
    ensures |lines| == |regs|
    ensures forall i :: 0 <= i < |regs| ==> lines[i] == RowLine(regs[i], localeDate)
  {
    seq(|regs|, i requires 0 <= i < |regs| => RowLine(regs[i], localeDate))
  }

  /** The exported text: it always opens with the header line, and a line break follows it when there are rows. */
  function ExportText(regs: seq<Registration>, localeDate: string -> string): (text: string)
    ensures |Join(Header, ',')| <= |text| && text[..|Join(Header, ',')|] == Join(Header, ',')
    ensures regs == [] <==> text == Join(Header, ',')
    ensures regs != [] ==> text[|Join(Header, ',')|] == '\n'
  {
    var lines := [Join(Header, ',')] + RowLines(regs, localeDate);
    assert lines[0] == Join(Header, ',');
    assert |lines| > 1 ==> lines[1..] == RowLines(regs, localeDate);
    Join(lines, '\n')
  }

  /** No cell of the registration's row contains `c`. */
  predicate CellsAvoid(reg: Registration, localeDate: string -> string, c: char) {
    forall k :: 0 <= k < |Header| ==> c !in Row(reg, localeDate)[k]
  }

  /**
   * When no cell holds a line break, the text has exactly 1 + |regs| lines:
   * the header first, then one line per registration in insertion order.
   */
  lemma ExportLines(regs: seq<Registration>, localeDate: string -> string)
    requires forall i :: 0 <= i < |regs| ==> CellsAvoid(regs[i], localeDate, '\n')
    ensures |Split(ExportText(regs, localeDate), '\n')| == 1 + |regs|
    ensures Split(ExportText(regs, localeDate), '\n')[0] == Join(Header, ',')
    ensures forall i :: 0 <= i < |regs| ==>
      Split(ExportText(regs, localeDate), '\n')[i + 1] == RowLine(regs[i], localeDate)
  {
    var lines := [Join(Header, ',')] + RowLines(regs, localeDate);
    HeaderLine();
    forall k | 0 <= k < |lines| ensures '\n' !in lines[k] {
      if k > 0 {
        var reg := regs[k - 1];
        NoBreakInRow(reg, localeDate);
      }
    }
    SplitJoin(lines, '\n');
  }

  lemma NoBreakInRow(reg: Registration, localeDate: string -> string)
    requires CellsAvoid(reg, localeDate, '\n')
    ensures '\n' !in RowLine(reg, localeDate)
  {
    JoinAvoids(Row(reg, localeDate), ',', '\n');
  }

  /** Joining parts that avoid `c` with a separator other than `c` avoids `c`. */
  lemma {:induction false} JoinAvoids(parts: seq<string>, sep: char, c: char)
    requires sep != c
    requires forall k :: 0 <= k < |parts| ==> c !in parts[k]
    ensures c !in Join(parts, sep)
  {
    if |parts| > 1 {
      JoinAvoids(parts[1..], sep, c);
    }
  }

  /** The header line splits into the seven column names and holds no line break. */
  lemma HeaderLine()
    ensures Split(Join(Header, ','), ',') == Header
    ensures '\n' !in Join(Header, ',')
  {
    forall k | 0 <= k < |Header| ensures ',' !in Header[k] && '\n' !in Header[k] {
      var h := Header[k];
      assert h == "Name" || h == "Email" || h == "School" || h == "Grade" || h == "Role"
        || h == "Registration Date" || h == "Status";
    }
    SplitJoin(Header, ',');
    JoinAvoids(Header, ',', '\n');
  }

  /** When no cell holds a comma, a row splits back into its seven cells. */
  lemma RowFields(reg: Registration, localeDate: string -> string)
    requires CellsAvoid(reg, localeDate, ',')
    ensures Split(RowLine(reg, localeDate), ',') == Row(reg, localeDate)
    ensures |Split(RowLine(reg, localeDate), ',')| == 7
  {
    SplitJoin(Row(reg, localeDate), ',');
  }

  /** Cells are not quoted: a comma inside a cell yields more than seven fields. */
  lemma CommaBreaksColumns(reg: Registration, localeDate: string -> string, k: nat)
    requires k < |Header| && ',' in Row(reg, localeDate)[k]
    ensures |Split(RowLine(reg, localeDate), ',')| > 7
  {
    SplitJoinOverflows(Row(reg, localeDate), ',', k);
  }
}
