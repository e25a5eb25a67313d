/** Layout files: a CSV table with the columns primary, shift, altcr, fn and name,
    read as csv.DictReader rows. A row maps column names to cell text; a column the
    row lacks (or a cell DictReader fills with None) reads as "". */
module Layout {
  import opened Text
  import opened Sequences

  type Row = map<string, string>

  /** `(row.get(column) or "").strip()` */
  function Field(row: Row, column: string): (r: string)
    ensures Trimmed(r)
    ensures column !in row ==> r == ""
    ensures column in row ==> r == Strip(row[column])
  {
    if column in row then Strip(row[column]) else ""
  }

  /** One key of the layout: the legend texts and the output name. */
  datatype LayoutEntry = LayoutEntry(primary: string, shift: string, altcr: string, fn: string, name: string)

  predicate HasPrimary(row: Row) {
    Field(row, "primary") != ""
  }

  /** The entry read from a row; the name falls back to the primary legend. */
  function EntryOf(row: Row): (e: LayoutEntry)
    requires HasPrimary(row)
    ensures e.primary == Field(row, "primary") && e.shift == Field(row, "shift")
    ensures e.altcr == Field(row, "altcr") && e.fn == Field(row, "fn")
    ensures e.name == (if Field(row, "name") != "" then Field(row, "name") else e.primary)
    ensures e.primary != "" && e.name != ""
  {
    var primary := Field(row, "primary");
    var name := Field(row, "name");
    LayoutEntry(primary, Field(row, "shift"), Field(row, "altcr"), Field(row, "fn"), if name != "" then name else primary)
  }

  /** EntryOf on any row, for mapping over rows already filtered. */
  function EntryOrBlank(row: Row): LayoutEntry {
    if HasPrimary(row) then EntryOf(row) else LayoutEntry("", "", "", "", "")
  }

  /** The entries read_layout_entries returns: one per row with a primary legend,
      in file order. */
  function LayoutEntries(rows: seq<Row>): seq<LayoutEntry> {
    if rows == [] then []
    else
      var last := rows[|rows| - 1];
      LayoutEntries(rows[..|rows| - 1]) + (if HasPrimary(last) then [EntryOf(last)] else [])
  }

  /** read_layout_entries. */
  method ReadLayoutEntries(rows: seq<Row>) returns (entries: seq<LayoutEntry>)
    ensures entries == LayoutEntries(rows)
  {
    entries := [];
    var i := 0;
    while i < |rows|
      invariant 0 <= i <= |rows|
      invariant entries == LayoutEntries(rows[..i])
    {
      var row := rows[i];
      assert rows[..i + 1][..i] == rows[..i];
      var labelText := Field(row, "primary");
      var shiftText := Field(row, "shift");
      var altcrText := Field(row, "altcr");
      var functionText := Field(row, "fn");
      var nameText := Field(row, "name");
      if labelText != "" {
        entries := entries + [LayoutEntry(labelText, shiftText, altcrText, functionText, if nameText != "" then nameText else labelText)];
      }
      i := i + 1;
    }
    assert rows[..i] == rows;
  }

  /** Reading two parts of a file one after the other is reading the whole, so the
      entries keep the file order. */
  lemma {:induction false} LayoutEntriesAppend(a: seq<Row>, b: seq<Row>)
    ensures LayoutEntries(a + b) == LayoutEntries(a) + LayoutEntries(b)
    decreases |b|
  {
    if b != [] {
      var b' := b[..|b| - 1];
      assert (a + b)[..|a + b| - 1] == a + b';
      LayoutEntriesAppend(a, b');
    } else {
      assert a + b == a;
    }
  }

  /** The entries are exactly the rows with a non-blank primary cell, each read by
      EntryOf: the reader is the filter of the rows by HasPrimary, mapped by
      EntryOf. */
  lemma {:induction false} LayoutEntriesAreFilteredRows(rows: seq<Row>)
    ensures LayoutEntries(rows) == Map(Filter(rows, HasPrimary), EntryOrBlank)
  {
    if rows != [] {
      var init := rows[..|rows| - 1];
      var last := rows[|rows| - 1];
      LayoutEntriesAreFilteredRows(init);
      assert rows == init + [last];
      FilterSnoc(init, last, HasPrimary);
      var kept: seq<Row> := if HasPrimary(last) then [last] else [];
      MapConcat(Filter(init, HasPrimary), kept, EntryOrBlank);
      assert Map(kept, EntryOrBlank) == (if HasPrimary(last) then [EntryOf(last)] else []);
    }
  }

  /** Every entry has a non-empty stripped primary legend and a non-empty name, and
      comes from a row of the file. */
  lemma {:induction false} LayoutEntriesMembers(rows: seq<Row>)
    ensures forall e :: e in LayoutEntries(rows) ==> e.primary != "" && e.name != "" && Trimmed(e.primary)
    ensures forall e :: e in LayoutEntries(rows) ==> exists row :: row in rows && HasPrimary(row) && e == EntryOf(row)
    ensures forall row :: row in rows && HasPrimary(row) ==> EntryOf(row) in LayoutEntries(rows)
  {
    if rows != [] {
      var init := rows[..|rows| - 1];
      LayoutEntriesMembers(init);
      assert rows == init + [rows[|rows| - 1]];
    }
  }

  lemma MapConcat<T, U>(a: seq<T>, b: seq<T>, f: T -> U)
    ensures Map(a + b, f) == Map(a, f) + Map(b, f)
  {}

  /** The labels read_primary_labels returns: the stripped primary cells that are not
      empty, in row order. */
  function PrimaryLabels(rows: seq<Row>): seq<string> {
    if rows == [] then []
    else
      var last := rows[|rows| - 1];
      PrimaryLabels(rows[..|rows| - 1]) + (if HasPrimary(last) then [PrimaryOf(last)] else [])
  }

  function PrimaryOf(row: Row): string {
    Field(row, "primary")
  }

  /** read_primary_labels in keycap_exporter_run.py. */
  method ReadPrimaryLabels(rows: seq<Row>) returns (labels: seq<string>)
    ensures labels == PrimaryLabels(rows)
  {
    labels := [];
    var i := 0;
    while i < |rows|
      invariant 0 <= i <= |rows|
      invariant labels == PrimaryLabels(rows[..i])
    {
      var row := rows[i];
      assert rows[..i + 1][..i] == rows[..i];
      var primaryLabel := Field(row, "primary");
      if primaryLabel != "" {
        labels := labels + [primaryLabel];
      }
      i := i + 1;
    }
    assert rows[..i] == rows;
  }

  /** The two readers agree: the labels are the primary legends of the entries, so
      there is one label per entry, in the same order. */
  lemma {:induction false} LabelsAreEntryPrimaries(rows: seq<Row>)
    ensures |PrimaryLabels(rows)| == |LayoutEntries(rows)|
    ensures forall i :: 0 <= i < |PrimaryLabels(rows)| ==> PrimaryLabels(rows)[i] == LayoutEntries(rows)[i].primary
  {
    if rows != [] {
      LabelsAreEntryPrimaries(rows[..|rows| - 1]);
    }
  }

  /** Every label is a non-empty stripped string, every row with a primary legend
      gives its label, and a row with a blank primary cell (missing, empty or
      whitespace only) gives none. */
  lemma {:induction false} LabelsAreStrippedAndNonEmpty(rows: seq<Row>, row: Row)
    ensures forall l :: l in PrimaryLabels(rows) ==> l != "" && Trimmed(l)
    ensures row in rows && HasPrimary(row) ==> PrimaryOf(row) in PrimaryLabels(rows)
    ensures !("primary" in row && !AllSpace(row["primary"])) ==> !HasPrimary(row)
  {
    if rows != [] {
      var init := rows[..|rows| - 1];
      LabelsAreStrippedAndNonEmpty(init, row);
      assert rows == init + [rows[|rows| - 1]];
    }
    if "primary" in row {
      StripEmptyIffBlank(row["primary"]);
    }
  }
}
