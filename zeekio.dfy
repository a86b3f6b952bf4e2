/**
  The Zeek TSV writer: it turns records into tab-separated lines and, before the
  first record and whenever the record's descriptor or `_path` changes, emits the
  `#` header lines that changed since the last header.

  What the writer writes to its `io.Writer` is modelled as one growing string.
  Flattening a record and rendering its values (`Flatten`, `ZeekStrings`) are not
  modelled; their results enter as parameters.
*/
module ZeekIO {
  import opened Base

  /** The column holding a Zeek record's log path; it is written in the header, not in rows. */
  const PathColumn := "_path"

  /** The values the header fields hold once their directive has been written. The
      separator field is compared with and set to the four characters `\x90`, while
      the directive written for it names `\x09`. */
  const SeparatorValue := "\\x90"
  const SetSeparatorValue := ","
  const EmptyFieldValue := "(empty)"
  const UnsetFieldValue := "-"

  const SeparatorLine := "#separator \\x09\n"
  const SetSeparatorLine := "#set_separator\t,\n"
  const EmptyFieldLine := "#empty_field\t(empty)\n"
  const UnsetFieldLine := "#unset_field\t-\n"

  /** A column of a record type: its name and its type as rendered by `%s`. */
  datatype Column = Column(name: string, typ: string)

  /** A `zng.Descriptor`: compared by identity, and carrying its record type's columns. */
  class Descriptor {
    const columns: seq<Column>

    constructor (columns: seq<Column>)
      ensures this.columns == columns
    {
      this.columns := columns;
    }
  }

  /** A flattened record: its descriptor and the string its `_path` field holds ("" when it has none). */
  datatype Record = Record(descriptor: Descriptor, path: string)

  /** What `Record.ZeekStrings` returns: one string per column, and whether the
      record needs nanosecond timestamps. */
  datatype ZeekValues = ZeekValues(values: seq<string>, changePrecision: bool)

  /** The header state the writer remembers: the values of the last header it wrote. */
  datatype Header = Header(separator: string, setSeparator: string, emptyField: string, unsetField: string, path: string)

  /** The header state of a new writer. */
  const NoHeader := Header("", "", "", "", "")

  /** The header state after a header for a record with log path `path` has been written. */
  function Settled(path: string): Header
  {
    Header(SeparatorValue, SetSeparatorValue, EmptyFieldValue, UnsetFieldValue, path)
  }

  /** The directive lines a header written from state `h` starts with. */
  function Directives(h: Header): string
  {
    (if h.separator != SeparatorValue then SeparatorLine else "") +
    (if h.setSeparator != SetSeparatorValue then SetSeparatorLine else "") +
    (if h.emptyField != EmptyFieldValue then EmptyFieldLine else "") +
    (if h.unsetField != UnsetFieldValue then UnsetFieldLine else "")
  }

  /** The `#path` line of a header written from state `h` for log path `path`. */
  function PathLine(h: Header, path: string): string
  {
    if path != h.path then "#path\t" + (if path == "" then "-" else path) + "\n" else ""
  }

  /** The columns that appear in the header and in rows: all but those named `_path`, in order. */
  function Visible(cols: seq<Column>): (v: seq<Column>)
    ensures |v| + PathCount(cols) == |cols|
  {
    if cols == [] then []
    else Visible(cols[..|cols| - 1]) + (if cols[|cols| - 1].name == PathColumn then [] else [cols[|cols| - 1]])
  }

  /** The header shows exactly the columns not named `_path`. */
  lemma {:induction false} VisibleMembers(cols: seq<Column>)
    ensures forall c :: c in Visible(cols) <==> c in cols && c.name != PathColumn
  {
    if cols != [] {
      var init := cols[..|cols| - 1];
      VisibleMembers(init);
      assert cols == init + [cols[|cols| - 1]];
    }
  }

  /** The number of columns named `_path`. */
  function PathCount(cols: seq<Column>): nat
  {
    if cols == [] then 0
    else PathCount(cols[..|cols| - 1]) + (if cols[|cols| - 1].name == PathColumn then 1 else 0)
  }

  function ColumnName(c: Column): string { c.name }

  function ColumnType(c: Column): string { c.typ }

  /** `pick` applied to each column, in order. */
  function Project(cols: seq<Column>, pick: Column -> string): (r: seq<string>)
    ensures |r| == |cols| && forall i :: 0 <= i < |cols| ==> r[i] == pick(cols[i])
  {
    seq(|cols|, i requires 0 <= i < |cols| => pick(cols[i]))
  }

  /** Each field preceded by a tab. */
  function Tabbed(fields: seq<string>): string
  {
    if fields == [] then "" else Tabbed(fields[..|fields| - 1]) + "\t" + fields[|fields| - 1]
  }

  /** `strings.Join(fields, "\t")`. */
  function Join(fields: seq<string>): string
  {
    if fields == [] then ""
    else if |fields| == 1 then fields[0]
    else Join(fields[..|fields| - 1]) + "\t" + fields[|fields| - 1]
  }

  /** A header line lists the same fields a row joins, with one more leading tab. */
  lemma {:induction false} TabbedIsJoin(fields: seq<string>)
    requires fields != []
    ensures Tabbed(fields) == "\t" + Join(fields)
  {
    if |fields| == 1 {
      assert fields[..0] == [];
    } else {
      TabbedIsJoin(fields[..|fields| - 1]);
    }
  }

  /** Hiding `_path` columns distributes over concatenation, so the header keeps the columns' order. */
  lemma {:induction false} VisibleAppend(a: seq<Column>, b: seq<Column>)
    ensures Visible(a + b) == Visible(a) + Visible(b)
  {
    if b == [] {
      assert a + b == a;
    } else {
      assert (a + b)[..|a + b| - 1] == a + b[..|b| - 1];
      VisibleAppend(a, b[..|b| - 1]);
    }
  }

  /** A header line: `heading`, then `pick` of every column not named `_path`, each
      preceded by a tab, then a newline. */
  function ListLine(heading: string, cols: seq<Column>, pick: Column -> string): string
  {
    heading + Tabbed(Project(Visible(cols), pick)) + "\n"
  }

  /** The `#fields` and `#types` lines of a header for descriptor `d`, written only when
      `d` is not the last descriptor seen. */
  function ColumnLines(last: Descriptor?, d: Descriptor): string
  {
    if d != last then ListLine("#fields", d.columns, ColumnName) + ListLine("#types", d.columns, ColumnType)
    else ""
  }

  /** The whole header `writeHeader` writes from state `h`, last descriptor `last`, for a
      record with descriptor `d` and log path `path`. */
  function HeaderText(h: Header, last: Descriptor?, d: Descriptor, path: string): string
  {
    Directives(h) + PathLine(h, path) + ColumnLines(last, d)
  }

  /** The four directives appear in the first header and never again. */
  lemma DirectivesOnce(path: string)
    ensures Directives(NoHeader) == SeparatorLine + SetSeparatorLine + EmptyFieldLine + UnsetFieldLine
    ensures Directives(Settled(path)) == ""
  {
  }

  /** Whenever the descriptor or the path changed, the header written is not empty. */
  lemma HeaderWhenChanged(h: Header, last: Descriptor?, d: Descriptor, path: string)
    requires d != last || path != h.path
    ensures HeaderText(h, last, d, path) != ""
  {
  }

  /** Writing a header again for the same descriptor and path writes nothing. */
  lemma HeaderIdempotent(d: Descriptor, path: string)
    ensures HeaderText(Settled(path), d, d, path) == ""
  {
  }

  /** `Descriptor.ColumnOfField(name)`: the index of the first column called `name`. */
  function ColumnOf(cols: seq<Column>, name: string): (r: Option<nat>)
    ensures r.Some? ==> r.value < |cols| && cols[r.value].name == name
    ensures r.Some? ==> forall j :: 0 <= j < r.value ==> cols[j].name != name
    ensures r.None? ==> forall j :: 0 <= j < |cols| ==> cols[j].name != name
  {
    if cols == [] then None
    else if cols[0].name == name then Some(0)
    else match ColumnOf(cols[1..], name)
      case Some(i) => Some(i + 1)
      case None => None
  }

  /** `append(values[:i], values[i+1:]...)`: the values without the one at `i`. */
  function RemoveAt(values: seq<string>, i: nat): (r: seq<string>)
    requires i < |values|
    ensures |r| == |values| - 1
    ensures forall j :: 0 <= j < i ==> r[j] == values[j]
    ensures forall j :: i <= j < |r| ==> r[j] == values[j + 1]
  {
    values[..i] + values[i + 1..]
  }

  /** The fields of a row: the record's values without the one of its `_path` column. */
  function RowFields(values: seq<string>, pathAt: Option<nat>): seq<string>
    requires pathAt.Some? ==> pathAt.value < |values|
  {
    if pathAt.Some? then RemoveAt(values, pathAt.value) else values
  }

  /** The data line written for a record. */
  function DataLine(values: seq<string>, pathAt: Option<nat>): string
    requires pathAt.Some? ==> pathAt.value < |values|
  {
    Join(RowFields(values, pathAt)) + "\n"
  }

  lemma {:induction false} PathCountZero(cols: seq<Column>)
    ensures PathCount(cols) == 0 <==> forall j :: 0 <= j < |cols| ==> cols[j].name != PathColumn
  {
    if cols != [] {
      PathCountZero(cols[..|cols| - 1]);
    }
  }

  /** When column names are unique (at most one `_path`), a row has exactly as many fields
      as the `#fields` line names: one fewer than the columns when `_path` is among them. */
  lemma RowMatchesHeader(cols: seq<Column>, values: seq<string>)
    requires |values| == |cols|
    requires PathCount(cols) <= 1
    ensures |RowFields(values, ColumnOf(cols, PathColumn))| == |Visible(cols)|
    ensures ColumnOf(cols, PathColumn).Some? ==> |RowFields(values, ColumnOf(cols, PathColumn))| == |cols| - 1
  {
    PathCountZero(cols);
  }

  class Writer {
    var separator: string
    var setSeparator: string
    var emptyField: string
    var unsetField: string
    var path: string
    var descriptor: Descriptor?
    var precision: int
    /** The `UTF8` flag of the writer's `zio.Flags`. */
    const utf8: bool
    /** Everything written to the underlying `io.Writer`. */
    var out: string

    /** The remembered header state. */
    function Hdr(): Header
      reads this
    {
      Header(separator, setSeparator, emptyField, unsetField, path)
    }

    /** Timestamps use microsecond or nanosecond precision, and once a header has been
        written its directives are settled. */
    ghost predicate Valid()
      reads this
    {
      (precision == 6 || precision == 9) &&
      (descriptor != null ==> Hdr() == Settled(path))
    }

    /** `NewWriter`. */
    constructor (utf8: bool)
      ensures Valid()
      ensures precision == 6 && Hdr() == NoHeader && descriptor == null
      ensures out == "" && this.utf8 == utf8
    {
      separator, setSeparator, emptyField, unsetField, path := "", "", "", "", "";
      descriptor := null;
      precision := 6;
      this.utf8 := utf8;
      out := "";
    }

    /** `writeHeader` for a record with descriptor `d` and log path `recordPath`. */
    method WriteHeader(d: Descriptor, recordPath: string)
      modifies this
      ensures out == old(out) + HeaderText(old(Hdr()), old(descriptor), d, recordPath)
      ensures Hdr() == Settled(recordPath)
      ensures descriptor == old(descriptor) && precision == old(precision)
    {
      ghost var h := Hdr();
      var s := UpdateHeader(recordPath);
      if d != descriptor {
        var fields := ColumnsLine("#fields", d.columns, ColumnName);
        var types := ColumnsLine("#types", d.columns, ColumnType);
        s := s + (fields + types);
      }
      assert s == HeaderText(h, old(descriptor), d, recordPath);
      out := out + s;
    }

    /** The first part of `writeHeader`: the directive lines and the `#path` line, each
        written only when its header field differs, which it then updates. */
    method UpdateHeader(recordPath: string) returns (s: string)
      modifies this`separator, this`setSeparator, this`emptyField, this`unsetField, this`path
      ensures s == Directives(old(Hdr())) + PathLine(old(Hdr()), recordPath)
      ensures Hdr() == Settled(recordPath)
    {
      ghost var h := Hdr();
      s := "";
      if separator != SeparatorValue {
        separator := SeparatorValue;
        s := s + SeparatorLine;
      }
      ghost var s1 := s;
      if setSeparator != SetSeparatorValue {
        setSeparator := SetSeparatorValue;
        s := s + SetSeparatorLine;
      }
      ghost var s2 := s;
      if emptyField != EmptyFieldValue {
        emptyField := EmptyFieldValue;
        s := s + EmptyFieldLine;
      }
      ghost var s3 := s;
      if unsetField != UnsetFieldValue {
        unsetField := UnsetFieldValue;
        s := s + UnsetFieldLine;
      }
      assert s == Directives(h) by {
        assert s1 == (if h.separator != SeparatorValue then SeparatorLine else "");
        assert s2 == s1 + (if h.setSeparator != SetSeparatorValue then SetSeparatorLine else "");
        assert s3 == s2 + (if h.emptyField != EmptyFieldValue then EmptyFieldLine else "");
        assert s == s3 + (if h.unsetField != UnsetFieldValue then UnsetFieldLine else "");
      }
      if recordPath != path {
        path := recordPath;
        var shown := if recordPath == "" then "-" else recordPath;
        s := s + ("#path\t" + shown + "\n");
      }
    }

    /**
      `Write`. `flattened` is what flattening the record returned and `zeekStrings(p, u)`
      what `ZeekStrings` returns at precision `p` with the UTF-8 flag `u`; its values reach
      past the record's `_path` column, so that splicing that column out cannot panic.
    */
    method Write(flattened: Result<Record>, zeekStrings: (int, bool) -> Result<ZeekValues>) returns (err: Option<Error>)
      requires Valid()
      requires flattened.Ok? && zeekStrings(precision, utf8).Ok? && ColumnOf(flattened.value.descriptor.columns, PathColumn).Some? ==>
        ColumnOf(flattened.value.descriptor.columns, PathColumn).value < |zeekStrings(precision, utf8).value.values|
      modifies this
      ensures Valid()
      ensures precision == old(precision) || precision == 9
      ensures flattened.Err? ==> err == Some(flattened.error) && unchanged(this)
      ensures flattened.Ok? ==>
        var r := flattened.value;
        var changed := r.descriptor != old(descriptor) || r.path != old(path);
        var header := if changed then HeaderText(old(Hdr()), old(descriptor), r.descriptor, r.path) else "";
        var z := zeekStrings(old(precision), utf8);
        && descriptor == r.descriptor
        && Hdr() == Settled(r.path)
        && (z.Err? ==> err == Some(z.error) && out == old(out) + header && precision == old(precision))
        && (z.Ok? ==>
              && err == None
              && out == old(out) + header + DataLine(z.value.values, ColumnOf(r.descriptor.columns, PathColumn))
              && precision == (if z.value.changePrecision then 9 else old(precision)))
    {
      if flattened.Err? {
        return Some(flattened.error);
      }
      var r := flattened.value;
      if r.descriptor != descriptor || r.path != path {
        WriteHeader(r.descriptor, r.path);
        descriptor := r.descriptor;
      }
      var z := zeekStrings(precision, utf8);
      if z.Err? {
        return Some(z.error);
      }
      if z.value.changePrecision {
        precision := 9;
      }
      var line := Row(z.value.values, ColumnOf(r.descriptor.columns, PathColumn));
      out := out + line;
      err := None;
    }
  }

  /** The row part of `Write`: the values without the one at `pathAt`, joined by tabs,
      then a newline. It is the imperative form of `DataLine`, kept apart from `Write`
      only so that each proof stays small. */
  method Row(values: seq<string>, pathAt: Option<nat>) returns (line: string)
    requires pathAt.Some? ==> pathAt.value < |values|
    ensures line == DataLine(values, pathAt)
  {
    var fields := values;
    if pathAt.Some? {
      fields := values[..pathAt.value] + values[pathAt.value + 1..];
    }
    line := Join(fields) + "\n";
  }

  /** One of the two header loops of `writeHeader`, specified by `ListLine`; `Listed`
      describes its progress column by column, and `ListedIsTabbed` ties the two. */
  method ColumnsLine(heading: string, cols: seq<Column>, pick: Column -> string) returns (s: string)
    ensures s == ListLine(heading, cols, pick)
  {
    s := heading;
    assert cols[..0] == [];
    for i := 0 to |cols|
      invariant s == Listed(heading, cols[..i], pick)
    {
      assert cols[..i + 1][..i] == cols[..i];
      if cols[i].name != PathColumn {
        s := s + Cell(cols[i], pick);
      }
    }
    assert cols[..|cols|] == cols;
    ListedIsTabbed(heading, cols, pick);
    s := s + "\n";
  }

  /** What a header loop has built after the columns `cols`: `heading`, then a cell for
      each column not named `_path`. */
  function Listed(heading: string, cols: seq<Column>, pick: Column -> string): string
  {
    if cols == [] then heading
    else
      var last := cols[|cols| - 1];
      Listed(heading, cols[..|cols| - 1], pick) + (if last.name == PathColumn then "" else Cell(last, pick))
  }

  /** The loop's text is the heading followed by the tabbed list of the visible columns. */
  lemma {:induction false} ListedIsTabbed(heading: string, cols: seq<Column>, pick: Column -> string)
    ensures Listed(heading, cols, pick) == heading + Tabbed(Project(Visible(cols), pick))
  {
    if cols == [] {
      assert Tabbed(Project(Visible(cols), pick)) == [];
    } else {
      var n := |cols| - 1;
      ListedIsTabbed(heading, cols[..n], pick);
      VisibleStep(cols, n, pick);
      assert cols[..n + 1] == cols;
      var t := Tabbed(Project(Visible(cols[..n]), pick));
      var c := if cols[n].name == PathColumn then "" else Cell(cols[n], pick);
      AppendAssoc(heading, t, c);
    }
  }

  lemma AppendAssoc(a: string, b: string, c: string)
    ensures (a + b) + c == a + (b + c)
  {
  }

  /** A column's entry in a header line. */
  function Cell(c: Column, pick: Column -> string): string
  {
    "\t" + pick(c)
  }

  /** One column more of a header loop: a `_path` column adds nothing, any other one tabbed field. */
  lemma VisibleStep(cols: seq<Column>, i: nat, pick: Column -> string)
    requires i < |cols|
    ensures Tabbed(Project(Visible(cols[..i + 1]), pick)) ==
      Tabbed(Project(Visible(cols[..i]), pick)) + (if cols[i].name == PathColumn then "" else Cell(cols[i], pick))
  {
    assert cols[..i + 1][..i] == cols[..i];
    var v := Visible(cols[..i]);
    if cols[i].name != PathColumn {
      assert Visible(cols[..i + 1]) == v + [cols[i]];
      ProjectSnoc(v, cols[i], pick);
      TabbedSnoc(Project(v, pick), pick(cols[i]));
    } else {
      assert Visible(cols[..i + 1]) == v;
    }
  }

  lemma ProjectSnoc(cols: seq<Column>, c: Column, pick: Column -> string)
    ensures Project(cols + [c], pick) == Project(cols, pick) + [pick(c)]
  {
  }

  lemma TabbedSnoc(fields: seq<string>, f: string)
    ensures Tabbed(fields + [f]) == Tabbed(fields) + ("\t" + f)
  {
  }
}
