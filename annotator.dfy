/** The desk-position annotator: a click on the floor image marks a
    provisional point, "Aggiungi" turns it into a point labelled with the id
    typed in the box (refusing an empty or repeated id and proposing the next
    number), "Undo" removes the last point and "Salva CSV" exports the points.
    The figure, its markers and the console are modelled by the state they
    hold and the messages they print; coordinates are exact reals. */
module Annotator {
  import opened Wrappers
  import opened Text

  /** An annotated point: the id as typed (stripped) and the pixel position. */
  datatype Point = Point(id: string, x: real, y: real)

  /** A marker on the figure with its text label. */
  datatype Marker = Marker(x: real, y: real, textX: real, textY: real, text: string)

  /** The provisional marker of a click: an `x` with a `?` above right of it. */
  function TempMarker(x: real, y: real): Marker {
    Marker(x, y, x + 5.0, y - 5.0, "?")
  }

  /** The definitive marker of a point: a dot with its id below right of it. */
  function PointMarker(p: Point): Marker {
    Marker(p.x, p.y, p.x + 5.0, p.y + 5.0, p.id)
  }

  // ---------------------------------------------------------------------------
  // Python's int() on the stripped id

  /** A digit run in which single underscores may separate digits. */
  predicate IsUnderscoredDigits(s: string) {
    && |s| > 0 && IsDigit(s[0]) && IsDigit(s[|s| - 1])
    && (forall i :: 0 <= i < |s| ==> IsDigit(s[i]) || s[i] == '_')
    && (forall i :: 0 <= i < |s| - 1 ==> s[i] == '_' ==> s[i + 1] != '_')
  }

  /** The digits of `s` without its underscores. */
  function DropUnderscores(s: string): (r: string)
    requires forall i :: 0 <= i < |s| ==> IsDigit(s[i]) || s[i] == '_'
    ensures AllDigits(r) && |r| <= |s|
    ensures AllDigits(s) ==> r == s
    decreases |s|
  {
    if s == [] then []
    else if s[0] == '_' then DropUnderscores(s[1..])
    else [s[0]] + DropUnderscores(s[1..])
  }

  /** `int(s)` for a string already stripped of whitespace: an optional sign
      and a run of ASCII digits with single underscores between them; any
      other string raises `ValueError`, modelled as `None`. */
  function PyInt(s: string): (r: Option<int>)
    ensures r.Some? ==> s != ""
  {
    if s != [] && (s[0] == '+' || s[0] == '-') then
      if IsUnderscoredDigits(s[1..]) then
        var v: int := DigitsValue(DropUnderscores(s[1..]));
        Some(if s[0] == '-' then -v else v)
      else None
    else if IsUnderscoredDigits(s) then Some(DigitsValue(DropUnderscores(s)))
    else None
  }

  /** The proposed id reads back as the number it was made from: `int(str(n)) == n`. */
  lemma PyIntOfIntToString(n: int)
    ensures PyInt(IntToString(n)) == Some(n)
  {
    if n >= 0 {
      PyIntOfDigits(NatToString(n));
      DigitsValueOfNatToString(n);
    } else {
      var digits := NatToString(-n);
      var s := "-" + digits;
      assert s[1..] == digits;
      DigitsUnderscored(digits);
      DigitsValueOfNatToString(-n);
    }
  }

  /** A plain digit run is a valid underscored run. */
  lemma DigitsUnderscored(s: string)
    requires AllDigits(s) && s != ""
    ensures IsUnderscoredDigits(s) && DropUnderscores(s) == s
  {
  }

  /** Unsigned digits read as their decimal value. */
  lemma {:induction false} PyIntOfDigits(s: string)
    requires AllDigits(s) && s != ""
    ensures PyInt(s) == Some(DigitsValue(s))
  {
    DigitsUnderscored(s);
  }

  /** A minus sign before a digit run negates its value. */
  lemma {:induction false} PyIntOfNegativeDigits(digits: string)
    requires AllDigits(digits) && digits != ""
    ensures PyInt("-" + digits) == Some(-(DigitsValue(digits) as int))
  {
    var s := "-" + digits;
    assert s[1..] == digits;
    DigitsUnderscored(digits);
  }

  /** A plus sign before a digit run keeps its value. */
  lemma {:induction false} PyIntOfPositiveDigits(digits: string)
    requires AllDigits(digits) && digits != ""
    ensures PyInt("+" + digits) == Some(DigitsValue(digits))
  {
    var s := "+" + digits;
    assert s[1..] == digits;
    DigitsUnderscored(digits);
  }

  // ---------------------------------------------------------------------------
  // The CSV export

  const CsvHeader: seq<string> := ["id", "x_px", "y_px"]

  /** How `csv.writer` (the default dialect, minimal quoting) writes a text
      cell: quoted, with inner quotes doubled, when it holds a comma, a quote,
      or a line break. */
  function CsvCell(s: string): (cell: string)
    ensures (',' in s || '"' in s || '\r' in s || '\n' in s) <==> cell != s
  {
    if ',' in s || '"' in s || '\r' in s || '\n' in s then "\"" + DoubleQuotes(s) + "\"" else s
  }

  /** `s` with every quote doubled. */
  function DoubleQuotes(s: string): (r: string)
    ensures |r| >= |s|
    decreases |s|
  {
    if s == [] then [] else (if s[0] == '"' then "\"\"" else [s[0]]) + DoubleQuotes(s[1..])
  }

  /** Reading a quoted cell's content back: a doubled quote stands for one quote. */
  function UndoubleQuotes(s: string): string
    decreases |s|
  {
    if |s| >= 2 && s[0] == '"' && s[1] == '"' then "\"" + UndoubleQuotes(s[2..])
    else if s == [] then []
    else [s[0]] + UndoubleQuotes(s[1..])
  }

  lemma {:induction false} UndoubleDouble(s: string)
    ensures UndoubleQuotes(DoubleQuotes(s)) == s
    decreases |s|
  {
    if s != [] {
      UndoubleDouble(s[1..]);
      var d := DoubleQuotes(s);
      if s[0] == '"' {
        assert d == "\"\"" + DoubleQuotes(s[1..]);
        assert d[2..] == DoubleQuotes(s[1..]);
      } else {
        assert d == [s[0]] + DoubleQuotes(s[1..]);
        assert d[1..] == DoubleQuotes(s[1..]);
      }
    }
  }

  /** The cell a CSV reader sees: the quoted content unescaped, or the text as is. */
  function ReadCell(cell: string): string {
    if |cell| >= 2 && cell[0] == '"' && cell[|cell| - 1] == '"' then UndoubleQuotes(cell[1..|cell| - 1])
    else cell
  }

  /** An id written to the file reads back unchanged, whatever it holds. */
  lemma CsvCellRoundTrip(s: string)
    ensures ReadCell(CsvCell(s)) == s
  {
    if ',' in s || '"' in s || '\r' in s || '\n' in s {
      var c := CsvCell(s);
      assert c[1..|c| - 1] == DoubleQuotes(s);
      UndoubleDouble(s);
    }
  }

  /** One exported row: the id cell and the two coordinates. */
  datatype Row = Row(idCell: string, x: real, y: real)

  function RowOf(p: Point): (r: Row)
    ensures ReadCell(r.idCell) == p.id
    ensures r.x == p.x && r.y == p.y
  {
    CsvCellRoundTrip(p.id);
    Row(CsvCell(p.id), p.x, p.y)
  }

  /** The rows of the file: one per point, in order. */
  function Rows(points: seq<Point>): (rows: seq<Row>)
    ensures |rows| == |points|
    ensures forall k :: 0 <= k < |points| ==> rows[k] == RowOf(points[k])
  {
    seq(|points|, k requires 0 <= k < |points| => RowOf(points[k]))
  }

  /** The exported file: the header row, then the rows. */
  datatype CsvFile = CsvFile(path: string, header: seq<string>, rows: seq<Row>)

  // ---------------------------------------------------------------------------
  // The annotator

  predicate DistinctIds(points: seq<Point>) {
    forall i, j :: 0 <= i < j < |points| ==> points[i].id != points[j].id
  }

  /** `any(sid == p[0] for p in points)`. */
  predicate HasId(points: seq<Point>, id: string) {
    exists k :: 0 <= k < |points| && points[k].id == id
  }

  const NoClickMessage: string := "Nessun punto cliccato."
  const EmptyIdMessage: string := "ID vuoto."
  const DuplicatePrefix: string := "ID duplicato: "
  const NothingToSaveMessage: string := "Nessun punto da salvare."
  const SavedPrefix: string := "Salvato: "

  class Annotatore {
    const outCsv: string
    var points: seq<Point>
    var drawn: seq<Marker>
    var lastClick: Option<(real, real)>
    var temp: Option<Marker>
    var nextId: int
    /** The text of the id box. */
    var idText: string

    /** Every point has its marker, in the same order, and no two points share an id. */
    ghost predicate Valid()
      reads this
    {
      && |drawn| == |points|
      && (forall k :: 0 <= k < |points| ==> drawn[k] == PointMarker(points[k]))
      && DistinctIds(points)
    }

    /** `__init__`: no points, the id box showing the starting id. */
    constructor (outCsv: string, startId: int)
      ensures Valid()
      ensures this.outCsv == outCsv && points == [] && drawn == [] && lastClick.None? && temp.None?
      ensures nextId == startId && idText == IntToString(startId)
    {
      this.outCsv := outCsv;
      points, drawn, lastClick, temp := [], [], None, None;
      nextId, idText := startId, IntToString(startId);
    }

    /** Typing in the id box. */
    method SetIdText(text: string)
      modifies this`idText
      ensures idText == text
    {
      idText := text;
    }

    /** `on_click`: a click inside the image replaces the provisional point
        and its marker; a click elsewhere changes nothing. */
    method OnClick(inImage: bool, data: Option<(real, real)>)
      modifies this`lastClick, this`temp
      ensures !inImage || data.None? ==> lastClick == old(lastClick) && temp == old(temp)
      ensures inImage && data.Some? ==>
                lastClick == data && temp == Some(TempMarker(data.value.0, data.value.1))
    {
      if !inImage || data.None? {
        return;
      }
      lastClick := data;
      temp := Some(TempMarker(data.value.0, data.value.1));
    }

    /** `on_add`: needs a provisional point and a non-empty id not yet used;
        then the point is added with its marker, the provisional marker is
        cleared and, when the id reads as an integer, the box proposes the next one. */
    method OnAdd() returns (message: Option<string>)
      requires Valid()
      modifies this`points, this`drawn, this`lastClick, this`temp, this`nextId, this`idText
      ensures Valid()
      ensures old(lastClick).None? ==> message == Some(NoClickMessage)
      ensures old(lastClick).Some? && PyStrip(old(idText)) == "" ==> message == Some(EmptyIdMessage)
      ensures old(lastClick).Some? && PyStrip(old(idText)) != "" && HasId(old(points), PyStrip(old(idText))) ==>
                message == Some(DuplicatePrefix + PyStrip(old(idText)))
      ensures message.Some? ==> points == old(points) && lastClick == old(lastClick) && temp == old(temp)
                                && nextId == old(nextId) && idText == old(idText)
      ensures message.None? ==> old(lastClick).Some? && PyStrip(old(idText)) != "" && !HasId(old(points), PyStrip(old(idText)))
      ensures message.None? ==> points == old(points) + [Point(PyStrip(old(idText)), old(lastClick).value.0, old(lastClick).value.1)]
      ensures message.None? ==> lastClick.None? && temp.None?
      ensures message.None? && PyInt(PyStrip(old(idText))).Some? ==>
                nextId == PyInt(PyStrip(old(idText))).value + 1 && idText == IntToString(nextId)
      ensures message.None? && PyInt(PyStrip(old(idText))).None? ==> nextId == old(nextId) && idText == old(idText)
    {
      if lastClick.None? {
        return Some(NoClickMessage);
      }
      var sid := PyStrip(idText);
      if sid == "" {
        return Some(EmptyIdMessage);
      }
      if HasId(points, sid) {
        return Some(DuplicatePrefix + sid);
      }
      var p := Point(sid, lastClick.value.0, lastClick.value.1);
      points := points + [p];
      drawn := drawn + [PointMarker(p)];
      temp := None;
      lastClick := None;
      ProposeNextId(sid);
      message := None;
    }

    /** The auto-increment step of `on_add`: when the id reads as an integer,
        the box proposes the next one; otherwise nothing changes. */
    method ProposeNextId(sid: string)
      modifies this`nextId, this`idText
      ensures PyInt(sid).Some? ==> nextId == PyInt(sid).value + 1 && idText == IntToString(nextId)
      ensures PyInt(sid).None? ==> nextId == old(nextId) && idText == old(idText)
    {
      var n := PyInt(sid);
      if n.Some? {
        nextId := n.value + 1;
        idText := IntToString(nextId);
      }
    }

    /** `on_undo`: removes the last point and its marker, if any. */
    method OnUndo()
      requires Valid()
      modifies this`points, this`drawn
      ensures Valid()
      ensures old(points) == [] ==> points == [] && drawn == old(drawn)
      ensures old(points) != [] ==> points == old(points)[..|old(points)| - 1] && drawn == old(drawn)[..|old(drawn)| - 1]
    {
      if points == [] {
        return;
      }
      points := points[..|points| - 1];
      drawn := drawn[..|drawn| - 1];
    }

    /** `on_save`: nothing to write without points; otherwise the header and
        one row per point, in order, to the output file, then a confirmation
        naming the file by its absolute path (resolved by the file system). */
    method OnSave(absolutePath: string) returns (file: Option<CsvFile>, message: string)
      ensures points == [] ==> file.None? && message == NothingToSaveMessage
      ensures points != [] ==> file == Some(CsvFile(outCsv, CsvHeader, Rows(points)))
                               && message == SavedPrefix + absolutePath
    {
      if points == [] {
        return None, NothingToSaveMessage;
      }
      file := Some(CsvFile(outCsv, CsvHeader, Rows(points)));
      message := SavedPrefix + absolutePath;
    }
  }
}
