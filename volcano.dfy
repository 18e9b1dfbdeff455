/** `volcano_plot`: classifies every (fold change, p-value) pair of a result table
    as UP, DOWN or NOT SIG per data source, keeps a label per point, places the
    labels at their points and picks where the figure goes. */
module Volcano {
  import opened Results
  import opened Builtins
  import PosixPath

  /** The gene-label entry that asks for every significant point to be labelled. */
  const AllSignificant: string := "<all_significant>"

  /** A plotted point: log2 fold change and -log10 p-value. */
  datatype Point = Point(x: real, y: real)

  /** A gene id, or Python's None for a point drawn without a label. */
  type Label = Option<string>

  datatype Source = Negative | Positive

  datatype Category = Up | Down | NotSig

  /** One classified point, in the order the row loop produces them. */
  datatype Event = Event(src: Source, id: string, cat: Category, at: Point, name: Label)

  /** Positions of the five required columns in the header. */
  datatype Columns = Columns(xNeg: nat, yNeg: nat, xPos: nat, yPos: nat, id: nat)

  /** The user's choices: `src_data`, `genes_label`, `thr_x` and `thr_y`. */
  datatype Params = Params(srcData: seq<string>, genesLabel: seq<string>, thrX: real, thrY: real)

  /** The six lists the row loop appends to. */
  datatype Buckets = Buckets(
    up: seq<Point>, upId: seq<Label>,
    down: seq<Point>, downId: seq<Label>,
    notSig: seq<Point>, notSigId: seq<Label>)

  /** A text placed on the axes: its position and its string (None draws an empty text). */
  datatype Text = Text(at: Point, s: Label)

  /** Where the figure goes: an in-memory image, or a file at `path`. */
  datatype Target = InMemoryImage | SavedTo(path: string)

  /** What a call draws and returns: the classified points, the label texts, the
      figure's title and where the figure goes. */
  datatype Plot = Plot(buckets: Buckets, texts: seq<Text>, title: Option<string>, target: Target)

  const NoBuckets := Buckets([], [], [], [], [], [])

  /** The header names in the order `volcano_plot` looks them up. */
  const Required: seq<string> := ["neg|lfc", "neg|p-value", "pos|lfc", "pos|p-value", "id"]

  // ---------------------------------------------------------------------------
  // Header lookup

  function Lookup(header: seq<string>, name: string): (r: Result<nat>)
    ensures r.Ok? <==> name in header
    ensures r.Ok? ==> r.value < |header| && header[r.value] == name && name !in header[..r.value]
    ensures r.Err? ==> r.error == MissingColumn(name)
  {
    match IndexOf(header, name)
    case None => Err(MissingColumn(name))
    case Some(i) => Ok(i)
  }

  /** `header.index(n)` for each `n` of `names` in turn: every position is the first
      holding its name, and the first name missing is the error. */
  function LookupAll(header: seq<string>, names: seq<string>): (r: Result<seq<nat>>)
    ensures r.Ok? <==> forall k :: 0 <= k < |names| ==> names[k] in header
    ensures r.Ok? ==> |r.value| == |names| && forall k :: 0 <= k < |names| ==>
      (r.value[k] < |header| && header[r.value[k]] == names[k] && names[k] !in header[..r.value[k]])
    ensures r.Err? ==> exists k :: (0 <= k < |names| && r.error == MissingColumn(names[k])
      && names[k] !in header && (forall j :: 0 <= j < k ==> names[j] in header))
  {
    if names == [] then Ok([])
    else
      var i :- Lookup(header, names[0]);
      var rest := LookupAll(header, names[1..]);
      if rest.Err? then
        assert forall k :: 0 <= k < |names| - 1 ==> names[1..][k] == names[k + 1];
        Err(rest.error)
      else Ok([i] + rest.value)
  }

  /** The five lookups of `volcano_plot`, in its order. */
  function FindColumns(header: seq<string>): (r: Result<Columns>)
    ensures r.Ok? <==> forall k :: 0 <= k < |Required| ==> Required[k] in header
    ensures r.Ok? ==>
      var c := r.value;
      && c.xNeg < |header| && header[c.xNeg] == "neg|lfc" && "neg|lfc" !in header[..c.xNeg]
      && c.yNeg < |header| && header[c.yNeg] == "neg|p-value" && "neg|p-value" !in header[..c.yNeg]
      && c.xPos < |header| && header[c.xPos] == "pos|lfc" && "pos|lfc" !in header[..c.xPos]
      && c.yPos < |header| && header[c.yPos] == "pos|p-value" && "pos|p-value" !in header[..c.yPos]
      && c.id < |header| && header[c.id] == "id" && "id" !in header[..c.id]
    ensures r.Err? ==> exists k :: (0 <= k < |Required| && r.error == MissingColumn(Required[k])
      && Required[k] !in header && (forall j :: 0 <= j < k ==> Required[j] in header))
  {
    var ix :- LookupAll(header, Required);
    Ok(Columns(ix[0], ix[1], ix[2], ix[3], ix[4]))
  }

  // ---------------------------------------------------------------------------
  // Reading one point of a row

  /** `row[i]`. */
  function Cell(row: seq<string>, i: nat): (r: Result<string>)
    ensures r.Ok? <==> i < |row|
    ensures r.Ok? ==> r.value == row[i]
    ensures r.Err? ==> r.error == IndexOutOfRange
  {
    if i < |row| then Ok(row[i]) else Err(IndexOutOfRange)
  }

  /** `float(row[i])`, with `num` standing for Python's `float` on strings. */
  function ReadFloat(row: seq<string>, i: nat, num: string -> Option<real>): (r: Result<real>)
    ensures r.Ok? <==> i < |row| && num(row[i]).Some?
    ensures r.Ok? ==> r.value == num(row[i]).value
    ensures i >= |row| ==> r == Err(IndexOutOfRange)
    ensures i < |row| && num(row[i]).None? ==> r == Err(NotAFloat(row[i]))
  {
    var s :- Cell(row, i);
    match num(s)
    case None => Err(NotAFloat(s))
    case Some(v) => Ok(v)
  }

  /** `x = float(row[ix])`, then `y = -1 * math.log10(float(row[iy]))`, with `negLog10`
      standing for `-log10` on positive reals. The x cell is read first, so its error
      wins; a p-value that reads but is not positive is a math domain error. */
  function ReadPoint(row: seq<string>, ix: nat, iy: nat, num: string -> Option<real>,
                     negLog10: real -> real): (r: Result<Point>)
    ensures r.Ok? <==> (ReadFloat(row, ix, num).Ok? && ReadFloat(row, iy, num).Ok?
      && ReadFloat(row, iy, num).value > 0.0)
    ensures r.Ok? ==>
      r.value == Point(ReadFloat(row, ix, num).value, negLog10(ReadFloat(row, iy, num).value))
    ensures ReadFloat(row, ix, num).Err? ==> r == Err(ReadFloat(row, ix, num).error)
    ensures (ReadFloat(row, ix, num).Ok? && ReadFloat(row, iy, num).Err?) ==>
      r == Err(ReadFloat(row, iy, num).error)
    ensures (ReadFloat(row, ix, num).Ok? && ReadFloat(row, iy, num).Ok?
      && ReadFloat(row, iy, num).value <= 0.0) ==> r == Err(MathDomainError)
  {
    var x :- ReadFloat(row, ix, num);
    var p :- ReadFloat(row, iy, num);
    if p <= 0.0 then Err(MathDomainError) else Ok(Point(x, negLog10(p)))
  }

  function XColumn(cols: Columns, s: Source): nat
  {
    match s
    case Negative => cols.xNeg
    case Positive => cols.xPos
  }

  function YColumn(cols: Columns, s: Source): nat
  {
    match s
    case Negative => cols.yNeg
    case Positive => cols.yPos
  }

  // ---------------------------------------------------------------------------
  // Classification and labelling of one point

  /** The strict threshold tests: a Negative point is DOWN and a Positive point UP
      when it lies beyond both thresholds; every other point is NOT SIG. */
  function Classify(s: Source, p: Point, thrX: real, thrY: real): (r: Category)
    ensures r == Down <==> s == Negative && p.y > thrY && p.x < -thrX
    ensures r == Up <==> s == Positive && p.y > thrY && p.x > thrX
  {
    match s
    case Negative => if p.y > thrY && p.x < -thrX then Down else NotSig
    case Positive => if p.y > thrY && p.x > thrX then Up else NotSig
  }

  /** A significant point is labelled when its id is listed or the sentinel is;
      a NOT SIG point only when its own id is listed. */
  function LabelFor(cat: Category, id: string, genesLabel: seq<string>): (r: Label)
    ensures r.Some? ==> r.value == id
    ensures r.Some? <==> id in genesLabel || (cat != NotSig && AllSignificant in genesLabel)
  {
    if cat != NotSig then
      if id in genesLabel || AllSignificant in genesLabel then Some(id) else None
    else
      if id in genesLabel then Some(id) else None
  }

  /** The rules every classified point obeys. */
  predicate Obeys(e: Event, params: Params)
  {
    && (e.src == Negative ==>
          e.cat != Up && (e.cat == Down <==> e.at.y > params.thrY && e.at.x < -params.thrX))
    && (e.src == Positive ==>
          e.cat != Down && (e.cat == Up <==> e.at.y > params.thrY && e.at.x > params.thrX))
    && (e.name.Some? ==> e.name.value == e.id)
    && (e.name.Some? <==>
          e.id in params.genesLabel || (e.cat != NotSig && AllSignificant in params.genesLabel))
  }

  function MakeEvent(s: Source, id: string, p: Point, params: Params): (e: Event)
    ensures e.src == s && e.id == id && e.at == p
    ensures Obeys(e, params)
  {
    var cat := Classify(s, p, params.thrX, params.thrY);
    Event(s, id, cat, p, LabelFor(cat, id, params.genesLabel))
  }

  // ---------------------------------------------------------------------------
  // The events of a table

  /** The sources the row loop visits, in its order: `'Negative' in src_data`
      first, then `'Positive' in src_data`. */
  function Selected(srcData: seq<string>): (r: seq<Source>)
    ensures Negative in r <==> "Negative" in srcData
    ensures Positive in r <==> "Positive" in srcData
    ensures |r| <= 2 && (|r| == 2 ==> r == [Negative, Positive])
  {
    (if "Negative" in srcData then [Negative] else [])
    + (if "Positive" in srcData then [Positive] else [])
  }

  function SourceEvent(row: seq<string>, id: string, cols: Columns, s: Source, params: Params,
                       num: string -> Option<real>, negLog10: real -> real): Result<Event>
  {
    var p :- ReadPoint(row, XColumn(cols, s), YColumn(cols, s), num, negLog10);
    Ok(MakeEvent(s, id, p, params))
  }

  /** The entry of `src_data` that selects a source. */
  function SourceName(s: Source): string
  {
    match s
    case Negative => "Negative"
    case Positive => "Positive"
  }

  /** The point a row contributes for source `s`, if `s` is selected. */
  function SourcePart(row: seq<string>, id: string, cols: Columns, s: Source, params: Params,
                      num: string -> Option<real>, negLog10: real -> real): Result<seq<Event>>
  {
    if SourceName(s) in params.srcData then
      var e :- SourceEvent(row, id, cols, s, params, num, negLog10);
      Ok([e])
    else Ok([])
  }

  /** The points one row contributes: its id is read first, then one point per
      selected source; the first failure is the row's error. */
  function RowEvents(row: seq<string>, cols: Columns, params: Params,
                     num: string -> Option<real>, negLog10: real -> real): (r: Result<seq<Event>>)
    ensures cols.id >= |row| ==> r == Err(IndexOutOfRange)
    ensures r.Ok? <==> cols.id < |row| && forall s :: s in Selected(params.srcData) ==>
      ReadPoint(row, XColumn(cols, s), YColumn(cols, s), num, negLog10).Ok?
    ensures r.Ok? ==> |r.value| == |Selected(params.srcData)|
    ensures (cols.id < |row| && "Negative" in params.srcData
             && ReadPoint(row, cols.xNeg, cols.yNeg, num, negLog10).Err?) ==>
      r == Err(ReadPoint(row, cols.xNeg, cols.yNeg, num, negLog10).error)
    ensures (cols.id < |row|
             && ("Negative" !in params.srcData || ReadPoint(row, cols.xNeg, cols.yNeg, num, negLog10).Ok?)
             && "Positive" in params.srcData && ReadPoint(row, cols.xPos, cols.yPos, num, negLog10).Err?) ==>
      r == Err(ReadPoint(row, cols.xPos, cols.yPos, num, negLog10).error)
  {
    assert "Negative" in params.srcData ==> Negative in Selected(params.srcData);
    assert "Positive" in params.srcData ==> Positive in Selected(params.srcData);
    if cols.id >= |row| then Err(IndexOutOfRange)
    else
      var id := row[cols.id];
      var neg :- SourcePart(row, id, cols, Negative, params, num, negLog10);
      var pos :- SourcePart(row, id, cols, Positive, params, num, negLog10);
      Ok(neg + pos)
  }

  /** The points of all rows in row order; the first failing row's error otherwise. */
  function Events(rows: seq<seq<string>>, cols: Columns, params: Params,
                  num: string -> Option<real>, negLog10: real -> real): (r: Result<seq<Event>>)
    ensures r.Ok? <==> forall k :: 0 <= k < |rows| ==> RowEvents(rows[k], cols, params, num, negLog10).Ok?
  {
    if rows == [] then Ok([])
    else
      var before :- Events(rows[..|rows| - 1], cols, params, num, negLog10);
      var last :- RowEvents(rows[|rows| - 1], cols, params, num, negLog10);
      Ok(before + last)
  }

  /** A row that reads without error gives one point per selected source, in the
      order of `Selected`: each carries the row's id, the point read from the
      source's columns, and a category and label that obey the rules. */
  lemma RowEventsShape(row: seq<string>, cols: Columns, params: Params,
                       num: string -> Option<real>, negLog10: real -> real)
    requires RowEvents(row, cols, params, num, negLog10).Ok?
    ensures cols.id < |row|
    ensures var evs := RowEvents(row, cols, params, num, negLog10).value;
      && |evs| == |Selected(params.srcData)|
      && forall j :: 0 <= j < |evs| ==>
           && evs[j].src == Selected(params.srcData)[j] && evs[j].id == row[cols.id]
           && Obeys(evs[j], params)
           && ReadPoint(row, XColumn(cols, evs[j].src), YColumn(cols, evs[j].src), num, negLog10)
              == Ok(evs[j].at)
  {
  }

  /** Kept apart so that the nonlinear step does not meet the definitions above. */
  lemma MulSucc(m: nat, n: nat)
    ensures m * n + n == (m + 1) * n
  {
  }

  /** Every row contributes exactly one point per selected source. */
  lemma {:induction false} EventsCount(rows: seq<seq<string>>, cols: Columns, params: Params,
                                       num: string -> Option<real>, negLog10: real -> real)
    requires Events(rows, cols, params, num, negLog10).Ok?
    ensures |Events(rows, cols, params, num, negLog10).value| == |rows| * |Selected(params.srcData)|
  {
    if rows != [] {
      var init := rows[..|rows| - 1];
      var before := Events(init, cols, params, num, negLog10).value;
      var last := RowEvents(rows[|rows| - 1], cols, params, num, negLog10).value;
      assert Events(rows, cols, params, num, negLog10).value == before + last;
      EventsCount(init, cols, params, num, negLog10);
      RowEventsShape(rows[|rows| - 1], cols, params, num, negLog10);
      var n, m := |Selected(params.srcData)|, |init|;
      assert |before| == m * n && |last| == n;
      MulSucc(m, n);
    }
  }

  /** Every point of the table comes from a selected source and obeys the
      classification and labelling rules. */
  lemma {:induction false} EventsObey(rows: seq<seq<string>>, cols: Columns, params: Params,
                                      num: string -> Option<real>, negLog10: real -> real)
    requires Events(rows, cols, params, num, negLog10).Ok?
    ensures forall e :: e in Events(rows, cols, params, num, negLog10).value ==>
      Obeys(e, params) && e.src in Selected(params.srcData)
  {
    if rows != [] {
      var init := rows[..|rows| - 1];
      EventsObey(init, cols, params, num, negLog10);
      RowEventsShape(rows[|rows| - 1], cols, params, num, negLog10);
      var last := RowEvents(rows[|rows| - 1], cols, params, num, negLog10).value;
      assert forall e :: e in last ==> exists j :: 0 <= j < |last| && last[j] == e;
    }
  }

  /** The rows up to `k` fail with row `k`'s error, or extend the points before it. */
  lemma EventsExtend(rows: seq<seq<string>>, k: nat, cols: Columns, params: Params,
                     num: string -> Option<real>, negLog10: real -> real)
    requires k < |rows| && Events(rows[..k], cols, params, num, negLog10).Ok?
    ensures var before, row := Events(rows[..k], cols, params, num, negLog10).value,
                               RowEvents(rows[k], cols, params, num, negLog10);
      Events(rows[..k + 1], cols, params, num, negLog10)
        == if row.Ok? then Ok(before + row.value) else Err(row.error)
  {
    assert rows[..k + 1][..k] == rows[..k];
  }

  /** Once a prefix of the rows fails, the whole table fails with the same error. */
  lemma {:induction false} EventsFailFrom(rows: seq<seq<string>>, k: nat, cols: Columns,
                                          params: Params, num: string -> Option<real>,
                                          negLog10: real -> real)
    requires k <= |rows| && Events(rows[..k], cols, params, num, negLog10).Err?
    ensures Events(rows, cols, params, num, negLog10) == Events(rows[..k], cols, params, num, negLog10)
  {
    if k < |rows| {
      var init := rows[..|rows| - 1];
      assert init[..k] == rows[..k];
      EventsFailFrom(init, k, cols, params, num, negLog10);
    } else {
      assert rows[..k] == rows;
    }
  }

  /** The point for row `k` and the `j`-th selected source sits at position
      `k * n + j`, `n` being the number of selected sources: rows in order, and
      within a row Negative before Positive. */
  lemma {:induction false} EventAt(rows: seq<seq<string>>, k: nat, j: nat, cols: Columns,
                                   params: Params, num: string -> Option<real>,
                                   negLog10: real -> real)
    requires Events(rows, cols, params, num, negLog10).Ok?
    requires k < |rows| && j < |Selected(params.srcData)|
    ensures RowEvents(rows[k], cols, params, num, negLog10).Ok?
    ensures var n := |Selected(params.srcData)|;
      k * n + j < |Events(rows, cols, params, num, negLog10).value|
      && Events(rows, cols, params, num, negLog10).value[k * n + j]
         == RowEvents(rows[k], cols, params, num, negLog10).value[j]
  {
    var n := |Selected(params.srcData)|;
    var init := rows[..|rows| - 1];
    var before := Events(init, cols, params, num, negLog10).value;
    EventsCount(init, cols, params, num, negLog10);
    RowEventsShape(rows[|rows| - 1], cols, params, num, negLog10);
    if k < |rows| - 1 {
      EventAt(init, k, j, cols, params, num, negLog10);
      assert init[k] == rows[k];
    } else {
      assert k * n == |before|;
    }
  }

  // ---------------------------------------------------------------------------
  // Bookkeeping: the six lists

  /** The events of category `c`, in order. */
  function Only(evs: seq<Event>, c: Category): (r: seq<Event>)
    ensures forall e :: e in r ==> e in evs && e.cat == c
  {
    if evs == [] then []
    else Only(evs[..|evs| - 1], c) + (if evs[|evs| - 1].cat == c then [evs[|evs| - 1]] else [])
  }

  function PointsOf(evs: seq<Event>): (r: seq<Point>)
    ensures |r| == |evs| && forall i :: 0 <= i < |evs| ==> r[i] == evs[i].at
  {
    seq(|evs|, i requires 0 <= i < |evs| => evs[i].at)
  }

  function LabelsOf(evs: seq<Event>): (r: seq<Label>)
    ensures |r| == |evs| && forall i :: 0 <= i < |evs| ==> r[i] == evs[i].name
  {
    seq(|evs|, i requires 0 <= i < |evs| => evs[i].name)
  }

  /** Category `c` of the lists: every point of that category in order, its label
      at the same index. */
  function BucketOf(b: Buckets, c: Category): (seq<Point>, seq<Label>)
  {
    match c
    case Up => (b.up, b.upId)
    case Down => (b.down, b.downId)
    case NotSig => (b.notSig, b.notSigId)
  }

  /** Appending a point and its label to the lists of its category; the other
      categories are unchanged. */
  function Add(b: Buckets, e: Event): (r: Buckets)
    ensures BucketOf(r, e.cat) == (BucketOf(b, e.cat).0 + [e.at], BucketOf(b, e.cat).1 + [e.name])
    ensures forall c :: c != e.cat ==> BucketOf(r, c) == BucketOf(b, c)
  {
    match e.cat
    case Up => b.(up := b.up + [e.at], upId := b.upId + [e.name])
    case Down => b.(down := b.down + [e.at], downId := b.downId + [e.name])
    case NotSig => b.(notSig := b.notSig + [e.at], notSigId := b.notSigId + [e.name])
  }

  /** The six lists after the loop, label lists kept aligned with point lists: each
      point list holds the points of its category in order, and the label list at
      the same index holds that point's label. */
  function Bucket(evs: seq<Event>): (r: Buckets)
    ensures forall c :: |BucketOf(r, c).0| == |BucketOf(r, c).1|
  {
    if evs == [] then NoBuckets
    else Add(Bucket(evs[..|evs| - 1]), evs[|evs| - 1])
  }

  lemma BucketSnoc(evs: seq<Event>, e: Event)
    ensures Bucket(evs + [e]) == Add(Bucket(evs), e)
  {
    assert (evs + [e])[..|evs|] == evs;
  }

  lemma OnlySnoc(evs: seq<Event>, e: Event, c: Category)
    ensures Only(evs + [e], c) == Only(evs, c) + (if e.cat == c then [e] else [])
  {
    assert (evs + [e])[..|evs|] == evs;
  }

  lemma ColumnsSnoc(evs: seq<Event>, e: Event)
    ensures PointsOf(evs + [e]) == PointsOf(evs) + [e.at]
    ensures LabelsOf(evs + [e]) == LabelsOf(evs) + [e.name]
  {
  }

  /** The lists after the loop, label lists aligned with point lists: each point
      list holds the points of its category in order, and the label list holds,
      at the same index, that point's label. */
  lemma {:induction false} BucketContents(evs: seq<Event>, c: Category)
    ensures BucketOf(Bucket(evs), c) == (PointsOf(Only(evs, c)), LabelsOf(Only(evs, c)))
  {
    if evs != [] {
      var init, e := evs[..|evs| - 1], evs[|evs| - 1];
      assert evs == init + [e];
      BucketContents(init, c);
      BucketSnoc(init, e);
      OnlySnoc(init, e, c);
      if e.cat == c {
        ColumnsSnoc(Only(init, c), e);
      } else {
        assert Only(evs, c) == Only(init, c);
      }
    }
  }

  /** Every point has exactly one category. */
  lemma {:induction false} OnlySizes(evs: seq<Event>)
    ensures |Only(evs, Up)| + |Only(evs, Down)| + |Only(evs, NotSig)| == |evs|
  {
    if evs != [] {
      OnlySizes(evs[..|evs| - 1]);
    }
  }

  /** `len(up) + len(down) + len(not_sig)` is the number of classified points. */
  lemma BucketSizes(evs: seq<Event>)
    ensures var b := Bucket(evs); |b.up| + |b.down| + |b.notSig| == |evs|
  {
    BucketContents(evs, Up);
    BucketContents(evs, Down);
    BucketContents(evs, NotSig);
    OnlySizes(evs);
  }

  /** The three point lists together hold one point per row and selected source. */
  lemma PointCount(rows: seq<seq<string>>, cols: Columns, params: Params,
                   num: string -> Option<real>, negLog10: real -> real)
    requires Events(rows, cols, params, num, negLog10).Ok?
    ensures var b := Bucket(Events(rows, cols, params, num, negLog10).value);
      |b.up| + |b.down| + |b.notSig| == |rows| * |Selected(params.srcData)|
  {
    EventsCount(rows, cols, params, num, negLog10);
    BucketSizes(Events(rows, cols, params, num, negLog10).value);
  }

  /** The loop as written at the unlabelled UP branch: the point goes to `up` but its
      None goes to `down_id`. Every other point is appended as `Add` does. */
  function AddAsWritten(b: Buckets, e: Event): (r: Buckets)
    ensures !(e.cat == Up && e.name.None?) ==> r == Add(b, e)
    ensures e.cat == Up && e.name.None? ==>
      r == Add(b, e).(upId := b.upId, downId := b.downId + [None])
  {
    if e.cat == Up && e.name.None? then b.(up := b.up + [e.at], downId := b.downId + [None])
    else Add(b, e)
  }

  /** The six lists as the loop as written leaves them: every label lands in `up_id`
      or `down_id` when its point is UP or DOWN, though not always in the right one. */
  function BucketAsWritten(evs: seq<Event>): (r: Buckets)
    ensures |r.upId| + |r.downId| == |r.up| + |r.down|
    ensures |r.notSigId| == |r.notSig|
  {
    if evs == [] then NoBuckets
    else AddAsWritten(BucketAsWritten(evs[..|evs| - 1]), evs[|evs| - 1])
  }

  /** The labels that are not None, in order. */
  function Named(ls: seq<Label>): (r: seq<Label>)
    ensures |r| <= |ls| && forall l :: l in r ==> l.Some? && l in ls
  {
    if ls == [] then []
    else Named(ls[..|ls| - 1]) + (if ls[|ls| - 1].Some? then [ls[|ls| - 1]] else [])
  }

  function CountNone(ls: seq<Label>): (r: nat)
    ensures r + |Named(ls)| == |ls|
  {
    if ls == [] then 0
    else CountNone(ls[..|ls| - 1]) + (if ls[|ls| - 1].None? then 1 else 0)
  }

  lemma NamedSnoc(ls: seq<Label>, l: Label)
    ensures Named(ls + [l]) == Named(ls) + (if l.Some? then [l] else [])
    ensures CountNone(ls + [l]) == CountNone(ls) + (if l.None? then 1 else 0)
  {
    assert (ls + [l])[..|ls|] == ls;
  }

  /** How the as-written lists `w` stand to the aligned lists `b`: the point lists and
      NOT SIG labels agree, `up_id` keeps only the named UP labels, and `down_id`
      holds one extra None per unlabelled UP point, its named labels unchanged. */
  ghost predicate Misfiled(w: Buckets, b: Buckets)
  {
    && w.up == b.up && w.down == b.down && w.notSig == b.notSig && w.notSigId == b.notSigId
    && w.upId == Named(b.upId)
    && |w.downId| == |b.downId| + CountNone(b.upId)
    && Named(w.downId) == Named(b.downId)
  }

  lemma MisfiledStep(w: Buckets, b: Buckets, e: Event)
    requires Misfiled(w, b)
    ensures Misfiled(AddAsWritten(w, e), Add(b, e))
  {
    NamedSnoc(b.upId, e.name);
    NamedSnoc(b.downId, e.name);
    NamedSnoc(w.downId, e.name);
    NamedSnoc(w.upId, e.name);
    if e.cat == Up && e.name.None? {
      NamedSnoc(w.downId, None);
    }
  }

  /** What the as-written loop leaves, against the aligned lists. */
  lemma {:induction false} AsWrittenAgainstCorrected(evs: seq<Event>)
    ensures Misfiled(BucketAsWritten(evs), Bucket(evs))
  {
    if evs != [] {
      var init, e := evs[..|evs| - 1], evs[|evs| - 1];
      AsWrittenAgainstCorrected(init);
      MisfiledStep(BucketAsWritten(init), Bucket(init), e);
    }
  }

  lemma {:induction false} OnlyAbsent(evs: seq<Event>, c: Category)
    requires forall e :: e in evs ==> e.cat != c
    ensures Only(evs, c) == []
  {
    if evs != [] {
      var init := evs[..|evs| - 1];
      assert forall e :: e in init ==> e in evs;
      OnlyAbsent(init, c);
      assert evs[|evs| - 1] in evs;
    }
  }

  /** Without UP points the as-written lists are the aligned ones. */
  lemma {:induction false} AsWrittenWithoutUp(evs: seq<Event>)
    requires forall e :: e in evs ==> e.cat != Up
    ensures BucketAsWritten(evs) == Bucket(evs)
  {
    if evs != [] {
      var init := evs[..|evs| - 1];
      assert forall e :: e in init ==> e in evs;
      AsWrittenWithoutUp(init);
      assert evs[|evs| - 1] in evs;
    }
  }

  /** With only "Negative" selected, `len(down_id) == len(down)` and
      `len(not_sig_id) == len(not_sig)`: the as-written lists stay aligned. */
  lemma NegativeOnlyAligned(rows: seq<seq<string>>, cols: Columns, params: Params,
                            num: string -> Option<real>, negLog10: real -> real)
    requires "Positive" !in params.srcData
    requires Events(rows, cols, params, num, negLog10).Ok?
    ensures var w := BucketAsWritten(Events(rows, cols, params, num, negLog10).value);
      |w.downId| == |w.down| && |w.notSigId| == |w.notSig| && w.up == [] && w.upId == []
  {
    var evs := Events(rows, cols, params, num, negLog10).value;
    EventsObey(rows, cols, params, num, negLog10);
    assert forall e :: e in evs ==> e.cat != Up;
    AsWrittenWithoutUp(evs);
    OnlyAbsent(evs, Up);
    BucketContents(evs, Up);
    BucketContents(evs, Down);
    BucketContents(evs, NotSig);
  }

  // ---------------------------------------------------------------------------
  // Label placement

  /** The placement loop can index the label list at every point index: it has
      no points, no labels (the loop is skipped), or at least as many labels. */
  predicate Placeable(points: seq<Point>, ids: seq<Label>)
  {
    points == [] || ids == [] || |points| <= |ids|
  }

  /** The texts the placement loop adds: label `i` at point `i`. */
  function Drawn(points: seq<Point>, ids: seq<Label>): (r: seq<Text>)
    requires Placeable(points, ids)
    ensures ids == [] ==> r == []
    ensures ids != [] ==> |r| == |points| && forall i :: 0 <= i < |points| ==> r[i].at == points[i] && r[i].s == ids[i]
  {
    if ids == [] then [] else seq(|points|, i requires 0 <= i < |points| => Text(points[i], ids[i]))
  }

  /** One of the loops `for i in range(len(pts)): if ids: text.append(ax.text(pts[i], ids[i]))`,
      run only when the point list is not empty. */
  method PlaceLabels(points: seq<Point>, ids: seq<Label>) returns (r: Result<seq<Text>>)
    ensures r.Ok? <==> Placeable(points, ids)
    ensures r.Err? ==> r.error == IndexOutOfRange
    ensures r.Ok? && ids != [] ==> (|r.value| == |points|
      && forall i :: 0 <= i < |points| ==> r.value[i] == Text(points[i], ids[i]))
    ensures r.Ok? && ids == [] ==> r.value == []
  {
    var text: seq<Text> := [];
    if |points| > 0 {
      for i := 0 to |points|
        invariant ids == [] ==> text == []
        invariant ids != [] ==> (i <= |ids| && |text| == i
          && forall k :: 0 <= k < i ==> text[k] == Text(points[k], ids[k]))
      {
        if ids != [] {
          if i >= |ids| {
            return Err(IndexOutOfRange);
          }
          text := text + [Text(points[i], ids[i])];
        }
      }
    }
    return Ok(text);
  }

  /** The three placement loops, UP then DOWN then NOT SIG, into one text list. */
  method PlaceAll(b: Buckets) returns (r: Result<seq<Text>>)
    ensures r.Ok? <==>
      Placeable(b.up, b.upId) && Placeable(b.down, b.downId) && Placeable(b.notSig, b.notSigId)
    ensures r.Ok? ==> r.value == Drawn(b.up, b.upId) + Drawn(b.down, b.downId)
                                 + Drawn(b.notSig, b.notSigId)
  {
    var ups :- PlaceLabels(b.up, b.upId);
    var downs :- PlaceLabels(b.down, b.downId);
    var others :- PlaceLabels(b.notSig, b.notSigId);
    return Ok(ups + downs + others);
  }

  /** With aligned lists every placement loop succeeds and every text carries its
      own point's label at that point. */
  lemma AlignedLabelsAtOwnPoints(evs: seq<Event>, c: Category)
    ensures var (points, ids) := BucketOf(Bucket(evs), c);
      var pick := Only(evs, c);
      && Placeable(points, ids)
      && (ids == [] || Drawn(points, ids) == seq(|pick|, i requires 0 <= i < |pick| => Text(pick[i].at, pick[i].name)))
  {
    BucketContents(evs, c);
  }

  /** A table of two rows whose rows both read: their points, first row first. */
  lemma TwoRows(r0: seq<string>, r1: seq<string>, cols: Columns, params: Params,
                num: string -> Option<real>, negLog10: real -> real)
    requires RowEvents(r0, cols, params, num, negLog10).Ok?
    requires RowEvents(r1, cols, params, num, negLog10).Ok?
    ensures Events([r0, r1], cols, params, num, negLog10)
         == Ok(RowEvents(r0, cols, params, num, negLog10).value
               + RowEvents(r1, cols, params, num, negLog10).value)
  {
    assert [r0, r1][..1] == [r0] && [r0][..0] == [];
    assert Events([r0][..0], cols, params, num, negLog10) == Ok([]);
    assert [] + RowEvents(r0, cols, params, num, negLog10).value
        == RowEvents(r0, cols, params, num, negLog10).value;
    assert Events([r0], cols, params, num, negLog10) == Ok(RowEvents(r0, cols, params, num, negLog10).value);
  }

  lemma AsWrittenSnoc(evs: seq<Event>, e: Event)
    ensures BucketAsWritten(evs + [e]) == AddAsWritten(BucketAsWritten(evs), e)
  {
    assert (evs + [e])[..|evs|] == evs;
  }

  /** A counterexample for the loop as written. With only "Positive" selected,
      "geneB" listed and thresholds 1.0 and 1.3, row geneA (pos|lfc 2.0, pos|p-value
      0.001) is UP without a label and row geneB (pos|lfc 3.0, pos|p-value 0.0001)
      is UP with one. `up` gets two points but `up_id` one label, so the UP placement
      loop raises IndexError after drawing "geneB" at geneA's point; the aligned lists
      draw both points with their own labels. */
  lemma MisfiledUpLabel(num: string -> Option<real>, negLog10: real -> real)
    requires num("2.0") == Some(2.0) && num("0.001") == Some(0.001)
    requires num("3.0") == Some(3.0) && num("0.0001") == Some(0.0001)
    requires negLog10(0.001) == 3.0 && negLog10(0.0001) == 4.0
    ensures var evs := Events([["geneA", "0.0", "1.0", "2.0", "0.001"],
                               ["geneB", "0.0", "1.0", "3.0", "0.0001"]],
                              Columns(1, 2, 3, 4, 0), Params(["Positive"], ["geneB"], 1.0, 1.3),
                              num, negLog10);
      && evs.Ok?
      && var w, b := BucketAsWritten(evs.value), Bucket(evs.value);
      && w.up == [Point(2.0, 3.0), Point(3.0, 4.0)] && w.upId == [Some("geneB")]
      && w.downId == [None]
      && !Placeable(w.up, w.upId)
      && Placeable(b.up, b.upId)
      && Drawn(b.up, b.upId) == [Text(Point(2.0, 3.0), None), Text(Point(3.0, 4.0), Some("geneB"))]
  {
    var a := Event(Positive, "geneA", Up, Point(2.0, 3.0), None);
    var g := Event(Positive, "geneB", Up, Point(3.0, 4.0), Some("geneB"));
    UpRows(num, negLog10);
    UpBuckets(a, g);
  }

  /** The two rows of the first counterexample read as two UP points. */
  lemma UpRows(num: string -> Option<real>, negLog10: real -> real)
    requires num("2.0") == Some(2.0) && num("0.001") == Some(0.001)
    requires num("3.0") == Some(3.0) && num("0.0001") == Some(0.0001)
    requires negLog10(0.001) == 3.0 && negLog10(0.0001) == 4.0
    ensures Events([["geneA", "0.0", "1.0", "2.0", "0.001"], ["geneB", "0.0", "1.0", "3.0", "0.0001"]],
                   Columns(1, 2, 3, 4, 0), Params(["Positive"], ["geneB"], 1.0, 1.3), num, negLog10)
         == Ok([Event(Positive, "geneA", Up, Point(2.0, 3.0), None),
                Event(Positive, "geneB", Up, Point(3.0, 4.0), Some("geneB"))])
  {
    var ra := ["geneA", "0.0", "1.0", "2.0", "0.001"];
    var rb := ["geneB", "0.0", "1.0", "3.0", "0.0001"];
    var cols := Columns(1, 2, 3, 4, 0);
    var params := Params(["Positive"], ["geneB"], 1.0, 1.3);
    var a := Event(Positive, "geneA", Up, Point(2.0, 3.0), None);
    var g := Event(Positive, "geneB", Up, Point(3.0, 4.0), Some("geneB"));
    assert ReadPoint(ra, 3, 4, num, negLog10) == Ok(Point(2.0, 3.0));
    assert SourcePart(ra, "geneA", cols, Negative, params, num, negLog10) == Ok([]);
    assert SourcePart(ra, "geneA", cols, Positive, params, num, negLog10) == Ok([a]);
    assert [] + [a] == [a];
    assert RowEvents(ra, cols, params, num, negLog10) == Ok([a]);
    assert ReadPoint(rb, 3, 4, num, negLog10) == Ok(Point(3.0, 4.0));
    assert SourcePart(rb, "geneB", cols, Negative, params, num, negLog10) == Ok([]);
    assert SourcePart(rb, "geneB", cols, Positive, params, num, negLog10) == Ok([g]);
    assert [] + [g] == [g];
    assert RowEvents(rb, cols, params, num, negLog10) == Ok([g]);
    TwoRows(ra, rb, cols, params, num, negLog10);
    assert [a] + [g] == [a, g];
  }

  /** The lists of the first counterexample, as written and aligned. */
  lemma UpBuckets(a: Event, g: Event)
    requires a.cat == Up && a.name == None && g.cat == Up && g.name == Some("geneB")
    ensures var w := BucketAsWritten([a, g]);
      w.up == [a.at, g.at] && w.upId == [Some("geneB")] && w.downId == [None]
    ensures var b := Bucket([a, g]);
      b.up == [a.at, g.at] && b.upId == [None, Some("geneB")]
  {
    assert [a, g][..1] == [a] && [a][..0] == [];
    var w1 := NoBuckets.(up := [a.at], downId := [None]);
    assert BucketAsWritten([a]) == w1;
    assert BucketAsWritten([a, g]) == w1.(up := [a.at, g.at], upId := [Some("geneB")]);
    var b1 := NoBuckets.(up := [a.at], upId := [None]);
    assert Bucket([a]) == b1;
    assert Bucket([a, g]) == b1.(up := [a.at, g.at], upId := [None, Some("geneB")]);
  }

  lemma ShiftRowA(num: string -> Option<real>, negLog10: real -> real)
    requires num("0.0") == Some(0.0) && num("1.0") == Some(1.0)
    requires num("2.0") == Some(2.0) && num("0.001") == Some(0.001)
    requires negLog10(1.0) == 0.0 && negLog10(0.001) == 3.0
    ensures RowEvents(["geneA", "0.0", "1.0", "2.0", "0.001"], Columns(1, 2, 3, 4, 0),
                      Params(["Negative", "Positive"], ["geneC"], 1.0, 1.3), num, negLog10)
         == Ok([Event(Negative, "geneA", NotSig, Point(0.0, 0.0), None)]
               + [Event(Positive, "geneA", Up, Point(2.0, 3.0), None)])
  {
    var ra := ["geneA", "0.0", "1.0", "2.0", "0.001"];
    var cols := Columns(1, 2, 3, 4, 0);
    var params := Params(["Negative", "Positive"], ["geneC"], 1.0, 1.3);
    var an := Event(Negative, "geneA", NotSig, Point(0.0, 0.0), None);
    var ap := Event(Positive, "geneA", Up, Point(2.0, 3.0), None);
    assert ReadPoint(ra, 1, 2, num, negLog10) == Ok(Point(0.0, 0.0));
    assert MakeEvent(Negative, "geneA", Point(0.0, 0.0), params) == an;
    assert SourcePart(ra, "geneA", cols, Negative, params, num, negLog10) == Ok([an]);
    assert ReadPoint(ra, 3, 4, num, negLog10) == Ok(Point(2.0, 3.0));
    assert MakeEvent(Positive, "geneA", Point(2.0, 3.0), params) == ap;
    assert SourcePart(ra, "geneA", cols, Positive, params, num, negLog10) == Ok([ap]);
  }

  lemma ShiftRowC(num: string -> Option<real>, negLog10: real -> real)
    requires num("0.0") == Some(0.0) && num("1.0") == Some(1.0)
    requires num("-2.0") == Some(-2.0) && num("0.001") == Some(0.001)
    requires negLog10(1.0) == 0.0 && negLog10(0.001) == 3.0
    ensures RowEvents(["geneC", "-2.0", "0.001", "0.0", "1.0"], Columns(1, 2, 3, 4, 0),
                      Params(["Negative", "Positive"], ["geneC"], 1.0, 1.3), num, negLog10)
         == Ok([Event(Negative, "geneC", Down, Point(-2.0, 3.0), Some("geneC"))]
               + [Event(Positive, "geneC", NotSig, Point(0.0, 0.0), Some("geneC"))])
  {
    var rc := ["geneC", "-2.0", "0.001", "0.0", "1.0"];
    var cols := Columns(1, 2, 3, 4, 0);
    var params := Params(["Negative", "Positive"], ["geneC"], 1.0, 1.3);
    var cn := Event(Negative, "geneC", Down, Point(-2.0, 3.0), Some("geneC"));
    var cp := Event(Positive, "geneC", NotSig, Point(0.0, 0.0), Some("geneC"));
    assert ReadPoint(rc, 1, 2, num, negLog10) == Ok(Point(-2.0, 3.0));
    assert MakeEvent(Negative, "geneC", Point(-2.0, 3.0), params) == cn;
    assert SourcePart(rc, "geneC", cols, Negative, params, num, negLog10) == Ok([cn]);
    assert ReadPoint(rc, 3, 4, num, negLog10) == Ok(Point(0.0, 0.0));
    assert MakeEvent(Positive, "geneC", Point(0.0, 0.0), params) == cp;
    assert SourcePart(rc, "geneC", cols, Positive, params, num, negLog10) == Ok([cp]);
  }

  /** A second counterexample. With both sources selected, "geneC" listed and
      thresholds 1.0 and 1.3, row geneA (neg|lfc 0.0, neg|p-value 1.0, pos|lfc 2.0,
      pos|p-value 0.001) is NOT SIG and UP without a label, and row geneC (neg|lfc
      -2.0, neg|p-value 0.001, pos|lfc 0.0, pos|p-value 1.0) is DOWN and NOT SIG
      with its label. geneA's None shifts `down_id`, so geneC's DOWN point is drawn
      with None and its own label is never drawn there. */
  lemma MisfiledDownShift(num: string -> Option<real>, negLog10: real -> real)
    requires num("0.0") == Some(0.0) && num("1.0") == Some(1.0)
    requires num("2.0") == Some(2.0) && num("-2.0") == Some(-2.0) && num("0.001") == Some(0.001)
    requires negLog10(1.0) == 0.0 && negLog10(0.001) == 3.0
    ensures var evs := Events([["geneA", "0.0", "1.0", "2.0", "0.001"],
                               ["geneC", "-2.0", "0.001", "0.0", "1.0"]],
                              Columns(1, 2, 3, 4, 0),
                              Params(["Negative", "Positive"], ["geneC"], 1.0, 1.3), num, negLog10);
      && evs.Ok?
      && var w := BucketAsWritten(evs.value);
      && w.down == [Point(-2.0, 3.0)] && w.downId == [None, Some("geneC")]
      && Placeable(w.down, w.downId) && Drawn(w.down, w.downId) == [Text(Point(-2.0, 3.0), None)]
  {
    var an := Event(Negative, "geneA", NotSig, Point(0.0, 0.0), None);
    var ap := Event(Positive, "geneA", Up, Point(2.0, 3.0), None);
    var cn := Event(Negative, "geneC", Down, Point(-2.0, 3.0), Some("geneC"));
    var cp := Event(Positive, "geneC", NotSig, Point(0.0, 0.0), Some("geneC"));
    ShiftRows(num, negLog10);
    ShiftBuckets(an, ap, cn, cp);
  }

  /** The two rows of the second counterexample read as four points, row by row. */
  lemma ShiftRows(num: string -> Option<real>, negLog10: real -> real)
    requires num("0.0") == Some(0.0) && num("1.0") == Some(1.0)
    requires num("2.0") == Some(2.0) && num("-2.0") == Some(-2.0) && num("0.001") == Some(0.001)
    requires negLog10(1.0) == 0.0 && negLog10(0.001) == 3.0
    ensures Events([["geneA", "0.0", "1.0", "2.0", "0.001"], ["geneC", "-2.0", "0.001", "0.0", "1.0"]],
                   Columns(1, 2, 3, 4, 0), Params(["Negative", "Positive"], ["geneC"], 1.0, 1.3),
                   num, negLog10)
         == Ok([Event(Negative, "geneA", NotSig, Point(0.0, 0.0), None),
                Event(Positive, "geneA", Up, Point(2.0, 3.0), None),
                Event(Negative, "geneC", Down, Point(-2.0, 3.0), Some("geneC")),
                Event(Positive, "geneC", NotSig, Point(0.0, 0.0), Some("geneC"))])
  {
    var ra := ["geneA", "0.0", "1.0", "2.0", "0.001"];
    var rc := ["geneC", "-2.0", "0.001", "0.0", "1.0"];
    var cols := Columns(1, 2, 3, 4, 0);
    var params := Params(["Negative", "Positive"], ["geneC"], 1.0, 1.3);
    var an := Event(Negative, "geneA", NotSig, Point(0.0, 0.0), None);
    var ap := Event(Positive, "geneA", Up, Point(2.0, 3.0), None);
    var cn := Event(Negative, "geneC", Down, Point(-2.0, 3.0), Some("geneC"));
    var cp := Event(Positive, "geneC", NotSig, Point(0.0, 0.0), Some("geneC"));
    ShiftRowA(num, negLog10);
    ShiftRowC(num, negLog10);
    TwoRows(ra, rc, cols, params, num, negLog10);
    assert [an] + [ap] + ([cn] + [cp]) == [an, ap, cn, cp];
  }

  /** The as-written lists of the four points of the second counterexample. */
  lemma ShiftBuckets(an: Event, ap: Event, cn: Event, cp: Event)
    requires an.cat == NotSig && cp.cat == NotSig
    requires ap.cat == Up && ap.name == None && cn.cat == Down && cn.name == Some("geneC")
    ensures var w := BucketAsWritten([an, ap, cn, cp]);
      w.down == [cn.at] && w.downId == [None, Some("geneC")]
  {
    assert [an, ap, cn, cp] == [an, ap, cn] + [cp];
    assert [an, ap, cn] == [an, ap] + [cn] && [an, ap] == [an] + [ap] && [an] == [] + [an];
    AsWrittenSnoc([], an);
    AsWrittenSnoc([an], ap);
    AsWrittenSnoc([an, ap], cn);
    AsWrittenSnoc([an, ap, cn], cp);
    var w2 := BucketAsWritten([an, ap]);
    assert w2.down == [] && w2.downId == [None];
  }

  // ---------------------------------------------------------------------------
  // The row loop

  /** One source's block of the loop body: the threshold test, then the point goes
      to its list and its label (or None) to the label list of the same category.
      At the unlabelled UP branch the None goes to `up_id`, where the source has
      `down_id`. */
  method AppendPoint(b: Buckets, s: Source, id: string, x: real, y: real, params: Params)
    returns (r: Buckets)
    ensures r == Add(b, MakeEvent(s, id, Point(x, y), params))
  {
    r := b;
    match s
    case Negative =>
      if y > params.thrY && x < -params.thrX {
        r := r.(down := r.down + [Point(x, y)]);
        if id in params.genesLabel || AllSignificant in params.genesLabel {
          r := r.(downId := r.downId + [Some(id)]);
        } else {
          r := r.(downId := r.downId + [None]);
        }
      } else {
        r := r.(notSig := r.notSig + [Point(x, y)]);
        if id in params.genesLabel {
          r := r.(notSigId := r.notSigId + [Some(id)]);
        } else {
          r := r.(notSigId := r.notSigId + [None]);
        }
      }
    case Positive =>
      if y > params.thrY && x > params.thrX {
        r := r.(up := r.up + [Point(x, y)]);
        if id in params.genesLabel || AllSignificant in params.genesLabel {
          r := r.(upId := r.upId + [Some(id)]);
        } else {
          r := r.(upId := r.upId + [None]);
        }
      } else {
        r := r.(notSig := r.notSig + [Point(x, y)]);
        if id in params.genesLabel {
          r := r.(notSigId := r.notSigId + [Some(id)]);
        } else {
          r := r.(notSigId := r.notSigId + [None]);
        }
      }
  }

  /** The body of `for sample in data`: the id is read, then each selected source's
      point is read, classified and appended with its label to the lists of its
      category; `evs` are the points appended by the rows before. */
  method ClassifySample(b: Buckets, sample: seq<string>, cols: Columns, params: Params,
                        num: string -> Option<real>, negLog10: real -> real, ghost evs: seq<Event>)
    returns (r: Result<Buckets>)
    requires b == Bucket(evs)
    ensures r.Ok? <==> RowEvents(sample, cols, params, num, negLog10).Ok?
    ensures r.Ok? ==> r.value == Bucket(evs + RowEvents(sample, cols, params, num, negLog10).value)
    ensures r.Err? ==> r.error == RowEvents(sample, cols, params, num, negLog10).error
  {
    if cols.id >= |sample| {
      return Err(IndexOutOfRange);
    }
    var id := sample[cols.id];
    ghost var negPart := SourcePart(sample, id, cols, Negative, params, num, negLog10);
    ghost var posPart := SourcePart(sample, id, cols, Positive, params, num, negLog10);
    ghost var negEvs: seq<Event> := [];
    ghost var posEvs: seq<Event> := [];
    var acc := b;

    if "Negative" in params.srcData {
      var pt := ReadPoint(sample, cols.xNeg, cols.yNeg, num, negLog10);
      if pt.Err? {
        assert negPart == Err(pt.error);
        return Err(pt.error);
      }
      acc := AppendPoint(acc, Negative, id, pt.value.x, pt.value.y, params);
      negEvs := [MakeEvent(Negative, id, pt.value, params)];
      BucketSnoc(evs, negEvs[0]);
    } else {
      assert evs + negEvs == evs;
    }
    assert negPart == Ok(negEvs);
    ghost var done := evs + negEvs;

    if "Positive" in params.srcData {
      var pt := ReadPoint(sample, cols.xPos, cols.yPos, num, negLog10);
      if pt.Err? {
        assert posPart == Err(pt.error);
        return Err(pt.error);
      }
      acc := AppendPoint(acc, Positive, id, pt.value.x, pt.value.y, params);
      posEvs := [MakeEvent(Positive, id, pt.value, params)];
      BucketSnoc(done, posEvs[0]);
    } else {
      assert done + posEvs == done;
    }
    assert posPart == Ok(posEvs);
    assert evs + negEvs + posEvs == evs + (negEvs + posEvs);
    return Ok(acc);
  }

  /** The loop over the rows, with the UP label bookkeeping corrected: the lists hold
      every point of the table, each with its own label, in row order. */
  method ClassifyRows(rows: seq<seq<string>>, cols: Columns, params: Params,
                      num: string -> Option<real>, negLog10: real -> real)
    returns (r: Result<Buckets>)
    ensures r.Ok? <==> Events(rows, cols, params, num, negLog10).Ok?
    ensures r.Ok? ==> r.value == Bucket(Events(rows, cols, params, num, negLog10).value)
    ensures r.Err? ==> r.error == Events(rows, cols, params, num, negLog10).error
  {
    var b := NoBuckets;
    ghost var evs: seq<Event> := [];
    var i := 0;
    while i < |rows|
      invariant 0 <= i <= |rows|
      invariant Events(rows[..i], cols, params, num, negLog10) == Ok(evs)
      invariant b == Bucket(evs)
    {
      EventsExtend(rows, i, cols, params, num, negLog10);
      var next := ClassifySample(b, rows[i], cols, params, num, negLog10, evs);
      if next.Err? {
        EventsFailFrom(rows, i + 1, cols, params, num, negLog10);
        return Err(next.error);
      }
      b := next.value;
      evs := evs + RowEvents(rows[i], cols, params, num, negLog10).value;
      i := i + 1;
    }
    assert rows[..i] == rows;
    return Ok(b);
  }

  // ---------------------------------------------------------------------------
  // Where the figure goes

  /** `if fmt_save:` saves next to the input, as `<basename without its last
      suffix>.<fmt_save>`; an absent or empty format keeps the image in memory. */
  function SaveTarget(filepath: string, fmtSave: Option<string>): (t: Target)
    ensures t.SavedTo? <==> fmtSave.Some? && fmtSave.value != ""
  {
    if fmtSave.Some? && fmtSave.value != "" then
      var fname := RSplitHead(PosixPath.Basename(filepath), '.') + "." + fmtSave.value;
      SavedTo(PosixPath.Join(PosixPath.Dirname(filepath), fname))
    else InMemoryImage
  }

  /** The saved file lies in the input's directory, and its name is the input's
      basename up to its last '.' (all of it when it has none) followed by
      '.' and the format. */
  lemma SaveTargetRoundTrip(filepath: string, fmt: string)
    requires fmt != "" && PosixPath.Sep !in fmt
    ensures var t := SaveTarget(filepath, Some(fmt));
      var base := PosixPath.Basename(filepath);
      && t.SavedTo?
      && PosixPath.Dirname(t.path) == PosixPath.Dirname(filepath)
      && PosixPath.Basename(t.path) == RSplitHead(base, '.') + "." + fmt
  {
    var base := PosixPath.Basename(filepath);
    var fname := RSplitHead(base, '.') + "." + fmt;
    assert PosixPath.Sep !in fname;
    PosixPath.DirnameShape(filepath);
    PosixPath.BasenameJoin(PosixPath.Dirname(filepath), fname);
    PosixPath.DirnameJoin(PosixPath.Dirname(filepath), fname);
  }

  // ---------------------------------------------------------------------------
  // Two concrete cases

  /** With only the sentinel listed, a point is labelled exactly when it is UP or
      DOWN (for any id other than the sentinel itself). */
  lemma SentinelLabelsSignificant(e: Event, params: Params)
    requires Obeys(e, params) && params.genesLabel == [AllSignificant] && e.id != AllSignificant
    ensures e.name.Some? <==> e.cat != NotSig
    ensures e.name.Some? ==> e.name.value == e.id
  {
  }

  /** The header of the example table puts the columns at positions 1, 2, 3, 4 and 0. */
  lemma StandardHeaderColumns()
    ensures FindColumns(["id", "neg|lfc", "neg|p-value", "pos|lfc", "pos|p-value"])
            == Ok(Columns(1, 2, 3, 4, 0))
  {
    var header := ["id", "neg|lfc", "neg|p-value", "pos|lfc", "pos|p-value"];
    assert header[1..][1..][1..][1..][0] == "pos|p-value";
  }

  /** One row "geneA" with neg|lfc -2.0, neg|p-value 0.001, pos|lfc 0.1 and
      pos|p-value 0.5, both sources, thresholds 1.0 and 1.3, no labels: the row is
      DOWN from the Negative source (y = 3 > 1.3, x = -2 < -1) and NOT SIG from the
      Positive source (y = -log10 0.5 < 1.3). */
  lemma OneRowScenario(num: string -> Option<real>, negLog10: real -> real)
    requires num("-2.0") == Some(-2.0) && num("0.001") == Some(0.001)
    requires num("0.1") == Some(0.1) && num("0.5") == Some(0.5)
    requires negLog10(0.001) == 3.0 && negLog10(0.5) < 1.3
    ensures Events([["geneA", "-2.0", "0.001", "0.1", "0.5"]], Columns(1, 2, 3, 4, 0),
                   Params(["Negative", "Positive"], [], 1.0, 1.3), num, negLog10)
         == Ok([Event(Negative, "geneA", Down, Point(-2.0, 3.0), None),
                Event(Positive, "geneA", NotSig, Point(0.1, negLog10(0.5)), None)])
  {
    var rows := [["geneA", "-2.0", "0.001", "0.1", "0.5"]];
    var params := Params(["Negative", "Positive"], [], 1.0, 1.3);
    var cols := Columns(1, 2, 3, 4, 0);
    var down := Event(Negative, "geneA", Down, Point(-2.0, 3.0), None);
    var flat := Event(Positive, "geneA", NotSig, Point(0.1, negLog10(0.5)), None);
    OneRowEvents(num, negLog10);
    assert Events(rows[..0], cols, params, num, negLog10) == Ok([]);
    assert rows[|rows| - 1] == rows[0] && rows[..|rows| - 1] == rows[..0];
    assert [] + ([down] + [flat]) == [down, flat];
  }

  lemma OneRowEvents(num: string -> Option<real>, negLog10: real -> real)
    requires num("-2.0") == Some(-2.0) && num("0.001") == Some(0.001)
    requires num("0.1") == Some(0.1) && num("0.5") == Some(0.5)
    requires negLog10(0.001) == 3.0 && negLog10(0.5) < 1.3
    ensures RowEvents(["geneA", "-2.0", "0.001", "0.1", "0.5"], Columns(1, 2, 3, 4, 0),
                      Params(["Negative", "Positive"], [], 1.0, 1.3), num, negLog10)
         == Ok([Event(Negative, "geneA", Down, Point(-2.0, 3.0), None)]
               + [Event(Positive, "geneA", NotSig, Point(0.1, negLog10(0.5)), None)])
  {
    var row := ["geneA", "-2.0", "0.001", "0.1", "0.5"];
    var params := Params(["Negative", "Positive"], [], 1.0, 1.3);
    var cols := Columns(1, 2, 3, 4, 0);
    var down := Event(Negative, "geneA", Down, Point(-2.0, 3.0), None);
    var flat := Event(Positive, "geneA", NotSig, Point(0.1, negLog10(0.5)), None);
    assert ReadPoint(row, 1, 2, num, negLog10) == Ok(Point(-2.0, 3.0));
    assert MakeEvent(Negative, "geneA", Point(-2.0, 3.0), params) == down;
    assert SourcePart(row, "geneA", cols, Negative, params, num, negLog10) == Ok([down]);
    assert ReadPoint(row, 3, 4, num, negLog10) == Ok(Point(0.1, negLog10(0.5)));
    assert MakeEvent(Positive, "geneA", Point(0.1, negLog10(0.5)), params) == flat;
    assert SourcePart(row, "geneA", cols, Positive, params, num, negLog10) == Ok([flat]);
  }

  // ---------------------------------------------------------------------------
  // The whole call

  /** `if title: fig.title(title)` as written. `plt.subplots()` returns a matplotlib
      `Figure`, which has no attribute `title`, so every non-empty title raises
      AttributeError; an empty title skips the call. */
  function TitleAsWritten(title: string): (r: Result<Option<string>>)
    ensures r.Ok? <==> title == ""
    ensures r.Ok? ==> r.value == None
    ensures r.Err? ==> r.error == NoAttribute("title")
  {
    if title != "" then Err(NoAttribute("title")) else Ok(None)
  }

  /** The evidently intended `if title: fig.suptitle(title)`: a non-empty title is
      shown above the axes, an empty one is not. */
  function FigureTitle(title: string): (r: Option<string>)
    ensures r.Some? <==> title != ""
    ensures r.Some? ==> r.value == title
  {
    if title != "" then Some(title) else None
  }

  /** The title step as written agrees with the intended one only when there is no
      title: a title that would be shown is an AttributeError instead. */
  lemma TitleAsWrittenAgainstIntended(title: string)
    ensures TitleAsWritten(title).Ok? <==> FigureTitle(title).None?
    ensures TitleAsWritten(title).Err? ==> FigureTitle(title) == Some(title)
  {
  }

  /** `volcano_plot` on an already read table: look up the columns, classify every
      row, place the labels of the three categories, set the title and choose the
      output. With the aligned label lists the placement loops never fail, and the
      title is set as `suptitle` sets it, so the call fails only on a missing column
      or an unreadable row. */
  method VolcanoPlot(filepath: string, header: seq<string>, rows: seq<seq<string>>, params: Params,
                     title: string, fmtSave: Option<string>, num: string -> Option<real>,
                     negLog10: real -> real)
    returns (r: Result<Plot>)
    ensures FindColumns(header).Err? ==> r == Err(FindColumns(header).error)
    ensures FindColumns(header).Ok? ==>
      var evs := Events(rows, FindColumns(header).value, params, num, negLog10);
      && (r.Ok? <==> evs.Ok?)
      && (r.Err? ==> r.error == evs.error)
      && (r.Ok? ==>
            var b := r.value.buckets;
            && b == Bucket(evs.value)
            && Placeable(b.up, b.upId) && Placeable(b.down, b.downId)
            && Placeable(b.notSig, b.notSigId)
            && r.value.texts == Drawn(b.up, b.upId) + Drawn(b.down, b.downId)
                                + Drawn(b.notSig, b.notSigId)
            && r.value.title == FigureTitle(title)
            && r.value.target == SaveTarget(filepath, fmtSave))
  {
    var cols :- FindColumns(header);
    var b :- ClassifyRows(rows, cols, params, num, negLog10);
    ghost var evs := Events(rows, cols, params, num, negLog10).value;
    AlignedLabelsAtOwnPoints(evs, Up);
    AlignedLabelsAtOwnPoints(evs, Down);
    AlignedLabelsAtOwnPoints(evs, NotSig);
    var texts := PlaceAll(b);
    if texts.Err? {
      assert false;
    }
    var shown := FigureTitle(title);
    return Ok(Plot(b, texts.value, shown, SaveTarget(filepath, fmtSave)));
  }
}
