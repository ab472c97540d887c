/** The value-level operations of BandgapAnalyzer.py: the spectrum-type dispatch,
    loading a table under generated headers, picking one spectrum out of it,
    adding the smoothed columns to a spectrum, and normalizing for display. */
module Spectra {
  import opened Errors
  import opened Labels
  import opened Frames

  /** The two spectrum categories the analyzer keeps apart. */
  datatype Kind = Xes | Xas

  function KindName(k: Kind): string {
    match k
    case Xes => "xes"
    case Xas => "xas"
  }

  /** The check every type-dispatched operation starts with. */
  function ParseKind(s: string): (r: Result<Kind>)
    ensures r.Ok? <==> s == "xes" || s == "xas"
    ensures r.Ok? ==> KindName(r.value) == s
    ensures r.Err? ==> r.error == ValueError(TypeMessage)
  {
    if s == "xes" then Ok(Xes)
    else if s == "xas" then Ok(Xas)
    else Err(ValueError(TypeMessage))
  }

  /** Each kind is recognized under its own name. */
  lemma KindRoundTrip(k: Kind)
    ensures ParseKind(KindName(k)) == Ok(k)
  {
  }

  /** Reading a CSV file with one energy and one intensity column per name: the
      reader refuses repeated names, then may fail to read the file; otherwise the
      table's columns get the headers in order. */
  function LoadSpectrum(names: seq<string>, read: CsvRead): (r: Result<Frame>)
    requires Shaped(read, 2 * |names|)
    ensures r.Ok? <==> Distinct(names) && read.Parsed?
    ensures !Distinct(names) ==> r == Err(DuplicateNames)
    ensures Distinct(names) && read.Unreadable? ==> r == Err(ReadError)
    ensures r.Ok? ==> Valid(r.value) && r.value.labels == Headers(names) && r.value.rows == read.rows
    ensures r.Ok? ==> forall n :: n in names ==>
      EnergyLabel(n) in r.value.columns && IntensityLabel(n) in r.value.columns
    ensures r.Ok? ==> forall i :: 0 <= i < |names| ==>
      && r.value.columns[EnergyLabel(names[i])] == read.table[2 * i]
      && r.value.columns[IntensityLabel(names[i])] == read.table[2 * i + 1]
  {
    var headers := Headers(names);
    HeadersLayout(names);
    HeadersDistinct(names);
    if !Distinct(headers) then Err(DuplicateNames)
    else
      match read
      case Unreadable => Err(ReadError)
      case Parsed(rows, table) => Ok(Labelled(headers, rows, table))
  }

  /** A frame fit to be stored as the experimental spectrum `name`: well-formed and
      holding that spectrum's energy and intensity columns. */
  ghost predicate ExpFrame(name: string, f: Frame) {
    Valid(f) && EnergyLabel(name) in f.columns && IntensityLabel(name) in f.columns
  }

  /** `df[[name_energy, name_intensity]]`: one spectrum picked out of a loaded table. */
  function ExpEntry(df: Frame, name: string): (r: Frame)
    requires EnergyLabel(name) in df.columns && IntensityLabel(name) in df.columns
    ensures r.labels == [EnergyLabel(name), IntensityLabel(name)] && r.rows == df.rows
    ensures r.columns == map[EnergyLabel(name) := df.columns[EnergyLabel(name)],
                             IntensityLabel(name) := df.columns[IntensityLabel(name)]]
    ensures Valid(df) ==> ExpFrame(name, r)
  {
    SpectrumLabelsDiffer(name);
    Select(df, [EnergyLabel(name), IntensityLabel(name)])
  }

  /** The entries the loading loop writes for the names of a loaded table, in order:
      a later occurrence of a name overwrites an earlier one. */
  function ExpEntries(df: Frame, names: seq<string>): map<string, Frame>
    requires forall n :: n in names ==> EnergyLabel(n) in df.columns && IntensityLabel(n) in df.columns
    decreases |names|
  {
    if names == [] then map[]
    else
      var last := names[|names| - 1];
      ExpEntries(df, names[..|names| - 1])[last := ExpEntry(df, last)]
  }

  /** The loop writes an entry for every listed name and for no other, each the
      name's two columns of the table. */
  lemma {:induction false} ExpEntriesAt(df: Frame, names: seq<string>)
    requires forall n :: n in names ==> EnergyLabel(n) in df.columns && IntensityLabel(n) in df.columns
    ensures forall n :: n in ExpEntries(df, names) <==> n in names
    ensures forall n :: n in names ==> ExpEntries(df, names)[n] == ExpEntry(df, n)
    decreases |names|
  {
    if names != [] {
      var init := names[..|names| - 1];
      assert forall n :: n in names <==> n in init || n == names[|names| - 1];
      ExpEntriesAt(df, init);
    }
  }

  /** The entries for one more name are the earlier ones with that name put in. */
  lemma ExpEntriesExtend(df: Frame, names: seq<string>, i: int)
    requires forall n :: n in names ==> EnergyLabel(n) in df.columns && IntensityLabel(n) in df.columns
    requires 0 <= i < |names|
    ensures ExpEntries(df, names[..i + 1]) == ExpEntries(df, names[..i])[names[i] := ExpEntry(df, names[i])]
  {
    assert names[..i + 1][..i] == names[..i];
  }

  /** Putting a key into the right operand of a map union puts it into the union. */
  lemma UnionUpdate<K, V>(a: map<K, V>, b: map<K, V>, key: K, v: V)
    ensures (a + b)[key := v] == a + b[key := v]
  {
  }

  /** The opaque smoother non_uniform_savgol(x, y, window, poly); None when it raises. */
  type Smoother = (Column, Column, int, int) -> Option<Column>

  /** The opaque numerical gradient np.gradient(values, x); None when it raises. */
  type Gradient = (Column, Column) -> Option<Column>

  /** The gradient taken twice over the same x. */
  function SecondDerivative(ys: Column, x: Column, gradient: Gradient): Option<Column> {
    match gradient(ys, x)
    case None => None
    case Some(d1) => gradient(d1, x)
  }

  /** A frame after smoothing, and the error that stopped smoothing, if any. */
  datatype Smoothed = Smoothed(frame: Frame, error: Option<Error>)

  /** The in-place part of smoothen: read the spectrum's energy and intensity, write
      the smoothed intensity, then write its second derivative. An error stops the
      sequence where it occurs, so a failing gradient leaves the new smoothed column
      written and the second-derivative column as it was before the call: absent after
      a first smoothing, holding the earlier values after a repeated one. */
  function SmoothenFrame(f: Frame, name: string, window: int, poly: int,
                         smooth: Smoother, gradient: Gradient): (r: Smoothed)
    ensures r.frame.rows == f.rows
    ensures Valid(f) ==> Valid(r.frame)
    ensures r.frame.columns.Keys <= f.columns.Keys + {SmoothedLabel(name), SecondDerivativeLabel(name)}
    ensures forall l :: l in f.columns && l != SmoothedLabel(name) && l != SecondDerivativeLabel(name) ==>
      l in r.frame.columns && r.frame.columns[l] == f.columns[l]
    ensures r.error.None? ==>
      SmoothedLabel(name) in r.frame.columns && SecondDerivativeLabel(name) in r.frame.columns
    ensures EnergyLabel(name) !in f.columns ==> r == Smoothed(f, Some(KeyError(EnergyLabel(name))))
    ensures EnergyLabel(name) in f.columns && IntensityLabel(name) !in f.columns ==>
      r == Smoothed(f, Some(KeyError(IntensityLabel(name))))
  {
    match Get(f, EnergyLabel(name))
    case Err(e) => Smoothed(f, Some(e))
    case Ok(x) =>
      match Get(f, IntensityLabel(name))
      case Err(e) => Smoothed(f, Some(e))
      case Ok(y) =>
        match smooth(x, y, window, poly)
        case None => Smoothed(f, Some(SmootherError))
        case Some(ys) =>
          match Assign(f, SmoothedLabel(name), ys)
          case Err(e) => Smoothed(f, Some(e))
          case Ok(f1) =>
            match SecondDerivative(ys, x, gradient)
            case None => Smoothed(f1, Some(GradientError))
            case Some(d2) =>
              match Assign(f1, SecondDerivativeLabel(name), d2)
              case Err(e) => Smoothed(f1, Some(e))
              case Ok(f2) => Smoothed(f2, None)
  }

  /** When the smoother and both gradients succeed and keep the length, smoothing adds
      exactly the two derived columns after the existing ones: the smoother's output
      and the gradient of its gradient. Energy, intensity and every other column stay. */
  lemma SmoothenSucceeds(f: Frame, name: string, window: int, poly: int,
                         smooth: Smoother, gradient: Gradient, ys: Column, d2: Column)
    requires ExpFrame(name, f)
    requires smooth(f.columns[EnergyLabel(name)], f.columns[IntensityLabel(name)], window, poly) == Some(ys)
    requires SecondDerivative(ys, f.columns[EnergyLabel(name)], gradient) == Some(d2)
    requires |ys| == f.rows && |d2| == f.rows
    ensures SmoothenFrame(f, name, window, poly, smooth, gradient).error.None?
    ensures var r := SmoothenFrame(f, name, window, poly, smooth, gradient).frame;
      r.rows == f.rows && r.columns == f.columns[SmoothedLabel(name) := ys][SecondDerivativeLabel(name) := d2]
    ensures var r := SmoothenFrame(f, name, window, poly, smooth, gradient).frame;
      && r.columns[EnergyLabel(name)] == f.columns[EnergyLabel(name)]
      && r.columns[IntensityLabel(name)] == f.columns[IntensityLabel(name)]
    ensures var r := SmoothenFrame(f, name, window, poly, smooth, gradient).frame;
      |f.labels| <= |r.labels| && r.labels[..|f.labels|] == f.labels
    ensures var r := SmoothenFrame(f, name, window, poly, smooth, gradient).frame;
      forall l :: l in r.labels <==> l in f.labels || l == SmoothedLabel(name) || l == SecondDerivativeLabel(name)
  {
    SpectrumLabelsDiffer(name);
    var f1 := Assign(f, SmoothedLabel(name), ys).value;
    var f2 := Assign(f1, SecondDerivativeLabel(name), d2).value;
    SmoothenWritesBoth(f, name, window, poly, smooth, gradient, ys, d2);
    AppendedLabels(f.labels, SmoothedLabel(name), f1.labels);
    AppendedLabels(f1.labels, SecondDerivativeLabel(name), f2.labels);
    PrefixOfPrefix(f.labels, f1.labels, f2.labels);
  }

  /** A prefix of a prefix is a prefix. */
  lemma PrefixOfPrefix<T>(a: seq<T>, b: seq<T>, c: seq<T>)
    requires |a| <= |b| <= |c| && b[..|a|] == a && c[..|b|] == b
    ensures c[..|a|] == a
  {
    assert c[..|a|] == c[..|b|][..|a|];
  }

  /** On the successful path the result is the two assignments in turn. */
  lemma SmoothenWritesBoth(f: Frame, name: string, window: int, poly: int,
                           smooth: Smoother, gradient: Gradient, ys: Column, d2: Column)
    requires EnergyLabel(name) in f.columns && IntensityLabel(name) in f.columns
    requires smooth(f.columns[EnergyLabel(name)], f.columns[IntensityLabel(name)], window, poly) == Some(ys)
    requires SecondDerivative(ys, f.columns[EnergyLabel(name)], gradient) == Some(d2)
    requires |ys| == f.rows && |d2| == f.rows
    ensures var f1 := Assign(f, SmoothedLabel(name), ys);
      && f1.Ok? && Assign(f1.value, SecondDerivativeLabel(name), d2).Ok?
      && SmoothenFrame(f, name, window, poly, smooth, gradient)
         == Smoothed(Assign(f1.value, SecondDerivativeLabel(name), d2).value, None)
  {
    assert Get(f, EnergyLabel(name)) == Ok(f.columns[EnergyLabel(name)]);
    assert Get(f, IntensityLabel(name)) == Ok(f.columns[IntensityLabel(name)]);
  }

  /** Labels after putting l: the old ones first, and l added unless already there. */
  lemma AppendedLabels(before: seq<string>, l: string, after: seq<string>)
    requires after == if l in before then before else before + [l]
    ensures |before| <= |after| && after[..|before|] == before
    ensures forall x :: x in after <==> x in before || x == l
  {
  }

  /** The ways smoothing a loaded spectrum can fail, and what each leaves behind. */
  lemma SmoothenFailures(f: Frame, name: string, window: int, poly: int,
                         smooth: Smoother, gradient: Gradient)
    requires ExpFrame(name, f)
    ensures var x, y := f.columns[EnergyLabel(name)], f.columns[IntensityLabel(name)];
      var r := SmoothenFrame(f, name, window, poly, smooth, gradient);
      match smooth(x, y, window, poly)
      case None => r == Smoothed(f, Some(SmootherError))
      case Some(ys) =>
        if |ys| != f.rows then r == Smoothed(f, Some(LengthMismatch(SmoothedLabel(name))))
        else
          var f1 := Assign(f, SmoothedLabel(name), ys).value;
          match SecondDerivative(ys, x, gradient)
          case None => r == Smoothed(f1, Some(GradientError))
          case Some(d2) =>
            |d2| != f.rows ==> r == Smoothed(f1, Some(LengthMismatch(SecondDerivativeLabel(name))))
  {
  }

  /** When the smoother succeeds but the second derivative fails or has the wrong
      length, only the smoothed column is new: the second-derivative column is present
      exactly when it was before, with its earlier values. */
  lemma SmoothenKeepsStaleDerivative(f: Frame, name: string, window: int, poly: int,
                                     smooth: Smoother, gradient: Gradient, ys: Column)
    requires ExpFrame(name, f)
    requires smooth(f.columns[EnergyLabel(name)], f.columns[IntensityLabel(name)], window, poly) == Some(ys)
    requires |ys| == f.rows
    requires var d := SecondDerivative(ys, f.columns[EnergyLabel(name)], gradient);
      d.None? || |d.value| != f.rows
    ensures SmoothenFrame(f, name, window, poly, smooth, gradient).error.Some?
    ensures SmoothenFrame(f, name, window, poly, smooth, gradient).frame.columns
      == f.columns[SmoothedLabel(name) := ys]
    ensures var r := SmoothenFrame(f, name, window, poly, smooth, gradient).frame;
      SecondDerivativeLabel(name) in r.columns <==> SecondDerivativeLabel(name) in f.columns
    ensures var r := SmoothenFrame(f, name, window, poly, smooth, gradient).frame;
      SecondDerivativeLabel(name) in f.columns ==>
        r.columns[SecondDerivativeLabel(name)] == f.columns[SecondDerivativeLabel(name)]
  {
    SpectrumLabelsDiffer(name);
    SmoothenFailures(f, name, window, poly, smooth, gradient);
  }

  /** Smoothing the same spectrum again with the same smoother and gradient changes
      nothing more: the derived columns are overwritten in place with equal values. */
  lemma SmoothenIdempotent(f: Frame, name: string, window: int, poly: int,
                           smooth: Smoother, gradient: Gradient)
    requires ExpFrame(name, f)
    requires SmoothenFrame(f, name, window, poly, smooth, gradient).error.None?
    ensures var r := SmoothenFrame(f, name, window, poly, smooth, gradient);
      SmoothenFrame(r.frame, name, window, poly, smooth, gradient) == r
  {
    SpectrumLabelsDiffer(name);
    var x, y := f.columns[EnergyLabel(name)], f.columns[IntensityLabel(name)];
    assert Get(f, EnergyLabel(name)) == Ok(x) && Get(f, IntensityLabel(name)) == Ok(y);
    var ys := smooth(x, y, window, poly).value;
    var d2 := SecondDerivative(ys, x, gradient).value;
    SmoothenSucceeds(f, name, window, poly, smooth, gradient, ys, d2);
    var g := SmoothenFrame(f, name, window, poly, smooth, gradient).frame;
    AlreadySmoothed(g, name, window, poly, smooth, gradient, ys, d2);
  }

  /** A frame that already holds the spectrum's derived columns, with the values the
      smoother and the gradient give for it, is left as it is by smoothing. */
  lemma AlreadySmoothed(g: Frame, name: string, window: int, poly: int,
                        smooth: Smoother, gradient: Gradient, ys: Column, d2: Column)
    requires Valid(g) && EnergyLabel(name) in g.columns && IntensityLabel(name) in g.columns
    requires smooth(g.columns[EnergyLabel(name)], g.columns[IntensityLabel(name)], window, poly) == Some(ys)
    requires SecondDerivative(ys, g.columns[EnergyLabel(name)], gradient) == Some(d2)
    requires |ys| == g.rows && |d2| == g.rows
    requires SmoothedLabel(name) in g.columns && g.columns[SmoothedLabel(name)] == ys
    requires SecondDerivativeLabel(name) in g.columns && g.columns[SecondDerivativeLabel(name)] == d2
    ensures SmoothenFrame(g, name, window, poly, smooth, gradient) == Smoothed(g, None)
  {
    SmoothenWritesBoth(g, name, window, poly, smooth, gradient, ys, d2);
    AssignSame(g, SmoothedLabel(name), ys);
    AssignSame(g, SecondDerivativeLabel(name), d2);
  }
}
