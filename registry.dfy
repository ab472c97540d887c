/** The analyzer's state as a value, and what each of its type-dispatched operations
    does to it: which of the four spectrum tables changes, which keys and columns
    appear, what stays as it was, and which error is raised. */
module Registry {
  import opened Errors
  import opened Labels
  import opened Frames
  import opened Spectra

  /** Spectra keyed by name. */
  type Table = map<string, Frame>

  type Pair = (real, real)

  /** An annotation arrow for a second-derivative panel: (xy, xytext, text, text_rot). */
  datatype Arrow = Arrow(xy: Pair, xyText: Pair, text: string, textRot: real)

  datatype State = State(
    xesExp: Table, xesCalc: Table, xasExp: Table, xasCalc: Table,
    figsize: Pair, xesXlims: Option<Pair>, xasXlims: Option<Pair>,
    subplotLabels: seq<seq<string>>,
    xesArrow: Option<Arrow>, xasArrow: Option<Arrow>, title: Option<string>)

  /** The state after an operation, and the error it raised, if any. */
  datatype Step = Step(state: State, error: Option<Error>)

  const DefaultFigsize: Pair := (14.0, 8.0)

  const SubplotLabels: seq<seq<string>> := [["XES", "XAS"], ["2nd der.", "2nd der."]]

  /** A fresh analyzer. */
  function Initial(): State {
    State(map[], map[], map[], map[], DefaultFigsize, None, None, SubplotLabels, None, None, None)
  }

  function Other(k: Kind): Kind {
    match k
    case Xes => Xas
    case Xas => Xes
  }

  function Exp(s: State, k: Kind): Table {
    match k
    case Xes => s.xesExp
    case Xas => s.xasExp
  }

  function Calc(s: State, k: Kind): Table {
    match k
    case Xes => s.xesCalc
    case Xas => s.xasCalc
  }

  function ArrowOf(s: State, k: Kind): Option<Arrow> {
    match k
    case Xes => s.xesArrow
    case Xas => s.xasArrow
  }

  /** Every field other than the four tables is the same in both states. */
  predicate SameSettings(a: State, b: State) {
    && a.figsize == b.figsize && a.xesXlims == b.xesXlims && a.xasXlims == b.xasXlims
    && a.subplotLabels == b.subplotLabels && a.xesArrow == b.xesArrow && a.xasArrow == b.xasArrow
    && a.title == b.title
  }

  /** The state with the experimental table of one kind replaced. */
  function WithExp(s: State, k: Kind, t: Table): (r: State)
    ensures Exp(r, k) == t && Exp(r, Other(k)) == Exp(s, Other(k))
    ensures Calc(r, Xes) == Calc(s, Xes) && Calc(r, Xas) == Calc(s, Xas)
    ensures SameSettings(s, r)
  {
    match k
    case Xes => s.(xesExp := t)
    case Xas => s.(xasExp := t)
  }

  /** The state with the calculated table of one kind replaced. */
  function WithCalc(s: State, k: Kind, t: Table): (r: State)
    ensures Calc(r, k) == t && Calc(r, Other(k)) == Calc(s, Other(k))
    ensures Exp(r, Xes) == Exp(s, Xes) && Exp(r, Xas) == Exp(s, Xas)
    ensures SameSettings(s, r)
  {
    match k
    case Xes => s.(xesCalc := t)
    case Xas => s.(xasCalc := t)
  }

  /** Replacing the same table twice keeps only the second replacement. */
  lemma WithExpTwice(s: State, k: Kind, t1: Table, t2: Table)
    ensures WithExp(WithExp(s, k, t1), k, t2) == WithExp(s, k, t2)
  {
  }

  /** Every experimental entry holds its own energy and intensity columns. */
  ghost predicate ExpTableOk(t: Table) {
    forall n :: n in t ==> ExpFrame(n, t[n])
  }

  ghost predicate CalcTableOk(t: Table) {
    forall n :: n in t ==> Valid(t[n])
  }

  /** The invariant every operation keeps. */
  ghost predicate ValidState(s: State) {
    ExpTableOk(s.xesExp) && ExpTableOk(s.xasExp) && CalcTableOk(s.xesCalc) && CalcTableOk(s.xasCalc)
  }

  lemma InitialValid()
    ensures ValidState(Initial())
    ensures forall k :: Exp(Initial(), k) == map[] && Calc(Initial(), k) == map[]
    ensures ArrowOf(Initial(), Xes).None? && ArrowOf(Initial(), Xas).None?
  {
  }

  /** load_exp_spectra: check the type, read the table, then store one two-column
      spectrum per name in that type's experimental table. */
  function LoadExpStep(s: State, kind: string, names: seq<string>, read: CsvRead): (r: Step)
    requires Shaped(read, 2 * |names|)
    ensures r.error.None? <==> ParseKind(kind).Ok? && Distinct(names) && read.Parsed?
    ensures r.error.Some? ==> r.state == s
    ensures ParseKind(kind).Err? ==> r.error == Some(ValueError(TypeMessage))
    ensures ParseKind(kind).Ok? && !Distinct(names) ==> r.error == Some(DuplicateNames)
    ensures ParseKind(kind).Ok? && Distinct(names) && read.Unreadable? ==> r.error == Some(ReadError)
  {
    match ParseKind(kind)
    case Err(e) => Step(s, Some(e))
    case Ok(k) =>
      match LoadSpectrum(names, read)
      case Err(e) => Step(s, Some(e))
      case Ok(df) => Step(WithExp(s, k, Exp(s, k) + ExpEntries(df, names)), None)
  }

  /** Loading experimental spectra keeps the invariant: every stored entry is a
      well-formed two-column spectrum of its own name. */
  lemma LoadExpKeepsValid(s: State, kind: string, names: seq<string>, read: CsvRead)
    requires Shaped(read, 2 * |names|)
    requires ValidState(s)
    ensures ValidState(LoadExpStep(s, kind, names, read).state)
  {
    if LoadExpStep(s, kind, names, read).error.None? {
      var k := ParseKind(kind).value;
      var df := LoadSpectrum(names, read).value;
      var stored, entries := Exp(s, k), ExpEntries(df, names);
      ExpEntriesAt(df, names);
      assert ExpTableOk(stored) by { ExpOk(s, k); }
      forall n | n in stored + entries ensures ExpFrame(n, (stored + entries)[n]) {
        if n in entries {
          assert entries[n] == ExpEntry(df, n);
        }
      }
      WithExpValid(s, k, stored + entries);
    }
  }

  /** Each experimental table of a valid state is well-formed. */
  lemma ExpOk(s: State, k: Kind)
    requires ValidState(s)
    ensures ExpTableOk(Exp(s, k))
  {
  }

  /** Replacing an experimental table by a well-formed one keeps the invariant. */
  lemma WithExpValid(s: State, k: Kind, t: Table)
    requires ValidState(s) && ExpTableOk(t)
    ensures ValidState(WithExp(s, k, t))
  {
  }

  /** load_calc_spectra: check the type, read the table, then store the whole table
      under the one name in that type's calculated table. */
  function LoadCalcStep(s: State, kind: string, name: string, read: CsvRead): (r: Step)
    requires Shaped(read, 2)
    ensures r.error.None? <==> ParseKind(kind).Ok? && read.Parsed?
    ensures r.error.Some? ==> r.state == s
    ensures ParseKind(kind).Err? ==> r.error == Some(ValueError(TypeMessage))
    ensures ParseKind(kind).Ok? && read.Unreadable? ==> r.error == Some(ReadError)
  {
    match ParseKind(kind)
    case Err(e) => Step(s, Some(e))
    case Ok(k) =>
      match LoadSpectrum([name], read)
      case Err(e) => Step(s, Some(e))
      case Ok(df) => Step(WithCalc(s, k, Calc(s, k)[name := df]), None)
  }

  /** Loading a calculated spectrum keeps the invariant: the stored table is well-formed. */
  lemma LoadCalcKeepsValid(s: State, kind: string, name: string, read: CsvRead)
    requires Shaped(read, 2)
    requires ValidState(s)
    ensures ValidState(LoadCalcStep(s, kind, name, read).state)
  {
    if LoadCalcStep(s, kind, name, read).error.None? {
      var k := ParseKind(kind).value;
      var t := Calc(s, k)[name := LoadSpectrum([name], read).value];
      assert CalcTableOk(Calc(s, k)) by { CalcOk(s, k); }
      assert CalcTableOk(t);
      WithCalcValid(s, k, t);
    }
  }

  lemma CalcOk(s: State, k: Kind)
    requires ValidState(s)
    ensures CalcTableOk(Calc(s, k))
  {
  }

  /** Replacing a calculated table by a well-formed one keeps the invariant. */
  lemma WithCalcValid(s: State, k: Kind, t: Table)
    requires ValidState(s) && CalcTableOk(t)
    ensures ValidState(WithCalc(s, k, t))
  {
  }

  /** smoothen: check the type, look the spectrum up, then add its derived columns in
      place. A failure after the first column was written keeps that column. */
  function SmoothenStep(s: State, kind: string, name: string, window: int, poly: int,
                    smooth: Smoother, gradient: Gradient): (r: Step)
    ensures ParseKind(kind).Err? ==> r == Step(s, Some(ValueError(TypeMessage)))
    ensures ParseKind(kind).Ok? && name !in Exp(s, ParseKind(kind).value) ==>
      r == Step(s, Some(KeyError(name)))
  {
    match ParseKind(kind)
    case Err(e) => Step(s, Some(e))
    case Ok(k) =>
      if name !in Exp(s, k) then Step(s, Some(KeyError(name)))
      else
        var sm := SmoothenFrame(Exp(s, k)[name], name, window, poly, smooth, gradient);
        Step(WithExp(s, k, Exp(s, k)[name := sm.frame]), sm.error)
  }

  /** Smoothing keeps the invariant, failed or not, and on a well-formed state the
      only KeyError it raises is for a missing name: the energy and intensity columns
      of a stored spectrum are always there. */
  lemma SmoothenKeepsValid(s: State, kind: string, name: string, window: int, poly: int,
                           smooth: Smoother, gradient: Gradient)
    requires ValidState(s)
    ensures ValidState(SmoothenStep(s, kind, name, window, poly, smooth, gradient).state)
    ensures var r := SmoothenStep(s, kind, name, window, poly, smooth, gradient);
      r.error.Some? && r.error.value.KeyError? ==> r.error.value.key == name
  {
    if ParseKind(kind).Ok? && name in Exp(s, ParseKind(kind).value) {
      var k := ParseKind(kind).value;
      var t := Exp(s, k);
      ExpOk(s, k);
      var f := t[name];
      assert ExpFrame(name, f);
      var sm := SmoothenFrame(f, name, window, poly, smooth, gradient);
      SmoothenKeepsSpectrum(f, name, window, poly, smooth, gradient);
      var u := t[name := sm.frame];
      forall n | n in u ensures ExpFrame(n, u[n]) {
      }
      WithExpValid(s, k, u);
    }
  }

  /** Smoothing a stored spectrum leaves a stored spectrum, and its error, if any, is
      never a KeyError: the energy and intensity columns are there. */
  lemma SmoothenKeepsSpectrum(f: Frame, name: string, window: int, poly: int,
                              smooth: Smoother, gradient: Gradient)
    requires ExpFrame(name, f)
    ensures ExpFrame(name, SmoothenFrame(f, name, window, poly, smooth, gradient).frame)
    ensures var e := SmoothenFrame(f, name, window, poly, smooth, gradient).error;
      e.Some? ==> !e.value.KeyError?
  {
    SpectrumLabelsDiffer(name);
    SmoothenFailures(f, name, window, poly, smooth, gradient);
  }

  /** Smoothing, successful or not, adds no spectrum and removes none, changes no
      spectrum but the one named in the table of the given type, and touches neither
      the calculated tables nor the settings. */
  lemma SmoothenKeepsKeys(s: State, kind: string, name: string, window: int, poly: int,
                          smooth: Smoother, gradient: Gradient)
    ensures var r := SmoothenStep(s, kind, name, window, poly, smooth, gradient).state;
      && Exp(r, Xes).Keys == Exp(s, Xes).Keys && Exp(r, Xas).Keys == Exp(s, Xas).Keys
      && Calc(r, Xes) == Calc(s, Xes) && Calc(r, Xas) == Calc(s, Xas)
      && SameSettings(s, r)
    ensures var r := SmoothenStep(s, kind, name, window, poly, smooth, gradient).state;
      forall k, n :: n in Exp(s, k) && (KindName(k) != kind || n != name) ==>
        n in Exp(r, k) && Exp(r, k)[n] == Exp(s, k)[n]
  {
    if ParseKind(kind).Ok? && name in Exp(s, ParseKind(kind).value) {
      var k := ParseKind(kind).value;
      var sm := SmoothenFrame(Exp(s, k)[name], name, window, poly, smooth, gradient);
      assert (Exp(s, k)[name := sm.frame]).Keys == Exp(s, k).Keys;
      assert forall j :: KindName(j) == kind ==> j == k;
    }
  }

  /** add_arrow: check the type, then fill that type's arrow slot. */
  function AddArrowStep(s: State, kind: string, xy: Pair, xyText: Pair, text: string, textRot: real): (r: Step)
    ensures ParseKind(kind).Err? ==> r == Step(s, Some(ValueError(TypeMessage)))
    ensures ParseKind(kind).Ok? ==>
      var k := ParseKind(kind).value;
      && r.error.None?
      && ArrowOf(r.state, k) == Some(Arrow(xy, xyText, text, textRot))
      && ArrowOf(r.state, Other(k)) == ArrowOf(s, Other(k))
      && r.state.(xesArrow := s.xesArrow, xasArrow := s.xasArrow) == s
  {
    match ParseKind(kind)
    case Err(e) => Step(s, Some(e))
    case Ok(k) =>
      var a := Some(Arrow(xy, xyText, text, textRot));
      match k
      case Xes => Step(s.(xesArrow := a), None)
      case Xas => Step(s.(xasArrow := a), None)
  }

  /** An unrecognized type is refused before any table is touched and before the
      file is read: whatever the file, the names or the state, each operation
      returns the state unchanged with the type's ValueError. */
  lemma TypeCheckedFirst(s: State, kind: string, names: seq<string>, name: string,
                         read: CsvRead, calcRead: CsvRead, window: int, poly: int,
                         smooth: Smoother, gradient: Gradient,
                         xy: Pair, xyText: Pair, text: string, textRot: real)
    requires kind != "xes" && kind != "xas"
    requires Shaped(read, 2 * |names|) && Shaped(calcRead, 2)
    ensures LoadExpStep(s, kind, names, read) == Step(s, Some(ValueError(TypeMessage)))
    ensures LoadCalcStep(s, kind, name, calcRead) == Step(s, Some(ValueError(TypeMessage)))
    ensures SmoothenStep(s, kind, name, window, poly, smooth, gradient) == Step(s, Some(ValueError(TypeMessage)))
    ensures AddArrowStep(s, kind, xy, xyText, text, textRot) == Step(s, Some(ValueError(TypeMessage)))
  {
  }

  /** After a successful load_exp_spectra every name of the list is a key of that
      type's experimental table, holding exactly its energy and intensity columns
      of the file; other keys keep their spectra and the other tables do not change. */
  lemma LoadExpStores(s: State, kind: string, names: seq<string>, read: CsvRead)
    requires Shaped(read, 2 * |names|)
    requires LoadExpStep(s, kind, names, read).error.None?
    ensures var k, r := ParseKind(kind).value, LoadExpStep(s, kind, names, read).state;
      && (forall n :: n in Exp(r, k) <==> n in Exp(s, k) || n in names)
      && (forall n :: n in Exp(s, k) && n !in names ==> Exp(r, k)[n] == Exp(s, k)[n])
      && Exp(r, Other(k)) == Exp(s, Other(k))
      && Calc(r, Xes) == Calc(s, Xes) && Calc(r, Xas) == Calc(s, Xas)
      && SameSettings(s, r)
    ensures var k, r := ParseKind(kind).value, LoadExpStep(s, kind, names, read).state;
      forall i :: 0 <= i < |names| ==>
        Exp(r, k)[names[i]] == Frame([EnergyLabel(names[i]), IntensityLabel(names[i])],
                                     map[EnergyLabel(names[i]) := read.table[2 * i],
                                         IntensityLabel(names[i]) := read.table[2 * i + 1]],
                                     read.rows)
  {
    var k := ParseKind(kind).value;
    var df := LoadSpectrum(names, read).value;
    var t := Exp(s, k) + ExpEntries(df, names);
    ExpEntriesAt(df, names);
    assert LoadExpStep(s, kind, names, read).state == WithExp(s, k, t);
    forall i | 0 <= i < |names|
      ensures t[names[i]] == Frame([EnergyLabel(names[i]), IntensityLabel(names[i])],
                                   map[EnergyLabel(names[i]) := read.table[2 * i],
                                       IntensityLabel(names[i]) := read.table[2 * i + 1]],
                                   read.rows)
    {
      assert names[i] in names;
    }
  }

  /** After a successful load_calc_spectra the name holds the whole loaded table, with
      the name's two headers over the file's two columns, replacing any earlier
      entry; the experimental tables and the other calculated table do not change. */
  lemma LoadCalcStores(s: State, kind: string, name: string, read: CsvRead)
    requires Shaped(read, 2)
    requires LoadCalcStep(s, kind, name, read).error.None?
    ensures var k, r := ParseKind(kind).value, LoadCalcStep(s, kind, name, read).state;
      && Calc(r, k) == Calc(s, k)[name := Frame([EnergyLabel(name), IntensityLabel(name)],
                                                map[EnergyLabel(name) := read.table[0],
                                                    IntensityLabel(name) := read.table[1]],
                                                read.rows)]
      && Calc(r, Other(k)) == Calc(s, Other(k))
      && Exp(r, Xes) == Exp(s, Xes) && Exp(r, Xas) == Exp(s, Xas)
      && SameSettings(s, r)
  {
    var df := LoadSpectrum([name], read).value;
    SingleHeaders(name);
    SpectrumLabelsDiffer(name);
    var m := map[EnergyLabel(name) := read.table[0], IntensityLabel(name) := read.table[1]];
    assert df.columns.Keys == m.Keys;
    assert df.columns == m;
  }

  /** A successful smoothen adds exactly the two derived columns to that one spectrum:
      the smoother's output, and the gradient of its gradient over the same energies.
      Everything else stays, as SmoothenKeepsKeys states. */
  lemma SmoothenStores(s: State, kind: string, name: string, window: int, poly: int,
                       smooth: Smoother, gradient: Gradient)
    requires ValidState(s)
    requires SmoothenStep(s, kind, name, window, poly, smooth, gradient).error.None?
    ensures ParseKind(kind).Ok? && name in Exp(s, ParseKind(kind).value)
    ensures var k := ParseKind(kind).value;
      var f, r := Exp(s, k)[name], SmoothenStep(s, kind, name, window, poly, smooth, gradient).state;
      var x, y := f.columns[EnergyLabel(name)], f.columns[IntensityLabel(name)];
      && smooth(x, y, window, poly).Some?
      && SecondDerivative(smooth(x, y, window, poly).value, x, gradient).Some?
      && name in Exp(r, k)
      && Exp(r, k)[name].columns
           == f.columns[SmoothedLabel(name) := smooth(x, y, window, poly).value]
                       [SecondDerivativeLabel(name) := SecondDerivative(smooth(x, y, window, poly).value, x, gradient).value]
  {
    var k := ParseKind(kind).value;
    var f := Exp(s, k)[name];
    assert ExpFrame(name, f);
    var x, y := f.columns[EnergyLabel(name)], f.columns[IntensityLabel(name)];
    SmoothenFailures(f, name, window, poly, smooth, gradient);
    var ys := smooth(x, y, window, poly).value;
    var d2 := SecondDerivative(ys, x, gradient).value;
    SmoothenSucceeds(f, name, window, poly, smooth, gradient, ys, d2);
  }
}
