/** The BandgapAnalyzer object: four name-keyed spectrum tables and the plot
    settings beside them, updated in place by its methods. Each method is proved to
    leave the object in the state the matching step of module Registry describes. */
module Analyzer {
  import opened Errors
  import opened Labels
  import opened Frames
  import opened Spectra
  import opened Registry

  class BandgapAnalyzer {
    var xesExpSpectra: Table
    var xesCalcSpectra: Table
    var xasExpSpectra: Table
    var xasCalcSpectra: Table
    var figsize: Pair
    var xesXlims: Option<Pair>
    var xasXlims: Option<Pair>
    var subplotLabels: seq<seq<string>>
    var xesArrow: Option<Arrow>
    var xasArrow: Option<Arrow>
    var title: Option<string>

    /** The object's fields as a State value. */
    function Snapshot(): State
      reads this
    {
      State(xesExpSpectra, xesCalcSpectra, xasExpSpectra, xasCalcSpectra,
            figsize, xesXlims, xasXlims, subplotLabels, xesArrow, xasArrow, title)
    }

    ghost predicate Valid()
      reads this
    {
      ValidState(Snapshot())
    }

    /** Four empty tables, a 14 by 8 figure, no x-limits, no arrows and no title. */
    constructor ()
      ensures Valid()
      ensures Snapshot() == Initial()
    {
      xesExpSpectra, xesCalcSpectra := map[], map[];
      xasExpSpectra, xasCalcSpectra := map[], map[];
      figsize := DefaultFigsize;
      xesXlims, xasXlims := None, None;
      subplotLabels := SubplotLabels;
      xesArrow, xasArrow := None, None;
      title := None;
      InitialValid();
    }

    /** The experimental table of one kind, `exp_spectra[name] = frame`. */
    method PutExp(k: Kind, name: string, f: Frame)
      modifies this
      ensures Snapshot() == WithExp(old(Snapshot()), k, Exp(old(Snapshot()), k)[name := f])
    {
      match k
      case Xes => xesExpSpectra := xesExpSpectra[name := f];
      case Xas => xasExpSpectra := xasExpSpectra[name := f];
    }

    /** The calculated table of one kind, `calc_spectra[name] = frame`. */
    method PutCalc(k: Kind, name: string, f: Frame)
      modifies this
      ensures Snapshot() == WithCalc(old(Snapshot()), k, Calc(old(Snapshot()), k)[name := f])
    {
      match k
      case Xes => xesCalcSpectra := xesCalcSpectra[name := f];
      case Xas => xasCalcSpectra := xasCalcSpectra[name := f];
    }

    /** load_exp_spectra: `read` is what the CSV reader produced for the file under
        the headers built from `names`. */
    method LoadExpSpectra(read: CsvRead, kind: string, names: seq<string>) returns (error: Option<Error>)
      requires Valid() && Shaped(read, 2 * |names|)
      modifies this
      ensures Valid()
      ensures Step(Snapshot(), error) == LoadExpStep(old(Snapshot()), kind, names, read)
    {
      ghost var start := Snapshot();
      ghost var expected := LoadExpStep(start, kind, names, read);
      var parsed := ParseKind(kind);
      if parsed.Err? {
        return Some(parsed.error);
      }
      var k := parsed.value;
      var loaded := LoadSpectrum(names, read);
      if loaded.Err? {
        return Some(loaded.error);
      }
      var df := loaded.value;
      assert expected == Step(WithExp(start, k, Exp(start, k) + ExpEntries(df, names)), None);
      LoadExpKeepsValid(start, kind, names, read);
      StoreSpectra(k, df, names);
      error := None;
    }

    /** The loop `for name in names: exp_spectra[name] = df[[energy, intensity]]`. */
    method StoreSpectra(k: Kind, df: Frame, names: seq<string>)
      requires forall n :: n in names ==> EnergyLabel(n) in df.columns && IntensityLabel(n) in df.columns
      modifies this
      ensures Snapshot() == WithExp(old(Snapshot()), k, Exp(old(Snapshot()), k) + ExpEntries(df, names))
    {
      ghost var start := Snapshot();
      ghost var before := Exp(start, k);
      var i := 0;
      while i < |names|
        invariant 0 <= i <= |names|
        invariant Snapshot() == WithExp(start, k, before + ExpEntries(df, names[..i]))
      {
        var name := names[i];
        ghost var t := before + ExpEntries(df, names[..i]);
        var e := ExpEntry(df, name);
        assert Exp(Snapshot(), k) == t;
        PutExp(k, name, e);
        assert Snapshot() == WithExp(WithExp(start, k, t), k, t[name := e]);
        WithExpTwice(start, k, t, t[name := e]);
        ExpEntriesExtend(df, names, i);
        UnionUpdate(before, ExpEntries(df, names[..i]), name, e);
        i := i + 1;
      }
      assert names[..i] == names;
    }

    /** load_calc_spectra: the whole table read for one name goes into the
        calculated table of the type. */
    method LoadCalcSpectra(read: CsvRead, kind: string, name: string) returns (error: Option<Error>)
      requires Valid() && Shaped(read, 2)
      modifies this
      ensures Valid()
      ensures Step(Snapshot(), error) == LoadCalcStep(old(Snapshot()), kind, name, read)
    {
      var parsed := ParseKind(kind);
      if parsed.Err? {
        return Some(parsed.error);
      }
      var k := parsed.value;
      var loaded := LoadSpectrum([name], read);
      if loaded.Err? {
        return Some(loaded.error);
      }
      LoadCalcKeepsValid(old(Snapshot()), kind, name, read);
      PutCalc(k, name, loaded.value);
      error := None;
    }

    /** smoothen: the smoother and the gradient are the external routines it calls.
        The onset region and the show flag only steer the optional plot, which is
        not modelled. */
    method Smoothen(kind: string, name: string, window: int, poly: int,
                    smooth: Smoother, gradient: Gradient,
                    onsetRegion: Option<Pair> := None, show: bool := true) returns (error: Option<Error>)
      requires Valid()
      modifies this
      ensures Valid()
      ensures Step(Snapshot(), error) == SmoothenStep(old(Snapshot()), kind, name, window, poly, smooth, gradient)
    {
      var parsed := ParseKind(kind);
      if parsed.Err? {
        return Some(parsed.error);
      }
      var k := parsed.value;
      var spectra := Exp(Snapshot(), k);
      if name !in spectra {
        return Some(KeyError(name));
      }
      SmoothenKeepsValid(Snapshot(), kind, name, window, poly, smooth, gradient);
      var smoothed := SmoothenFrame(spectra[name], name, window, poly, smooth, gradient);
      PutExp(k, name, smoothed.frame);
      error := smoothed.error;
    }

    method SetTitle(title: string)
      modifies this
      ensures Snapshot() == old(Snapshot()).(title := Some(title))
    {
      this.title := Some(title);
    }

    method SetFigsize(figsize: Pair)
      modifies this
      ensures Snapshot() == old(Snapshot()).(figsize := figsize)
    {
      this.figsize := figsize;
    }

    /** Both limits are set together; None clears one. */
    method SetXlims(xesXlims: Option<Pair>, xasXlims: Option<Pair>)
      modifies this
      ensures Snapshot() == old(Snapshot()).(xesXlims := xesXlims, xasXlims := xasXlims)
    {
      this.xesXlims := xesXlims;
      this.xasXlims := xasXlims;
    }

    /** add_arrow, with the text rotation 0 unless given. */
    method AddArrow(kind: string, xy: Pair, xyText: Pair, text: string, textRot: real := 0.0)
      returns (error: Option<Error>)
      requires Valid()
      modifies this
      ensures Valid()
      ensures Step(Snapshot(), error) == AddArrowStep(old(Snapshot()), kind, xy, xyText, text, textRot)
    {
      var parsed := ParseKind(kind);
      if parsed.Err? {
        return Some(parsed.error);
      }
      match parsed.value {
        case Xes => xesArrow := Some(Arrow(xy, xyText, text, textRot));
        case Xas => xasArrow := Some(Arrow(xy, xyText, text, textRot));
      }
      error := None;
    }
  }
}
