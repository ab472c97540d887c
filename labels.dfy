/** Column labels of a loaded spectrum: every spectrum name gives an energy and an
    intensity column, and smoothing adds two more, all spelled name + fixed suffix. */
module Labels {

  function EnergyLabel(name: string): string { name + "_energy" }

  function IntensityLabel(name: string): string { name + "_intensity" }

  function SmoothedLabel(name: string): string { name + "_smoothed_intensity" }

  function SecondDerivativeLabel(name: string): string { name + "_smoothed_2nd" }

  /** No element occurs twice. */
  predicate Distinct<T(==)>(s: seq<T>) {
    forall i, j :: 0 <= i < j < |s| ==> s[i] != s[j]
  }

  /** Concatenation of a list of lists, in order. */
  function Flatten<T>(ss: seq<seq<T>>): seq<T> {
    if ss == [] then [] else ss[0] + Flatten(ss[1..])
  }

  /** One [energy, intensity] pair per name. */
  function HeaderPairs(names: seq<string>): (r: seq<seq<string>>)
    ensures |r| == |names|
    ensures forall i :: 0 <= i < |names| ==> r[i] == [EnergyLabel(names[i]), IntensityLabel(names[i])]
  {
    seq(|names|, i requires 0 <= i < |names| => [EnergyLabel(names[i]), IntensityLabel(names[i])])
  }

  /** The column headers handed to the CSV reader for a list of spectrum names. */
  function Headers(names: seq<string>): seq<string> {
    Flatten(HeaderPairs(names))
  }

  /** The headers are the names' energy and intensity labels, alternating, in the
      order of the names. */
  lemma HeadersLayout(names: seq<string>)
    ensures |Headers(names)| == 2 * |names|
    ensures forall i :: 0 <= i < |names| ==>
      Headers(names)[2 * i] == EnergyLabel(names[i]) && Headers(names)[2 * i + 1] == IntensityLabel(names[i])
    ensures forall k :: 0 <= k < |Headers(names)| ==>
      Headers(names)[k] == if k % 2 == 0 then EnergyLabel(names[k / 2]) else IntensityLabel(names[k / 2])
    ensures forall n :: n in names ==> EnergyLabel(n) in Headers(names) && IntensityLabel(n) in Headers(names)
  {
    var pairs := HeaderPairs(names);
    FlattenPairs(pairs);
    var r := Flatten(pairs);
    forall k | 0 <= k < |r|
      ensures r[k] == if k % 2 == 0 then EnergyLabel(names[k / 2]) else IntensityLabel(names[k / 2])
    {
      assert pairs[k / 2] == [EnergyLabel(names[k / 2]), IntensityLabel(names[k / 2])];
    }
    forall i | 0 <= i < |names|
      ensures r[2 * i] == EnergyLabel(names[i]) && r[2 * i + 1] == IntensityLabel(names[i])
    {
      assert (2 * i) / 2 == i && (2 * i) % 2 == 0 && (2 * i + 1) / 2 == i && (2 * i + 1) % 2 == 1;
    }
    forall n | n in names ensures EnergyLabel(n) in r && IntensityLabel(n) in r {
      var i :| 0 <= i < |names| && names[i] == n;
      assert r[2 * i] == EnergyLabel(n) && r[2 * i + 1] == IntensityLabel(n);
    }
  }

  /** The headers for a single name are its energy and intensity labels. */
  lemma SingleHeaders(name: string)
    ensures Headers([name]) == [EnergyLabel(name), IntensityLabel(name)]
  {
    HeadersLayout([name]);
    assert Headers([name])[2 * 0] == EnergyLabel(name);
    assert Headers([name])[2 * 0 + 1] == IntensityLabel(name);
  }

  /** Flattening lists of length two doubles the length and puts element j of list i at 2i+j. */
  lemma {:induction false} FlattenPairs<T>(ss: seq<seq<T>>)
    requires forall i :: 0 <= i < |ss| ==> |ss[i]| == 2
    ensures |Flatten(ss)| == 2 * |ss|
    ensures forall k :: 0 <= k < 2 * |ss| ==> Flatten(ss)[k] == ss[k / 2][k % 2]
  {
    if ss != [] {
      var tail := ss[1..];
      assert forall i :: 0 <= i < |tail| ==> |tail[i]| == 2 by {
        forall i | 0 <= i < |tail| ensures |tail[i]| == 2 { assert tail[i] == ss[i + 1]; }
      }
      FlattenPairs(tail);
      forall k | 0 <= k < 2 * |ss| ensures Flatten(ss)[k] == ss[k / 2][k % 2] {
        if k >= 2 {
          assert Flatten(ss)[k] == Flatten(tail)[k - 2];
          assert (k - 2) / 2 == k / 2 - 1 && (k - 2) % 2 == k % 2;
          assert tail[(k - 2) / 2] == ss[k / 2];
        }
      }
    }
  }

  /** Appending a fixed suffix is injective. */
  lemma SuffixCancel(a: string, b: string, s: string)
    requires a + s == b + s
    ensures a == b
  {
    assert |a| == |b|;
    assert a == (a + s)[..|a|];
    assert b == (b + s)[..|b|];
  }

  /** Distinct names give distinct labels of each kind. */
  lemma LabelsInjective(a: string, b: string)
    ensures EnergyLabel(a) == EnergyLabel(b) <==> a == b
    ensures IntensityLabel(a) == IntensityLabel(b) <==> a == b
    ensures SmoothedLabel(a) == SmoothedLabel(b) <==> a == b
    ensures SecondDerivativeLabel(a) == SecondDerivativeLabel(b) <==> a == b
  {
    if EnergyLabel(a) == EnergyLabel(b) { SuffixCancel(a, b, "_energy"); }
    if IntensityLabel(a) == IntensityLabel(b) { SuffixCancel(a, b, "_intensity"); }
    if SmoothedLabel(a) == SmoothedLabel(b) { SuffixCancel(a, b, "_smoothed_intensity"); }
    if SecondDerivativeLabel(a) == SecondDerivativeLabel(b) { SuffixCancel(a, b, "_smoothed_2nd"); }
  }

  /** An energy label never equals an intensity label, whatever the two names. */
  lemma EnergyIsNotIntensity(a: string, b: string)
    ensures EnergyLabel(a) != IntensityLabel(b)
  {
    var e, i := EnergyLabel(a), IntensityLabel(b);
    assert e[|e| - 2] == 'g' && i[|i| - 2] == 't';
  }

  /** The four labels of one spectrum are pairwise different. */
  lemma SpectrumLabelsDiffer(n: string)
    ensures EnergyLabel(n) != IntensityLabel(n)
    ensures EnergyLabel(n) != SmoothedLabel(n) && EnergyLabel(n) != SecondDerivativeLabel(n)
    ensures IntensityLabel(n) != SmoothedLabel(n) && IntensityLabel(n) != SecondDerivativeLabel(n)
    ensures SmoothedLabel(n) != SecondDerivativeLabel(n)
  {
    assert |EnergyLabel(n)| == |n| + 7 && |IntensityLabel(n)| == |n| + 10;
    assert |SmoothedLabel(n)| == |n| + 19 && |SecondDerivativeLabel(n)| == |n| + 13;
  }

  /** The headers repeat no label exactly when the names repeat no name. */
  lemma HeadersDistinct(names: seq<string>)
    ensures Distinct(Headers(names)) <==> Distinct(names)
  {
    if Distinct(names) {
      DistinctNamesGiveDistinctHeaders(names);
    }
    if Distinct(Headers(names)) {
      DistinctHeadersGiveDistinctNames(names);
    }
  }

  lemma DistinctNamesGiveDistinctHeaders(names: seq<string>)
    requires Distinct(names)
    ensures Distinct(Headers(names))
  {
    HeadersLayout(names);
    var hs := Headers(names);
    forall p, q | 0 <= p < q < |hs| ensures hs[p] != hs[q] {
      HeadersDiffer(names, p, q);
    }
  }

  lemma DistinctHeadersGiveDistinctNames(names: seq<string>)
    requires Distinct(Headers(names))
    ensures Distinct(names)
  {
    HeadersLayout(names);
    var hs := Headers(names);
    forall i, j | 0 <= i < j < |names| ensures names[i] != names[j] {
      assert hs[2 * i] != hs[2 * j];
    }
  }

  /** Two different positions of the headers of distinct names hold different labels. */
  lemma HeadersDiffer(names: seq<string>, p: int, q: int)
    requires Distinct(names) && 0 <= p < q < |Headers(names)|
    ensures Headers(names)[p] != Headers(names)[q]
  {
    HeadersLayout(names);
    var i, j := p / 2, q / 2;
    assert p == 2 * i + p % 2 && q == 2 * j + q % 2;
    if p % 2 == q % 2 {
      assert i < j;
      LabelsInjective(names[i], names[j]);
    } else if p % 2 == 0 {
      EnergyIsNotIntensity(names[i], names[j]);
    } else {
      EnergyIsNotIntensity(names[j], names[i]);
    }
  }
}
