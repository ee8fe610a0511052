/** The five ranking factors and the global weight set: three fixed presets, or five
    integer percentages that are rescaled proportionally when they do not total 100. */
module Weights {
  import opened Series

  datatype Factor = QTF | TM | PS | CC | RO

  /** The order in which the pipeline visits the factors. */
  const Order: seq<Factor> := [QTF, TM, PS, CC, RO]

  lemma OrderListsEachFactorOnce(f: Factor)
    ensures f in Order
    ensures forall i, j :: 0 <= i < j < |Order| ==> Order[i] != Order[j]
  {
  }

  /** A per-factor mapping that has an entry for every factor. */
  predicate Complete<T>(m: map<Factor, T>)
  {
    m.Keys == {QTF, TM, PS, CC, RO}
  }

  /** The entries of a complete mapping, in factor order. */
  function Values(m: map<Factor, real>): (v: seq<real>)
    requires Complete(m)
    ensures |v| == |Order| && forall i :: 0 <= i < |Order| ==> v[i] == m[Order[i]]
  {
    [m[QTF], m[TM], m[PS], m[CC], m[RO]]
  }

  /** A usable weight set: an entry per factor, non-negative, summing to one. */
  ghost predicate ValidWeights(w: map<Factor, real>)
  {
    Complete(w) && IsConvex(Values(w))
  }

  /** An entry per factor, none of them negative. */
  predicate NonNegativeWeights(w: map<Factor, real>)
  {
    Complete(w) && forall i :: 0 <= i < |Order| ==> Values(w)[i] >= 0.0
  }

  /** Integer percentages, one per factor, as the five sliders give them. */
  datatype Percentages = Percentages(qtf: int, tm: int, ps: int, cc: int, ro: int)
  {
    /** The sum of the five sliders. */
    function Total(): int
    {
      qtf + tm + ps + cc + ro
    }

    function Of(f: Factor): int
    {
      match f
      case QTF => qtf
      case TM => tm
      case PS => ps
      case CC => cc
      case RO => ro
    }

    predicate NonNegative()
    {
      qtf >= 0 && tm >= 0 && ps >= 0 && cc >= 0 && ro >= 0
    }
  }

  datatype Scheme = Default | ResearchFocused | TeachingFocused | Custom(percent: Percentages)

  /** The three fixed weight sets, exactly as the sidebar's table lists them. */
  function PresetAsWritten(s: Scheme): (w: map<Factor, real>)
    requires !s.Custom?
    ensures Complete(w)
  {
    match s
    case Default => map[QTF := 0.25, TM := 0.20, PS := 0.20, CC := 0.15, RO := 0.20]
    case ResearchFocused => map[QTF := 0.20, TM := 0.15, PS := 0.15, CC := 0.10, RO := 0.30]
    case TeachingFocused => map[QTF := 0.35, TM := 0.30, PS := 0.15, CC := 0.10, RO := 0.10]
  }

  /** The Research-focused row of the table totals 0.90, not 1. */
  lemma ResearchPresetTotalsNinetyPercent()
    ensures Sum(Values(PresetAsWritten(ResearchFocused))) == 0.90
  {
    var w := PresetAsWritten(ResearchFocused);
    assert Values(w) == [0.20, 0.15, 0.15, 0.10, 0.30];
    SumOfFive(0.20, 0.15, 0.15, 0.10, 0.30);
  }

  /** The presets as evidently intended: the table, with the Research-focused row rescaled
      proportionally to total one, by the rule the sidebar applies to custom weights.
      The pipeline itself follows the program and uses PresetAsWritten. */
  function Preset(s: Scheme): (w: map<Factor, real>)
    requires !s.Custom?
    ensures Complete(w)
  {
    if s.ResearchFocused? then Normalized(Percentages(20, 15, 15, 10, 30)) else PresetAsWritten(s)
  }

  /** The corrected Research-focused row keeps the table's proportions. */
  lemma ResearchPresetKeepsProportions(f: Factor)
    ensures Preset(ResearchFocused)[f] == PresetAsWritten(ResearchFocused)[f] / 0.90
  {
    NormalizedAt(Percentages(20, 15, 15, 10, 30), f);
  }

  /** Each preset, as corrected, is a valid weight set. */
  lemma PresetValid(s: Scheme)
    requires !s.Custom?
    ensures ValidWeights(Preset(s))
  {
    match s
    case Default =>
      assert Values(Preset(s)) == [0.25, 0.20, 0.20, 0.15, 0.20];
      ConvexOfFive(0.25, 0.20, 0.20, 0.15, 0.20);
    case ResearchFocused =>
      NormalizedValid(Percentages(20, 15, 15, 10, 30));
    case TeachingFocused =>
      assert Values(Preset(s)) == [0.35, 0.30, 0.15, 0.10, 0.10];
      ConvexOfFive(0.35, 0.30, 0.15, 0.10, 0.10);
  }

  lemma ConvexOfFive(a: real, b: real, c: real, d: real, e: real)
    requires a >= 0.0 && b >= 0.0 && c >= 0.0 && d >= 0.0 && e >= 0.0 && a + b + c + d + e == 1.0
    ensures IsConvex([a, b, c, d, e])
  {
    SumOfFive(a, b, c, d, e);
  }

  /** A factor's share of the total percentage; nothing when the total is not positive. */
  function Share(pct: int, total: int): real
  {
    if total > 0 then pct as real / total as real else 0.0
  }

  /** Custom weights as the share of each percentage in the total. */
  function Normalized(p: Percentages): (w: map<Factor, real>)
    ensures Complete(w)
  {
    var t := p.Total();
    map[QTF := Share(p.qtf, t), TM := Share(p.tm, t), PS := Share(p.ps, t),
        CC := Share(p.cc, t), RO := Share(p.ro, t)]
  }

  /** The weights a scheme selects: the table row as written, or the normalized sliders. */
  function SchemeWeights(s: Scheme): (w: map<Factor, real>)
    ensures Complete(w)
    ensures !s.Custom? ==> w == PresetAsWritten(s)
    ensures s.Custom? ==> w == Normalized(s.percent)
  {
    if s.Custom? then Normalized(s.percent) else PresetAsWritten(s)
  }

  /** Each custom weight is its percentage's share of the total. */
  lemma NormalizedAt(p: Percentages, f: Factor)
    ensures f in Normalized(p) && Normalized(p)[f] == Share(p.Of(f), p.Total())
  {
  }

  /** With a positive total, each custom weight is its percentage divided by the total,
      so rescaling keeps the proportions between the factors. */
  lemma NormalizedAtPositive(p: Percentages, f: Factor)
    requires p.Total() > 0
    ensures f in Normalized(p) && Normalized(p)[f] == p.Of(f) as real / p.Total() as real
  {
    NormalizedAt(p, f);
  }

  /** Shares of one positive total keep the ratio of their percentages: with NormalizedAt,
      rescaled custom weights stand in the same proportions as the sliders. */
  lemma SharesKeepRatios(a: int, b: int, total: int)
    requires total > 0
    ensures Share(a, total) * b as real == Share(b, total) * a as real
  {
    var t := total as real;
    assert Share(a, total) * b as real == (a as real * b as real) / t;
    assert Share(b, total) * a as real == (a as real * b as real) / t;
  }

  /** Scaling by 100 / total and dividing by 100 gives the share; a zero factor gives 0. */
  lemma RescaledIsShare(pct: int, total: int, normFactor: real)
    requires normFactor == if total > 0 then 100.0 / total as real else 0.0
    ensures pct as real * normFactor / 100.0 == Share(pct, total)
  {
    if total > 0 {
      var t := total as real;
      assert pct as real * (100.0 / t) / 100.0 == pct as real / t;
    }
  }

  lemma SharesAdd(a: real, b: real, c: real, d: real, e: real, t: real)
    requires t != 0.0
    ensures a / t + b / t + c / t + d / t + e / t == (a + b + c + d + e) / t
  {
  }

  lemma RescaledMapIsNormalized(p: Percentages, normFactor: real)
    requires normFactor == if p.Total() > 0 then 100.0 / p.Total() as real else 0.0
    ensures map[QTF := p.qtf as real * normFactor / 100.0,
                TM := p.tm as real * normFactor / 100.0,
                PS := p.ps as real * normFactor / 100.0,
                CC := p.cc as real * normFactor / 100.0,
                RO := p.ro as real * normFactor / 100.0] == Normalized(p)
  {
    var t := p.Total();
    var a := p.qtf as real * normFactor / 100.0;
    var b := p.tm as real * normFactor / 100.0;
    var c := p.ps as real * normFactor / 100.0;
    var d := p.cc as real * normFactor / 100.0;
    var e := p.ro as real * normFactor / 100.0;
    assert a == Share(p.qtf, t) by { RescaledIsShare(p.qtf, t, normFactor); }
    assert b == Share(p.tm, t) by { RescaledIsShare(p.tm, t, normFactor); }
    assert c == Share(p.ps, t) by { RescaledIsShare(p.ps, t, normFactor); }
    assert d == Share(p.cc, t) by { RescaledIsShare(p.cc, t, normFactor); }
    assert e == Share(p.ro, t) by { RescaledIsShare(p.ro, t, normFactor); }
  }

  lemma ExactMapIsNormalized(p: Percentages)
    requires p.Total() == 100
    ensures map[QTF := p.qtf as real / 100.0,
                TM := p.tm as real / 100.0,
                PS := p.ps as real / 100.0,
                CC := p.cc as real / 100.0,
                RO := p.ro as real / 100.0] == Normalized(p)
  {
  }

  /** Selects the global weights the way the sidebar does: a preset row as the table lists it, custom
      percentages divided by 100 when they total 100, and rescaled by 100 / total (or by 0
      if the total is not positive) otherwise; renormalized reports the warning case. */
  method CurrentWeights(scheme: Scheme) returns (weights: map<Factor, real>, renormalized: bool)
    ensures renormalized <==> scheme.Custom? && scheme.percent.Total() != 100
    ensures weights == SchemeWeights(scheme)
  {
    if scheme.Custom? {
      var p := scheme.percent;
      var total := p.Total();
      if total != 100 {
        renormalized := true;
        var normFactor := if total > 0 then 100.0 / total as real else 0.0;
        weights := map[QTF := p.qtf as real * normFactor / 100.0,
                       TM := p.tm as real * normFactor / 100.0,
                       PS := p.ps as real * normFactor / 100.0,
                       CC := p.cc as real * normFactor / 100.0,
                       RO := p.ro as real * normFactor / 100.0];
        RescaledMapIsNormalized(p, normFactor);
      } else {
        renormalized := false;
        weights := map[QTF := p.qtf as real / 100.0,
                       TM := p.tm as real / 100.0,
                       PS := p.ps as real / 100.0,
                       CC := p.cc as real / 100.0,
                       RO := p.ro as real / 100.0];
        ExactMapIsNormalized(p);
      }
    } else {
      renormalized := false;
      weights := PresetAsWritten(scheme);
    }
  }

  /** Percentages that total exactly 100 are used as fractions, unchanged. */
  lemma NormalizedAtHundred(p: Percentages, f: Factor)
    requires p.Total() == 100
    ensures Normalized(p)[f] == p.Of(f) as real / 100.0
  {
    NormalizedAt(p, f);
  }

  /** Any positive total is rescaled to weights that sum to one. */
  lemma NormalizedSumsToOne(p: Percentages)
    requires p.Total() > 0
    ensures Sum(Values(Normalized(p))) == 1.0
  {
    var w := Normalized(p);
    var t := p.Total() as real;
    assert Values(w) == [w[QTF], w[TM], w[PS], w[CC], w[RO]];
    SumOfFive(w[QTF], w[TM], w[PS], w[CC], w[RO]);
    SharesAdd(p.qtf as real, p.tm as real, p.ps as real, p.cc as real, p.ro as real, t);
    assert t / t == 1.0;
  }

  /** A total that is not positive gives every factor weight zero. */
  lemma NormalizedWithoutTotal(p: Percentages, f: Factor)
    requires p.Total() <= 0
    ensures Normalized(p)[f] == 0.0
  {
    NormalizedAt(p, f);
  }

  /** Non-negative percentages with a positive total give a valid weight set. */
  lemma NormalizedValid(p: Percentages)
    requires p.NonNegative() && p.Total() > 0
    ensures ValidWeights(Normalized(p))
  {
    NormalizedSumsToOne(p);
    var w := Normalized(p);
    var t := p.Total() as real;
    forall i | 0 <= i < |Order|
      ensures Values(w)[i] >= 0.0
    {
      assert Values(w)[i] == p.Of(Order[i]) as real / t;
    }
  }

  /** The total weight a scheme selects: 0.90 for the Research-focused row as written,
      zero for custom sliders that are all at zero, and one otherwise. */
  function SchemeTotal(s: Scheme): real
  {
    if s.ResearchFocused? then 0.90
    else if s.Custom? && s.percent.Total() <= 0 then 0.0
    else 1.0
  }

  /** Every scheme with non-negative sliders selects non-negative weights summing to
      SchemeTotal(s), so the selection is a valid weight set exactly for Default,
      Teaching-focused and custom sliders with a positive total. */
  lemma SchemeWeightsValid(s: Scheme)
    requires s.Custom? ==> s.percent.NonNegative()
    ensures NonNegativeWeights(SchemeWeights(s))
    ensures Sum(Values(SchemeWeights(s))) == SchemeTotal(s)
    ensures ValidWeights(SchemeWeights(s)) <==> SchemeTotal(s) == 1.0
  {
    var w := SchemeWeights(s);
    match s
    case Default =>
      PresetValid(s);
    case TeachingFocused =>
      PresetValid(s);
    case ResearchFocused =>
      assert Values(w) == [0.20, 0.15, 0.15, 0.10, 0.30];
      ResearchPresetTotalsNinetyPercent();
    case Custom(p) =>
      if p.Total() > 0 {
        NormalizedValid(p);
      } else {
        assert Values(w) == [0.0, 0.0, 0.0, 0.0, 0.0];
        SumOfFive(0.0, 0.0, 0.0, 0.0, 0.0);
      }
  }

  /** Custom percentages (30, 30, 20, 10, 10) total 100 and are used as they are. */
  lemma CustomExactExample()
    ensures SchemeWeights(Custom(Percentages(30, 30, 20, 10, 10)))
         == map[QTF := 0.30, TM := 0.30, PS := 0.20, CC := 0.10, RO := 0.10]
  {
  }

  /** Custom percentages of 40 each total 200 and are halved to 20% each. */
  lemma CustomRescaledExample()
    ensures SchemeWeights(Custom(Percentages(40, 40, 40, 40, 40)))
         == map[QTF := 0.20, TM := 0.20, PS := 0.20, CC := 0.20, RO := 0.20]
  {
  }
}
