/** Scoring screening verdicts against a gold standard: the confusion-matrix count and the
    smoothed Matthews correlation coefficient and F-score computed from it. */
module Evaluator {
  import opened Wrappers

  /** A `relevant` cell as read back from a results table: missing (None) or some text. */
  type Relevance = Option<string>

  /** Only the exact text 'True' counts as positive: neither another spelling nor a missing cell does. */
  predicate IsPositive(v: Relevance)
    ensures IsPositive(v) ==> v.Some? && |v.value| == 4
    ensures v == None || v == Some("true") || v == Some("TRUE") || v == Some("1") || v == Some("") ==> !IsPositive(v)
  {
    v == Some("True")
  }

  datatype Cell = TruePositive | TrueNegative | FalsePositive | FalseNegative

  /** The confusion-matrix cell one predicted title falls into, or None when it is skipped. */
  function Classify(title: string, predicted: Relevance, gold: map<string, Relevance>): (c: Option<Cell>)
    ensures c.None? <==> predicted == None || predicted == Some("") || title !in gold
    ensures c.Some? ==> ((c.value == TruePositive || c.value == FalsePositive) <==> IsPositive(predicted))
    ensures c.Some? ==> ((c.value == TruePositive || c.value == FalseNegative) <==> IsPositive(gold[title]))
  {
    if predicted == None || predicted == Some("") then None
    else if title !in gold then None
    else if IsPositive(gold[title]) then Some(if IsPositive(predicted) then TruePositive else FalseNegative)
    else Some(if IsPositive(predicted) then FalsePositive else TrueNegative)
  }

  /** The predictions that are scored at all: a non-empty prediction for a title the gold
      standard knows. */
  function Scored(data: seq<(string, Relevance)>, gold: map<string, Relevance>): (scored: seq<(string, Relevance)>)
    ensures |scored| <= |data|
    ensures forall i :: 0 <= i < |scored| ==> scored[i] in data && scored[i].0 in gold && scored[i].1 != None && scored[i].1 != Some("")
    decreases |data|
  {
    if |data| == 0 then []
    else
      var last := data[|data| - 1];
      Scored(data[..|data| - 1], gold)
        + (if Classify(last.0, last.1, gold).Some? then [last] else [])
  }

  /** The predictions that land in `cell`. */
  function InCell(data: seq<(string, Relevance)>, gold: map<string, Relevance>, cell: Cell): (inCell: seq<(string, Relevance)>)
    ensures |inCell| <= |Scored(data, gold)|
    ensures forall i :: 0 <= i < |inCell| ==> inCell[i] in data && Classify(inCell[i].0, inCell[i].1, gold) == Some(cell)
    decreases |data|
  {
    if |data| == 0 then []
    else
      var last := data[|data| - 1];
      InCell(data[..|data| - 1], gold, cell)
        + (if Classify(last.0, last.1, gold) == Some(cell) then [last] else [])
  }

  /** `get_tp_tn_fp_fn`, with the two tables read by the collaborator passed in: `data` in
      its iteration order, `gold` as a dictionary. */
  method GetTpTnFpFn(data: seq<(string, Relevance)>, gold: map<string, Relevance>)
    returns (tp: nat, tn: nat, fp: nat, fn: nat)
    ensures tp == |InCell(data, gold, TruePositive)|
    ensures tn == |InCell(data, gold, TrueNegative)|
    ensures fp == |InCell(data, gold, FalsePositive)|
    ensures fn == |InCell(data, gold, FalseNegative)|
    ensures tp + tn + fp + fn == |Scored(data, gold)|
  {
    tp, tn, fp, fn := 0, 0, 0, 0;
    var i := 0;
    while i < |data|
      invariant 0 <= i <= |data|
      invariant tp == |InCell(data[..i], gold, TruePositive)|
      invariant tn == |InCell(data[..i], gold, TrueNegative)|
      invariant fp == |InCell(data[..i], gold, FalsePositive)|
      invariant fn == |InCell(data[..i], gold, FalseNegative)|
      invariant tp + tn + fp + fn == |Scored(data[..i], gold)|
    {
      var title := data[i].0;
      var predicted := data[i].1;
      assert data[..i + 1][..i] == data[..i];
      if predicted == None || predicted == Some("") {
        // no result for this entry: skipped
      } else {
        var relevant := IsPositive(predicted);
        if title in gold {
          if IsPositive(gold[title]) {
            if relevant { tp := tp + 1; } else { fn := fn + 1; }
          } else {
            if relevant { fp := fp + 1; } else { tn := tn + 1; }
          }
        }
      }
      i := i + 1;
    }
    assert data[..|data|] == data;
  }

  /** Both halves of the Matthews coefficient after adding one to every cell:
      MCC = numerator / sqrt(denominatorSquared). */
  datatype MccParts = MccParts(numerator: int, denominatorSquared: int)

  function SmoothedMcc(tp: nat, tn: nat, fp: nat, fn: nat): (m: MccParts)
    ensures m.denominatorSquared >= 16
    ensures m.numerator * m.numerator <= m.denominatorSquared
  {
    var a, d, b, c := tp + 1, tn + 1, fp + 1, fn + 1;
    var parts := MccParts(a * d - b * c, (a + b) * (a + c) * (d + b) * (d + c));
    MccBounded(a, b, c, d);
    parts
  }

  /** For positive cells, (ad - bc)^2 <= (a+b)(a+c)(d+b)(d+c): the coefficient lies in [-1, 1]. */
  lemma MccBounded(a: nat, b: nat, c: nat, d: nat)
    requires a >= 1 && b >= 1 && c >= 1 && d >= 1
    ensures (a + b) * (a + c) * (d + b) * (d + c) >= 16
    ensures (a * d - b * c) * (a * d - b * c) <= (a + b) * (a + c) * (d + b) * (d + c)
  {
    var u, v := a * d, b * c;
    var x, y := (a + b) * (d + c), (a + c) * (d + b);
    Expand(a, b, d, c);
    Expand(a, c, d, b);
    assert x >= u + v >= 0 && y >= u + v;
    MulMonotone(x, y, u + v);
    Regroup(a + b, a + c, d + b, d + c);
    SquareGap(u, v);
    assert x >= 4 by { Expand(a, b, d, c); }
    assert y >= 4 by { Expand(a, c, d, b); }
    MulMonotone(x, y, 4);
  }

  lemma Expand(a: nat, b: nat, d: nat, c: nat)
    ensures (a + b) * (d + c) == a * d + b * c + a * c + b * d
    ensures a * c >= 0 && b * d >= 0 && a * d >= 0 && b * c >= 0
    ensures a >= 1 && b >= 1 && c >= 1 && d >= 1 ==> (a + b) * (d + c) >= 4
  {
    if a >= 1 && b >= 1 && c >= 1 && d >= 1 {
      assert a * d >= 1 && b * c >= 1 && a * c >= 1 && b * d >= 1;
    }
  }

  lemma Regroup(x1: int, x2: int, x3: int, x4: int)
    ensures x1 * x2 * x3 * x4 == (x1 * x4) * (x2 * x3)
  {
  }

  lemma SquareGap(u: int, v: int)
    requires u >= 0 && v >= 0
    ensures (u - v) * (u - v) <= (u + v) * (u + v)
  {
    assert (u + v) * (u + v) - (u - v) * (u - v) == 4 * u * v;
  }

  lemma MulMonotone(x: int, y: int, p: int)
    requires x >= p >= 0 && y >= p
    ensures x * y >= p * p
  {
    assert x * y - p * y == (x - p) * y;
    assert (x - p) * y >= 0;
    assert p * y - p * p == p * (y - p);
    assert p * (y - p) >= 0;
  }

  /** With every cell empty the smoothed numerator is 1*1 - 1*1, so the coefficient is 0. */
  lemma MccOfNothing()
    ensures SmoothedMcc(0, 0, 0, 0).numerator == 0
  {
  }

  /** Exchanging the roles of positive and negative leaves the coefficient unchanged; swapping
      what is counted as true with what is counted as false negates it. */
  lemma MccSymmetry(tp: nat, tn: nat, fp: nat, fn: nat)
    ensures SmoothedMcc(tn, tp, fn, fp) == SmoothedMcc(tp, tn, fp, fn)
    ensures SmoothedMcc(fp, fn, tp, tn).numerator == -SmoothedMcc(tp, tn, fp, fn).numerator
    ensures SmoothedMcc(fp, fn, tp, tn).denominatorSquared == SmoothedMcc(tp, tn, fp, fn).denominatorSquared
  {
    var a, d, b, c := tp + 1, tn + 1, fp + 1, fn + 1;
    assert (d + c) * (d + b) * (a + c) * (a + b) == (a + b) * (a + c) * (d + b) * (d + c);
    assert (b + a) * (b + d) * (c + a) * (c + d) == (a + b) * (a + c) * (d + b) * (d + c);
  }

  /** `calculate_f_score`: tp / (tp + (fp + fn) / 2), a ZeroDivisionError when all three are 0. */
  function FScore(tp: nat, fp: nat, fn: nat): (r: Outcome<real>)
    ensures r.Raised? <==> tp == 0 && fp == 0 && fn == 0
    ensures r.Raised? ==> r.error == ZeroDivisionError
    ensures !r.Stalled?
    ensures r.Ok? ==> r.value * ((2 * tp + fp + fn) as real) == (2 * tp) as real
    ensures r.Ok? ==> 0.0 <= r.value <= 1.0
    ensures r.Ok? ==> (r.value == 1.0 <==> fp + fn == 0)
    ensures r.Ok? ==> (r.value == 0.0 <==> tp == 0)
  {
    var denominator := tp as real + 0.5 * ((fp + fn) as real);
    if denominator == 0.0 then Raised(ZeroDivisionError)
    else
      var score := tp as real / denominator;
      assert score * denominator == tp as real;
      assert (2 * tp + fp + fn) as real == 2.0 * denominator;
      assert score <= 1.0 by {
        assert tp as real <= denominator;
      }
      Ok(score)
  }
}
