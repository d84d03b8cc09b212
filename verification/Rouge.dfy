/**
 ROUGE-L similarity of two token lists (app/chat/worker.py:3703-3728).

 `Lcs` is the recursive value that the two-row loop of the source computes.
 It is tied to an independent notion, `CommonSubsequence`, in both directions:
 the value is attained, and no common subsequence is longer.
*/
module Rouge {

  type Token = string

  /** `places` picks the tokens of `part` out of `whole`, left to right. */
  ghost predicate Embeds(part: seq<Token>, whole: seq<Token>, places: seq<nat>) {
    && |places| == |part|
    && (forall i :: 0 <= i < |places| ==> places[i] < |whole| && whole[places[i]] == part[i])
    && (forall i, j :: 0 <= i < j < |places| ==> places[i] < places[j])
  }

  ghost predicate CommonSubsequence(part: seq<Token>, left: seq<Token>, right: seq<Token>) {
    (exists places :: Embeds(part, left, places)) && (exists places :: Embeds(part, right, places))
  }

  /** Longest common subsequence length, by the last tokens of the two lists. */
  ghost function Lcs(left: seq<Token>, right: seq<Token>): nat
    decreases |left| + |right|
  {
    if left == [] || right == [] then 0
    else
      var m, n := |left| - 1, |right| - 1;
      if left[m] == right[n] then Lcs(left[..m], right[..n]) + 1
      else
        var up, back := Lcs(left[..m], right), Lcs(left, right[..n]);
        if up >= back then up else back
  }

  /** Some common subsequence is that long. */
  lemma {:induction false} LcsAttained(left: seq<Token>, right: seq<Token>)
    returns (part: seq<Token>, inLeft: seq<nat>, inRight: seq<nat>)
    ensures Embeds(part, left, inLeft) && Embeds(part, right, inRight)
    ensures |part| == Lcs(left, right)
    decreases |left| + |right|
  {
    if left == [] || right == [] {
      part, inLeft, inRight := [], [], [];
    } else {
      var m, n := |left| - 1, |right| - 1;
      if left[m] == right[n] {
        var p, il, ir := LcsAttained(left[..m], right[..n]);
        part, inLeft, inRight := p + [left[m]], il + [m], ir + [n];
      } else if Lcs(left[..m], right) >= Lcs(left, right[..n]) {
        part, inLeft, inRight := LcsAttained(left[..m], right);
      } else {
        part, inLeft, inRight := LcsAttained(left, right[..n]);
      }
    }
  }

  /** Dropping the last token of the part frees the last place of the whole. */
  lemma EmbedsFront(part: seq<Token>, whole: seq<Token>, places: seq<nat>)
    requires part != [] && Embeds(part, whole, places)
    ensures whole != []
    ensures Embeds(part[..|part| - 1], whole[..|whole| - 1], places[..|places| - 1])
  {
    var k := |part| - 1;
    assert places[k] < |whole|;
    forall i | 0 <= i < k ensures places[i] < |whole| - 1 {
      assert places[i] < places[k];
    }
  }

  /** No common subsequence is longer. */
  lemma {:induction false} LcsLongest(part: seq<Token>, left: seq<Token>, right: seq<Token>, inLeft: seq<nat>, inRight: seq<nat>)
    requires Embeds(part, left, inLeft) && Embeds(part, right, inRight)
    ensures |part| <= Lcs(left, right)
    decreases |left| + |right|
  {
    if part != [] {
      var k := |part| - 1;
      EmbedsFront(part, left, inLeft);
      EmbedsFront(part, right, inRight);
      var m, n := |left| - 1, |right| - 1;
      if left[m] == right[n] {
        LcsLongest(part[..k], left[..m], right[..n], inLeft[..k], inRight[..k]);
      } else if inLeft[k] < m {
        LcsLongest(part, left[..m], right, inLeft, inRight);
      } else {
        LcsLongest(part, left, right[..n], inLeft, inRight);
      }
    }
  }

  /** `Lcs` is the maximum length over all common subsequences. */
  lemma LcsIsMaximum(left: seq<Token>, right: seq<Token>)
    ensures exists part :: CommonSubsequence(part, left, right) && |part| == Lcs(left, right)
    ensures forall part :: CommonSubsequence(part, left, right) ==> |part| <= Lcs(left, right)
  {
    var best, il, ir := LcsAttained(left, right);
    assert CommonSubsequence(best, left, right);
    forall part | CommonSubsequence(part, left, right) ensures |part| <= Lcs(left, right) {
      var a :| Embeds(part, left, a);
      var b :| Embeds(part, right, b);
      LcsLongest(part, left, right, a, b);
    }
  }

  lemma LcsSymmetric(left: seq<Token>, right: seq<Token>)
    ensures Lcs(left, right) == Lcs(right, left)
  {
    var a, al, ar := LcsAttained(left, right);
    LcsLongest(a, right, left, ar, al);
    var b, br, bl := LcsAttained(right, left);
    LcsLongest(b, left, right, bl, br);
  }

  /** A place never lies before its own position. */
  lemma {:induction false} PlacesGrow(part: seq<Token>, whole: seq<Token>, places: seq<nat>, i: nat)
    requires Embeds(part, whole, places) && i < |places|
    ensures places[i] >= i
    ensures |whole| - places[i] >= |places| - i
    decreases |places| - i
  {
    if i > 0 { PlacesGrowDown(places, i); }
    if i + 1 < |places| {
      PlacesGrow(part, whole, places, i + 1);
      assert places[i] < places[i + 1];
    }
  }

  lemma {:induction false} PlacesGrowDown(places: seq<nat>, i: nat)
    requires i < |places|
    requires forall a, b :: 0 <= a < b < |places| ==> places[a] < places[b]
    ensures places[i] >= i
  {
    if i > 0 {
      PlacesGrowDown(places, i - 1);
      assert places[i - 1] < places[i];
    }
  }

  lemma LcsBounds(left: seq<Token>, right: seq<Token>)
    ensures Lcs(left, right) <= |left| && Lcs(left, right) <= |right|
    ensures Lcs(left, right) == |left| == |right| <==> left == right
  {
    var p, il, ir := LcsAttained(left, right);
    if p != [] {
      PlacesGrow(p, left, il, 0);
      PlacesGrow(p, right, ir, 0);
    }
    if |p| == |left| == |right| {
      forall i | 0 <= i < |p| ensures left[i] == right[i] {
        PlacesGrow(p, left, il, i);
        PlacesGrow(p, right, ir, i);
      }
      assert left == right;
    }
    if left == right {
      var here := seq(|left|, i => i);
      assert Embeds(left, left, here);
      LcsLongest(left, left, right, here, here);
    }
  }

  /** The two-row table of the source: one fresh row per token of `left`. */
  method LcsLength(left: seq<Token>, right: seq<Token>) returns (length: nat)
    ensures length == Lcs(left, right)
  {
    var width := |right| + 1;
    var previous := new nat[width](_ => 0);
    for i := 0 to |left|
      invariant previous.Length == width
      invariant forall k :: 0 <= k < width ==> previous[k] == Lcs(left[..i], right[..k])
    {
      var current := new nat[width](_ => 0);
      for j := 0 to |right|
        invariant current.Length == width && fresh(current) && previous.Length == width
        invariant forall k :: 0 <= k < width ==> previous[k] == Lcs(left[..i], right[..k])
        invariant forall k :: 0 <= k <= j ==> current[k] == Lcs(left[..i + 1], right[..k])
      {
        assert left[..i + 1][..i] == left[..i] && right[..j + 1][..j] == right[..j];
        if left[i] == right[j] {
          current[j + 1] := previous[j] + 1;
        } else {
          current[j + 1] := if previous[j + 1] >= current[j] then previous[j + 1] else current[j];
        }
      }
      previous := current;
    }
    assert left[..|left|] == left && right[..|right|] == right;
    return previous[|right|];
  }

  /** Normalised F-measure; the source's floats are read as reals. */
  ghost function RougeL(left: seq<Token>, right: seq<Token>): real {
    if left == [] || right == [] then if left == right then 1.0 else 0.0
    else
      var lcs := Lcs(left, right) as real;
      FMeasure(lcs / |left| as real, lcs / |right| as real)
  }

  function FMeasure(recall: real, precision: real): real {
    if recall + precision == 0.0 then 0.0 else 2.0 * recall * precision / (recall + precision)
  }

  method RougeScore(left: seq<Token>, right: seq<Token>) returns (score: real)
    ensures score == RougeL(left, right)
  {
    if left == [] || right == [] {
      return if left == right then 1.0 else 0.0;
    }
    var lcs := LcsLength(left, right);
    return FMeasure(lcs as real / |left| as real, lcs as real / |right| as real);
  }

  lemma HarmonicMean(l: real, m: real, n: real)
    requires l >= 0.0 && m > 0.0 && n > 0.0
    ensures FMeasure(l / m, l / n) == 2.0 * l / (m + n)
  {
    var r, p := l / m, l / n;
    assert r * m == l && p * n == l;
    if l == 0.0 {
      assert r == 0.0 && p == 0.0;
    } else {
      assert r > 0.0 && p > 0.0;
      var q := FMeasure(r, p);
      assert q * (r + p) == 2.0 * r * p;
      assert r * p * (m + n) == l * (r + p) by {
        assert r * p * (m + n) == (r * m) * p + (p * n) * r;
      }
      assert q * (m + n) * (r + p) == 2.0 * l * (r + p) by {
        assert q * (m + n) * (r + p) == (q * (r + p)) * (m + n);
      }
    }
  }

  /** On non-empty lists the score is 2*lcs/(m+n). */
  lemma RougeClosedForm(left: seq<Token>, right: seq<Token>)
    requires left != [] && right != []
    ensures RougeL(left, right) == 2.0 * Lcs(left, right) as real / (|left| + |right|) as real
  {
    HarmonicMean(Lcs(left, right) as real, |left| as real, |right| as real);
  }

  lemma RatioBounds(a: real, b: real)
    requires 0.0 <= a <= b && b > 0.0
    ensures 0.0 <= a / b <= 1.0
    ensures a / b == 1.0 <==> a == b
  {
    assert (a / b) * b == a;
  }

  /** Symmetric, within [0, 1], and 1 exactly on equal lists. */
  lemma RougeLaws(left: seq<Token>, right: seq<Token>)
    ensures RougeL(left, right) == RougeL(right, left)
    ensures 0.0 <= RougeL(left, right) <= 1.0
    ensures RougeL(left, right) == 1.0 <==> left == right
  {
    if left != [] && right != [] {
      LcsSymmetric(left, right);
      LcsBounds(left, right);
      RougeClosedForm(left, right);
      RougeClosedForm(right, left);
      var a, b := 2.0 * Lcs(left, right) as real, (|left| + |right|) as real;
      RatioBounds(a, b);
    }
  }
}
