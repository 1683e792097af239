/** Reading a hidden-layer width out of a network-designer node label such as
    `Dense (Neurons: 64)`: the node must be of type `default` with `Dense` in its label, and the
    width is the run of digits captured by the regular expression `/Neurons: (\d+)/`. */
module LayerLabels {
  import opened Common
  import opened Decimal

  const Marker: string := "Neurons: "
  const DenseTag: string := "Dense"
  const DefaultNodeType: string := "default"

  /** `t` occurs in `s` starting at `i`. */
  predicate OccursAt(s: string, t: string, i: nat) {
    i + |t| <= |s| && s[i..i + |t|] == t
  }

  /** `s.includes(t)`. */
  predicate Contains(s: string, t: string) {
    exists i: nat | i <= |s| :: OccursAt(s, t, i)
  }

  /** The regular expression can match at `p`: the marker, then at least one digit. */
  predicate MatchesAt(s: string, p: nat) {
    p + |Marker| < |s| && s[p..p + |Marker|] == Marker && IsDigit(s[p + |Marker|])
  }

  /** The leftmost match at or after `from`, as the regex engine finds it. */
  function FindMatch(s: string, from: nat): (p: Option<nat>)
    ensures p.Some? ==> from <= p.value && MatchesAt(s, p.value)
    ensures p.Some? ==> forall q :: from <= q < p.value ==> !MatchesAt(s, q)
    ensures p.None? ==> forall q :: from <= q ==> !MatchesAt(s, q)
    decreases |s| - from
  {
    if from + |Marker| >= |s| then None
    else if MatchesAt(s, from) then Some(from)
    else FindMatch(s, from + 1)
  }

  /** The length of the longest run of digits starting at `i`: what the greedy `\d+` takes. */
  function DigitRun(s: string, i: nat): (n: nat)
    requires i <= |s|
    ensures i + n <= |s| && AllDigits(s[i..i + n])
    ensures i + n == |s| || !IsDigit(s[i + n])
    decreases |s| - i
  {
    if i < |s| && IsDigit(s[i]) then
      var rest := DigitRun(s, i + 1);
      assert s[i..i + 1 + rest] == [s[i]] + s[i + 1..i + 1 + rest];
      1 + rest
    else 0
  }

  /** The captured digits of the leftmost match, if any. */
  function Capture(s: string): Option<string> {
    match FindMatch(s, 0)
    case None => None
    case Some(p) =>
      var start := p + |Marker|;
      Some(s[start..start + DigitRun(s, start)])
  }

  /** `c` is what the pattern captures when its leftmost match is at `p`: the digits right
      after the marker, as many as there are. */
  predicate CapturedAt(s: string, c: string, p: nat) {
    MatchesAt(s, p) && (forall q: nat :: q < p ==> !MatchesAt(s, q))
    && OccursAt(s, c, p + |Marker|)
    && (p + |Marker| + |c| == |s| || !IsDigit(s[p + |Marker| + |c|]))
  }

  /** The capture is the non-empty, maximal run of digits right after the leftmost match, and
      there is none exactly when nothing matches. */
  lemma CaptureSpec(s: string)
    ensures Capture(s).Some? ==> |Capture(s).value| >= 1 && AllDigits(Capture(s).value)
    ensures Capture(s).None? <==> forall q :: !MatchesAt(s, q)
    ensures Capture(s).Some? ==> exists p: nat :: CapturedAt(s, Capture(s).value, p)
  {
    match FindMatch(s, 0)
    case None =>
    case Some(p) =>
      var start := p + |Marker|;
      var n := DigitRun(s, start);
      assert IsDigit(s[start]);
      var digits := s[start..start + n];
      assert Capture(s) == Some(digits);
      assert CapturedAt(s, digits, p);
  }

  /** The width a node contributes: only a `default` node whose label contains `Dense` and a
      match, parsed in base ten. */
  function LayerWidth(nodeType: Option<string>, nodeLabel: Option<string>): Option<nat> {
    if nodeType == Some(DefaultNodeType) && nodeLabel.Some? && Contains(nodeLabel.value, DenseTag) then
      match Capture(nodeLabel.value)
      case Some(digits) => Some(DecimalValue(digits))
      case None => None
    else None
  }

  /** A width is read exactly when the node is a `default` node whose label contains `Dense`
      and the pattern matches somewhere in it; it is then the captured digits in base ten. */
  lemma LayerWidthSpec(nodeType: Option<string>, nodeLabel: Option<string>)
    ensures LayerWidth(nodeType, nodeLabel).Some? <==>
              nodeType == Some(DefaultNodeType) && nodeLabel.Some? && Contains(nodeLabel.value, DenseTag)
              && exists q :: MatchesAt(nodeLabel.value, q)
    ensures LayerWidth(nodeType, nodeLabel).Some? ==>
              Capture(nodeLabel.value).Some?
              && LayerWidth(nodeType, nodeLabel).value == DecimalValue(Capture(nodeLabel.value).value)
  {
    if nodeLabel.Some? {
      CaptureSpec(nodeLabel.value);
    }
  }

  /** The label a `Dense` node is drawn with for a layer of `n` neurons. */
  function DenseLabel(n: nat): string {
    "Dense (Neurons: " + NatToDecimal(n) + ")"
  }

  /** A run of digits followed by a non-digit is taken whole. */
  lemma DigitRunOf(s: string, i: nat, digits: string)
    requires i + |digits| <= |s| && s[i..i + |digits|] == digits && AllDigits(digits)
    requires i + |digits| == |s| || !IsDigit(s[i + |digits|])
    ensures DigitRun(s, i) == |digits|
    decreases |digits|
  {
    if digits != [] {
      assert s[i] == digits[0];
      assert s[i + 1..i + 1 + |digits[1..]|] == digits[1..];
      DigitRunOf(s, i + 1, digits[1..]);
    }
  }

  /** Parsing the label drawn for `n` neurons gives back `n`. */
  lemma DenseLabelRoundTrip(n: nat)
    ensures LayerWidth(Some(DefaultNodeType), Some(DenseLabel(n))) == Some(n)
  {
    var s := DenseLabel(n);
    assert OccursAt(s, DenseTag, 0);
    DenseLabelCapture(n);
    DecimalRoundTrip(n);
  }

  /** The pattern captures exactly the digits written into the label. */
  lemma DenseLabelCapture(n: nat)
    ensures Capture(DenseLabel(n)) == Some(NatToDecimal(n))
  {
    var digits := NatToDecimal(n);
    var s := DenseLabel(n);
    assert s == "Dense (" + Marker + digits + ")";
    assert FindMatch(s, 0) == Some(7) by {
      assert s[7..16] == Marker;
      assert s[16] == digits[0];
      forall q | 0 <= q < 7
        ensures !MatchesAt(s, q)
      {
        assert s[q] != 'N';
      }
      FindMatchSkips(s, 0, 7);
    }
    assert s[16..16 + |digits|] == digits;
    DigitRunOf(s, 16, digits);
  }

  /** The label the designers start their hidden layers with reads as 64. */
  lemma Width64()
    ensures LayerWidth(Some(DefaultNodeType), Some("Dense (Neurons: 64)")) == Some(64)
  {
    DivUnique(64, 10, 6, 4);
    assert DigitChar(6) == '6' && DigitChar(4) == '4';
    assert NatToDecimal(64) == NatToDecimal(6) + [DigitChar(4)];
    assert NatToDecimal(64) == "64";
    assert DenseLabel(64) == "Dense (Neurons: 64)";
    DenseLabelRoundTrip(64);
  }

  /** Only nodes of type `default` contribute a width; a missing type or any other type reads
      as nothing whatever the label. */
  lemma OnlyDefaultNodes(nodeType: Option<string>, nodeLabel: Option<string>)
    requires nodeType != Some(DefaultNodeType)
    ensures LayerWidth(nodeType, nodeLabel) == None
  {
  }

  /** With no match strictly between `from` and a match at `p`, the search stops at `p`. */
  lemma {:induction false} FindMatchSkips(s: string, from: nat, p: nat)
    requires from <= p && MatchesAt(s, p)
    requires forall q :: from <= q < p ==> !MatchesAt(s, q)
    ensures FindMatch(s, from) == Some(p)
    decreases p - from
  {
    if from < p {
      FindMatchSkips(s, from + 1, p);
    }
  }
}
