/**
 * The kernel's simulated "AI assessment" of an idea (`computeAI`): a score from the length
 * of the description and a compatibility from keywords shared with the chosen campaign.
 */
module Scoring {
  import opened Options
  import opened KernelTypes
  import opened Text

  const DigitalKeyword := "digital"
  const TransformationKeyword := "transforma\U{00E7}\U{00E3}o"
  const EfficiencyKeyword := "efici\U{00EA}ncia"

  datatype Assessment = Assessment(score: int, compat: int)

  function Clamp(x: int, lo: int, hi: int): int
    requires lo <= hi
  {
    if x < lo then lo else if x > hi then hi else x
  }

  /** `score_ai`: the byte length of the description divided by 5, kept within [30, 100]. */
  function Score(description: string): (s: int)
    ensures 30 <= s <= 100
  {
    Clamp(Utf8Length(description) / 5, 30, 100)
  }

  function MinReal(a: real, b: real): real { if a <= b then a else b }
  function MaxReal(a: real, b: real): real { if a >= b then a else b }

  /** `(int)min(100, max(30, strlen($description) / 5))` evaluated with real division. */
  function PhpScore(len: nat): int {
    MinReal(100.0, MaxReal(30.0, len as real / 5.0)).Floor
  }

  lemma FloorOfFifth(n: nat)
    ensures (n as real / 5.0).Floor == n / 5
  {
    var q, r := n / 5, n % 5;
    assert n == 5 * q + r;
    assert n as real / 5.0 == q as real + r as real / 5.0;
  }

  /** The integer clamp is exactly what PHP's float formula yields, so no floats are needed. */
  lemma ScoreIsPhpFormula(description: string)
    ensures Score(description) == PhpScore(Utf8Length(description))
  {
    var n := Utf8Length(description);
    FloorOfFifth(n);
    if n < 150 {
      assert n as real / 5.0 < 30.0;
    } else if n >= 500 {
      assert n as real / 5.0 >= 100.0;
    } else {
      assert 30.0 <= n as real / 5.0 < 100.0;
    }
  }

  /** Longer descriptions never score lower. */
  lemma ScoreMonotone(d1: string, d2: string)
    requires Utf8Length(d1) <= Utf8Length(d2)
    ensures Score(d1) <= Score(d2)
  {
    assert Utf8Length(d1) / 5 <= Utf8Length(d2) / 5;
  }

  /**
   * The title of the campaign `computeAI` compares against: `if ($campaignId)` skips NULL
   * and 0, and the lookup finds nothing for an id that is not a campaign.
   */
  function CampaignTitle(campaignId: Option<int>, campaigns: seq<Campaign>): (t: Option<string>)
    ensures t.Some? <==> campaignId.Some? && 1 <= campaignId.value <= |campaigns|
    ensures t.Some? ==> t.value == campaigns[campaignId.value - 1].title
  {
    if campaignId.Some? && campaignId.value != 0 && 1 <= campaignId.value <= |campaigns| then
      Some(campaigns[campaignId.value - 1].title)
    else
      None
  }

  /** `compat_ai` for an idea, given the title of its campaign when there is one. */
  function Compat(title: string, description: string, campaignTitle: Option<string>): (c: int)
    ensures c in {75, 80, 90, 100}
    ensures c == 80 <==> campaignTitle.None?
    ensures c == 100 <==>
      campaignTitle.Some? && Contains(Lower(title + " " + description), DigitalKeyword) &&
      Contains(Lower(campaignTitle.value), TransformationKeyword)
    ensures c == 90 <==>
      campaignTitle.Some? && c != 100 && Contains(Lower(title + " " + description), EfficiencyKeyword)
  {
    if campaignTitle.None? then 80
    else
      var txt := Lower(title + " " + description);
      var t := Lower(campaignTitle.value);
      if Contains(txt, DigitalKeyword) && Contains(t, TransformationKeyword) then 100
      else if Contains(txt, EfficiencyKeyword) then 90
      else 75
  }

  /** `computeAI(title, description, campaignId)` against the current campaigns table. */
  function ComputeAI(title: string, description: string, campaignId: Option<int>, campaigns: seq<Campaign>): (a: Assessment)
    ensures 30 <= a.score <= 100
    ensures a.compat == 80 <==> !(campaignId.Some? && 1 <= campaignId.value <= |campaigns|)
  {
    Assessment(Score(description), Compat(title, description, CampaignTitle(campaignId, campaigns)))
  }
}
