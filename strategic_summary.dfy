/**
 * The strategy panel (components/StrategicSummary.tsx): the summary text is
 * split at the `<<<STRATEGY>>>` and `<<<POINTS>>>` markers into a strategy and
 * a list of key points, each trimmed.
 */
module StrategicSummary {
  import opened Wrappers
  import opened Text
  import Types
  import GeminiService

  const StrategyMarker: string := "<<<STRATEGY>>>"
  const PointsMarker: string := "<<<POINTS>>>"

  /** `j` is the first occurrence of `p` in `s` at or after `from`. */
  predicate FirstFrom(s: string, p: string, from: int, j: int) {
    from <= j && OccursAt(s, p, j) && forall i :: from <= i < j ==> !OccursAt(s, p, i)
  }

  /** `i` is the first strategy marker and `j` the first points marker after it. */
  predicate CapturedBetween(text: string, i: int, j: int) {
    FirstFrom(text, StrategyMarker, 0, i) && FirstFrom(text, PointsMarker, i + |StrategyMarker|, j)
  }

  /**
   * The capture of `/<<<STRATEGY>>>([\s\S]*?)<<<POINTS>>>/`: the leftmost match
   * starts at the first strategy marker, and the lazy group ends at the first
   * points marker after it. There is a match exactly when some strategy marker
   * is followed by some points marker.
   */
  function StrategyGroup(text: string): (group: Option<string>)
    ensures group.Some? <==> exists i, j :: OccursAt(text, StrategyMarker, i) && OccursAt(text, PointsMarker, j)
                                         && i + |StrategyMarker| <= j
    ensures group.Some? ==> exists i, j :: CapturedBetween(text, i, j) && group.value == text[i + |StrategyMarker|..j]
  {
    match FindFrom(text, StrategyMarker, 0)
    case None => None
    case Some(i) =>
      match FindFrom(text, PointsMarker, i + |StrategyMarker|)
      case None =>
        assert forall i', j' :: OccursAt(text, StrategyMarker, i') && OccursAt(text, PointsMarker, j')
                                ==> j' < i' + |StrategyMarker| by {
          forall i', j' | OccursAt(text, StrategyMarker, i') && OccursAt(text, PointsMarker, j')
            ensures j' < i' + |StrategyMarker|
          {
            assert i <= i';
          }
        }
        None
      case Some(j) =>
        assert CapturedBetween(text, i, j);
        Some(text[i + |StrategyMarker|..j])
  }

  /** The lazy group never contains the points marker. */
  lemma StrategyGroupHasNoPointsMarker(text: string)
    requires StrategyGroup(text).Some?
    ensures !Contains(StrategyGroup(text).value, PointsMarker)
  {
    var group := StrategyGroup(text).value;
    var i, j :| CapturedBetween(text, i, j) && group == text[i + |StrategyMarker|..j];
    var start := i + |StrategyMarker|;
    forall k | 0 <= k <= |group| ensures !OccursAt(group, PointsMarker, k) {
      if k + |PointsMarker| <= |group| {
        OccursInSlice(text, PointsMarker, start, j, k);
      }
    }
  }

  /** The capture of `/<<<POINTS>>>([\s\S]*)/`: everything after the first points marker. */
  function PointsGroup(text: string): (group: Option<string>)
    ensures group.Some? <==> Contains(text, PointsMarker)
    ensures group.Some? ==> exists k :: FirstFrom(text, PointsMarker, 0, k) && group.value == text[k + |PointsMarker|..]
  {
    match FindFrom(text, PointsMarker, 0)
    case None => None
    case Some(k) =>
      assert FirstFrom(text, PointsMarker, 0, k);
      Some(text[k + |PointsMarker|..])
  }

  datatype Parsed = Parsed(strategy: string, points: string)

  /**
   * The parse in `fetchInsight`, total on every text: the trimmed strategy group
   * if there is one, else the whole text untrimmed; the trimmed points group if
   * there is one, else the empty text.
   */
  function ParseSummary(text: string): (parsed: Parsed)
    ensures StrategyGroup(text).None? ==> parsed.strategy == text
    ensures StrategyGroup(text).Some? ==> parsed.strategy == Trim(StrategyGroup(text).value)
    ensures StrategyGroup(text).Some? ==> !Contains(parsed.strategy, PointsMarker)
    ensures !Contains(text, PointsMarker) ==> parsed.points == ""
    ensures Contains(text, PointsMarker) ==> parsed.points == Trim(PointsGroup(text).value)
  {
    var strategy := (match StrategyGroup(text)
                     case Some(group) =>
                       StrategyGroupHasNoPointsMarker(text);
                       AbsentFromPart(group, Trim(group), PointsMarker);
                       Trim(group)
                     case None => text);
    var points := (match PointsGroup(text)
                   case Some(group) => Trim(group)
                   case None => "");
    Parsed(strategy, points)
  }

  const ConnectingText: string := "Conectando con el mercado..."

  /** The strategy line: the strategy, or `ConnectingText` when it is empty. */
  function StrategyLine(parsed: Parsed): (line: string)
    ensures line != ""
    ensures parsed.strategy != "" ==> line == parsed.strategy
  {
    if parsed.strategy == "" then ConnectingText else parsed.strategy
  }

  /** The key-points box is shown only for non-empty points. */
  predicate ShowsPoints(parsed: Parsed) {
    parsed.points != ""
  }

  /** The key-points box appears only for a text that holds a points marker,
      and then it shows the trimmed text after the first one. */
  lemma PointsBoxNeedsMarker(text: string)
    ensures ShowsPoints(ParseSummary(text)) ==> Contains(text, PointsMarker)
    ensures ShowsPoints(ParseSummary(text)) ==> ParseSummary(text).points == Trim(PointsGroup(text).value)
  {
  }

  /** A text without the marker's first character holds no marker. */
  lemma NoMarkerWithoutLead(s: string, p: string)
    requires |p| > 0 && p[0] !in s
    ensures !Contains(s, p)
  {
    forall i | 0 <= i <= |s| ensures !OccursAt(s, p, i) {
      if i + |p| <= |s| {
        assert s[i..i + |p|][0] == s[i];
      }
    }
  }

  /** An empty text shows the connecting line and no key points. */
  lemma EmptyTextShowsConnecting()
    ensures StrategyLine(ParseSummary("")) == ConnectingText
    ensures !ShowsPoints(ParseSummary(""))
  {
    NoMarkerWithoutLead("", StrategyMarker);
    NoMarkerWithoutLead("", PointsMarker);
  }

  /** A text without a `<` holds neither marker: the panel shows it whole and
      no key-points box. */
  lemma MarkerFreeTextShownWhole(text: string)
    requires '<' !in text
    ensures ParseSummary(text) == Parsed(text, "")
  {
    NoMarkerWithoutLead(text, StrategyMarker);
    NoMarkerWithoutLead(text, PointsMarker);
  }

  /** Neither of the service's two texts holds a `<`, and neither is empty. */
  lemma ServiceTextsMarkerFree(text: string)
    requires text == GeminiService.SummaryText || text == GeminiService.OfflineText
    ensures '<' !in text && text != ""
  {
  }

  /** The summary service only ever returns one of two fixed texts, neither of
      which holds a marker: the panel shows that text itself and never a
      key-points box. */
  lemma SummaryPanelShowsServiceText(call: GeminiService.ModelCall,
                                     parseNews: string -> Option<seq<Types.NewsItem>>)
    ensures var text := GeminiService.GetStrategicSummary(call, parseNews).text;
            ParseSummary(text) == Parsed(text, "") && StrategyLine(ParseSummary(text)) == text
  {
    var text := GeminiService.GetStrategicSummary(call, parseNews).text;
    assert text == GeminiService.SummaryText || text == GeminiService.OfflineText;
    ServiceTextsMarkerFree(text);
    MarkerFreeTextShownWhole(text);
  }
}
