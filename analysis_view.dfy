/**
 * The signal panel (components/AnalysisView.tsx): which of its four panels is
 * shown, the colour rules for the action, the confidence bar and the pattern
 * cards, and the order notice of the buy and sell buttons.
 */
module AnalysisView {
  import opened Wrappers
  import opened Types

  /** The three colour families the panel uses. */
  datatype Tone = Green | Yellow | Red

  /** `getActionColor(action)`: green for "COMPRA", red for "VENTA", yellow for
      every other text. */
  function ActionTone(action: string): (t: Tone)
    ensures t == Green <==> action == "COMPRA"
    ensures t == Red <==> action == "VENTA"
  {
    if action == "COMPRA" then Green else if action == "VENTA" then Red else Yellow
  }

  /** The three actions a signal can carry get three different colours. */
  lemma ActionTonesDistinct()
    ensures ActionTone(ActionName(Compra)) == Green
    ensures ActionTone(ActionName(Venta)) == Red
    ensures ActionTone(ActionName(Espera)) == Yellow
  {
  }

  /** The order of the tones from best to worst, for comparing bands. */
  function Rank(t: Tone): nat {
    match t
    case Red => 0
    case Yellow => 1
    case Green => 2
  }

  /** The confidence bar: its colour, and its width as a percentage of the track. */
  datatype ConfidenceBar = ConfidenceBar(tone: Tone, widthPercent: real)

  /** `getConfidenceBar(conf)`: green above 70, yellow above 40, red otherwise;
      the bar is `conf` percent wide. */
  function ConfidenceBarOf(conf: real): (bar: ConfidenceBar)
    ensures bar.widthPercent == conf
    ensures bar.tone == Green <==> conf > 70.0
    ensures bar.tone == Yellow <==> 40.0 < conf <= 70.0
    ensures bar.tone == Red <==> conf <= 40.0
  {
    ConfidenceBar(if conf > 70.0 then Green else if conf > 40.0 then Yellow else Red, conf)
  }

  /** More confidence never gives a worse colour, and the boundaries 70 and 40
      belong to the lower band. */
  lemma ConfidenceToneMonotone(c1: real, c2: real)
    requires c1 <= c2
    ensures Rank(ConfidenceBarOf(c1).tone) <= Rank(ConfidenceBarOf(c2).tone)
    ensures ConfidenceBarOf(70.0).tone == Yellow && ConfidenceBarOf(40.0).tone == Red
  {
  }

  /** `PatternCard`'s colour: green for bullish, red for bearish, yellow otherwise. */
  function PatternTone(kind: PatternType): (t: Tone)
    ensures t == Green <==> kind == Bullish
    ensures t == Red <==> kind == Bearish
    ensures t == Yellow <==> kind == Neutral
  {
    match kind
    case Bullish => Green
    case Bearish => Red
    case Neutral => Yellow
  }

  datatype PatternCardView = PatternCardView(name: string, kind: PatternType, reliability: Reliability, tone: Tone)

  /** The details section's pattern list: one card per pattern, or the note
      "Sin patrones definidos." when there are none. */
  datatype PatternsSection = Cards(cards: seq<PatternCardView>) | NoPatterns(note: string)

  const NoPatternsNote: string := "Sin patrones definidos."

  function PatternsSectionOf(patterns: seq<DetectedPattern>): (section: PatternsSection)
    ensures section.NoPatterns? <==> patterns == []
    ensures section.NoPatterns? ==> section.note == NoPatternsNote
    ensures section.Cards? ==> |section.cards| == |patterns|
    ensures section.Cards? ==> forall i :: 0 <= i < |patterns| ==>
              section.cards[i] == PatternCardView(patterns[i].name, patterns[i].kind, patterns[i].reliability, PatternTone(patterns[i].kind))
  {
    if |patterns| > 0 then
      Cards(seq(|patterns|, i requires 0 <= i < |patterns| =>
        PatternCardView(patterns[i].name, patterns[i].kind, patterns[i].reliability, PatternTone(patterns[i].kind))))
    else
      NoPatterns(NoPatternsNote)
  }

  /** The four mutually exclusive panels. */
  datatype Panel = LoadingPanel | ErrorPanel(message: string) | SignalPanel(signal: TradingSignal) | UploadPrompt

  /** JavaScript truthiness of a nullable string: present and not empty. */
  predicate HasText(s: Option<string>) {
    s.Some? && s.value != ""
  }

  /** The panel for a state: loading, then an error with text, then a result,
      then the upload prompt. */
  function SelectPanel(state: AnalysisState): (p: Panel)
    ensures p.LoadingPanel? <==> state.isLoading
    ensures p.ErrorPanel? <==> !state.isLoading && HasText(state.error)
    ensures p.SignalPanel? <==> !state.isLoading && !HasText(state.error) && state.result.Some?
    ensures p.UploadPrompt? <==> !state.isLoading && !HasText(state.error) && state.result.None?
    ensures p.ErrorPanel? ==> p.message == state.error.value
    ensures p.SignalPanel? ==> p.signal == state.result.value
  {
    if state.isLoading then LoadingPanel
    else if HasText(state.error) then ErrorPanel(state.error.value)
    else if state.result.Some? then SignalPanel(state.result.value)
    else UploadPrompt
  }

  /** The sniper banner is shown exactly when the signal's flag is true. */
  predicate ShowsSniperBanner(signal: TradingSignal) {
    signal.isSniperAlert == Some(true)
  }

  /** The two order buttons. */
  datatype Side = Buy | Sell

  function SideName(side: Side): string {
    match side
    case Buy => "COMPRA"
    case Sell => "VENTA"
  }

  /** `handleAction(type)`'s notice: "ORDEN DE <type> ENVIADA AL MERCADO". */
  function OrderNotice(side: Side): (notice: string)
    ensures |notice| == 9 + |SideName(side)| + 19
    ensures notice[..9] == "ORDEN DE " && notice[|notice| - 19..] == " ENVIADA AL MERCADO"
    ensures notice[9..|notice| - 19] == SideName(side)
  {
    "ORDEN DE " + SideName(side) + " ENVIADA AL MERCADO"
  }

  /** The two buttons never announce the same order. */
  lemma OrderNoticesDiffer()
    ensures OrderNotice(Buy) != OrderNotice(Sell)
  {
    assert OrderNotice(Buy)[9..|OrderNotice(Buy)| - 19] != OrderNotice(Sell)[9..|OrderNotice(Sell)| - 19];
  }

  /** The panel's own state: whether the details section is open, and the
      order notice on display. */
  class SignalPanelState {
    var detailsOpen: bool
    var notification: Option<string>

    constructor ()
      ensures !detailsOpen && notification.None?
    {
      detailsOpen := false;
      notification := None;
    }

    /** A click on an order button shows its notice. */
    method HandleAction(side: Side)
      modifies this
      ensures notification == Some(OrderNotice(side)) && detailsOpen == old(detailsOpen)
    {
      notification := Some(OrderNotice(side));
    }

    /** The details button opens or closes the details section. */
    method ToggleDetails()
      modifies this
      ensures detailsOpen == !old(detailsOpen) && notification == old(notification)
    {
      detailsOpen := !detailsOpen;
    }
  }
}
