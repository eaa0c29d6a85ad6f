/** frontend/src/components/PredictionDisplay.tsx: the card that shows a word, its
    confidence as a coloured badge and bar, and an optional Speak button. */
module PredictionDisplay {

  const High := "bg-green-500"
  const Medium := "bg-yellow-500"
  const Low := "bg-red-500"

  /** `getConfidenceColor`: a three-way threshold, each boundary in the higher tier. */
  function ConfidenceColor(conf: real): (color: string)
    ensures color == High <==> conf >= 0.8
    ensures color == Medium <==> 0.6 <= conf < 0.8
    ensures color == Low <==> conf < 0.6
  {
    if conf >= 0.8 then High
    else if conf >= 0.6 then Medium
    else Low
  }

  /** Position of a colour in the order Low < Medium < High. */
  function TierRank(color: string): nat {
    if color == High then 2 else if color == Medium then 1 else 0
  }

  /** A higher confidence never gets a lower tier. */
  lemma ConfidenceColorMonotone(a: real, b: real)
    requires a <= b
    ensures TierRank(ConfidenceColor(a)) <= TierRank(ConfidenceColor(b))
  {
  }

  /** What the card renders. */
  datatype Card = Card(word: string, badgeColor: string, barColor: string, speakButton: bool)

  /** The rendered card: badge and bar share one colour; the Speak button is there exactly
      when an `onSpeak` handler is given. */
  function Render(word: string, confidence: real, hasOnSpeak: bool): (card: Card)
    ensures card.word == word
    ensures card.badgeColor == card.barColor == ConfidenceColor(confidence)
    ensures card.speakButton <==> hasOnSpeak
  {
    Card(word, ConfidenceColor(confidence), ConfidenceColor(confidence), hasOnSpeak)
  }
}
