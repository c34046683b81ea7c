/** The choice of emoji at the head of an alert message (`format_alert`).
    The rest of the message is text formatting and is not modelled. */
module Alerts {
  import opened Signals

  const GreenCircle := "\U{1F7E2}"
  const RedCircle := "\U{1F534}"
  const WhiteCircle := "\U{26AA}"

  /** Green for "BUY", red for "SELL", white for any other signal text. */
  function Emoji(signal: string): (e: string)
    ensures e == GreenCircle <==> signal == "BUY"
    ensures e == RedCircle <==> signal == "SELL"
    ensures e == WhiteCircle <==> signal != "BUY" && signal != "SELL"
  {
    if signal == "BUY" then GreenCircle
    else if signal == "SELL" then RedCircle
    else WhiteCircle
  }

  /** On the classifier's labels the emoji tells the three signals apart. */
  lemma EmojiIdentifiesSignal(a: Signal, b: Signal)
    ensures Emoji(Name(a)) == Emoji(Name(b)) <==> a == b
  {
  }

  /** HOLD, whatever its reason, is announced with the white circle. */
  lemma HoldIsWhite(s: Snapshot)
    ensures ComputeSignal(s).0 == Hold <==> Emoji(Name(ComputeSignal(s).0)) == WhiteCircle
  {
  }
}
