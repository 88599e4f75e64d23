/** The donation dialog of src/app/components/donation-modal.tsx: the amount it
    holds, the three ways of changing it, the thank-you text and heart size
    that follow the amount, and what pressing "donate" does. */
module Donation {

  const InitialAmount := 5
  const MinAmount := 1
  const MaxAmount := 10000
  const QuickAmounts: seq<int> := [5, 10, 25, 50]

  /** The custom-amount field's `Math.max(1, Math.min(10000, value))`. */
  function ClampAmount(v: int): (r: int)
    ensures MinAmount <= r <= MaxAmount
    ensures MinAmount <= v <= MaxAmount ==> r == v
    ensures v < MinAmount ==> r == MinAmount
    ensures v > MaxAmount ==> r == MaxAmount
  {
    if v < MinAmount then MinAmount else if v > MaxAmount then MaxAmount else v
  }

  /** Clamping twice is clamping once. */
  lemma ClampIdempotent(v: int)
    ensures ClampAmount(ClampAmount(v)) == ClampAmount(v)
  {
  }

  /** The three controls: the 1..100 slider, a quick-amount button, the typed field. */
  datatype Control = Slide(value: int) | Quick(index: nat) | Typed(value: int)

  /** Inputs the page can produce: the range input only reports values within
      its bounds, and there are four quick buttons. */
  predicate Possible(c: Control) {
    match c
    case Slide(v) => 1 <= v <= 100
    case Quick(i) => i < |QuickAmounts|
    case Typed(_) => true
  }

  /** The amount after one control is used. */
  function Adjust(amount: int, c: Control): (r: int)
    requires Possible(c)
    ensures c.Typed? ==> r == ClampAmount(c.value)
    ensures c.Slide? ==> r == c.value
    ensures c.Quick? ==> r in QuickAmounts
  {
    match c
    case Slide(v) => v
    case Quick(i) => QuickAmounts[i]
    case Typed(v) => ClampAmount(v)
  }

  /** The amount after a sequence of controls, from the initial five. */
  function AmountAfter(cs: seq<Control>): int
    requires forall i :: 0 <= i < |cs| ==> Possible(cs[i])
  {
    if cs == [] then InitialAmount
    else Adjust(AmountAfter(cs[..|cs| - 1]), cs[|cs| - 1])
  }

  /** Whatever the visitor does, the dialog's amount stays within [1, 10000]. */
  lemma {:induction false} AmountStaysInRange(cs: seq<Control>)
    requires forall i :: 0 <= i < |cs| ==> Possible(cs[i])
    ensures MinAmount <= AmountAfter(cs) <= MaxAmount
  {
    if cs != [] {
      AmountStaysInRange(cs[..|cs| - 1]);
    }
  }

  // ------------------------------------------------------------ feedback

  /** Position of an amount among the thank-you texts: cut-offs 5, 10, 25, 50, 100. */
  function TextTier(amount: int): (t: nat)
    ensures t <= 5
    ensures t == 0 <==> amount < 5
    ensures t == 1 <==> 5 <= amount < 10
    ensures t == 2 <==> 10 <= amount < 25
    ensures t == 3 <==> 25 <= amount < 50
    ensures t == 4 <==> 50 <= amount < 100
    ensures t == 5 <==> amount >= 100
  {
    if amount >= 100 then 5
    else if amount >= 50 then 4
    else if amount >= 25 then 3
    else if amount >= 10 then 2
    else if amount >= 5 then 1
    else 0
  }

  /** `getEncouragementText(amount)` */
  function EncouragementText(amount: int): string {
    match TextTier(amount)
    case 5 => "Невероятная щедрость! \U{1F31F}"
    case 4 => "Великодушный дар! \U{1F64F}"
    case 3 => "Благородное пожертвование! \U{2728}"
    case 2 => "Большое спасибо! \U{1F49D}"
    case 1 => "Очень ценим вашу поддержку! \U{1F49B}"
    case _ => "Каждый вклад важен! \U{1F499}"
  }

  /** Position of an amount among the heart sizes: cut-offs 10, 25, 50, 100. */
  function HeartTier(amount: int): (t: nat)
    ensures t <= 4
    ensures t == 0 <==> amount < 10
    ensures t == 1 <==> 10 <= amount < 25
    ensures t == 2 <==> 25 <= amount < 50
    ensures t == 3 <==> 50 <= amount < 100
    ensures t == 4 <==> amount >= 100
  {
    if amount >= 100 then 4
    else if amount >= 50 then 3
    else if amount >= 25 then 2
    else if amount >= 10 then 1
    else 0
  }

  /** `getHeartSize(amount)`: the Tailwind size class of the heart. */
  function HeartSize(amount: int): string {
    match HeartTier(amount)
    case 4 => "w-16 h-16"
    case 3 => "w-14 h-14"
    case 2 => "w-12 h-12"
    case 1 => "w-10 h-10"
    case _ => "w-8 h-8"
  }

  /** The heart grows with the thank-you text, one step behind it: the
      texts split the lowest heart size at 5. */
  lemma HeartFollowsText(amount: int)
    ensures HeartTier(amount) == if TextTier(amount) == 0 then 0 else TextTier(amount) - 1
  {
  }

  /** A larger gift never gets a smaller heart or a lesser text. */
  lemma FeedbackMonotone(a: int, b: int)
    requires a <= b
    ensures TextTier(a) <= TextTier(b) && HeartTier(a) <= HeartTier(b)
  {
  }

  // --------------------------------------------------------------- donate

  /** What the page does in response to the donate button. */
  datatype Effect = ThankYouAlert(amount: int) | CloseDialog | SendDonation(amount: int)

  /** `handleDonate`: thank the visitor for the amount and close. Nothing is
      sent, so the server's donation record and profile total stay as they were. */
  function HandleDonate(amount: int): (effects: seq<Effect>)
    ensures forall e :: e in effects ==> !e.SendDonation?
    ensures ThankYouAlert(amount) in effects && CloseDialog in effects
  {
    [ThankYouAlert(amount), CloseDialog]
  }
}
