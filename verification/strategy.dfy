/**
 * The strategy pattern exercise: a `PaymentContext` holds one payment strategy (credit
 * card or PayPal), which may be replaced at any time, and delegates each payment to it.
 * Console output is an appended trace of lines; a line that shows an amount keeps the
 * amount as a number, since the currency formatting `{amount:C}` is culture-dependent.
 */
module PaymentStrategy {
  import opened Text
  import opened Http

  /** One console line: plain text, or text around a formatted amount. */
  datatype Line = Text(text: string) | Amount(before: string, amount: real, after: string)

  /** The two concrete strategies with the data their constructors store. */
  datatype Strategy =
    | CreditCardPayment(cardNumber: string, cardHolderName: string, cvv: string, expirationDate: string)
    | PayPalPayment(email: string, password: string)

  const NoStrategyError := "Error: No payment strategy has been set."
  const CardCharge := "Processing Credit Card payment of "
  const PayPalCharge := "Processing PayPal payment of "
  const Attempt := "Attempting to pay "

  /** `GetType().Name` of a strategy. */
  function TypeName(s: Strategy): (name: string)
    ensures s.CreditCardPayment? <==> name == "CreditCardPayment"
  {
    if s.CreditCardPayment? then "CreditCardPayment" else "PayPalPayment"
  }

  /** The line `SetPaymentStrategy` prints. */
  function Announce(s: Strategy): Line {
    Text("\nPayment method set to: " + TypeName(s))
  }

  /** A line that reports an actual charge: the first line of either `Pay`. */
  predicate IsCharge(line: Line) {
    line.Amount? && (line.before == CardCharge || line.before == PayPalCharge)
  }

  /** The amounts charged along a trace, in order. */
  function Charges(lines: seq<Line>): seq<real>
    decreases |lines|
  {
    if lines == [] then []
    else if IsCharge(lines[0]) then [lines[0].amount] + Charges(lines[1..])
    else Charges(lines[1..])
  }

  lemma {:induction false} ChargesAppend(a: seq<Line>, b: seq<Line>)
    ensures Charges(a + b) == Charges(a) + Charges(b)
    decreases |a|
  {
    if a == [] {
      assert a + b == b;
    } else {
      assert (a + b)[0] == a[0] && (a + b)[1..] == a[1..] + b;
      ChargesAppend(a[1..], b);
    }
  }

  /** What `Pay(amount)` prints for a strategy: a charge line, the identifying fields, a success line. */
  function PayLines(s: Strategy, amount: real): (lines: seq<Line>)
    ensures |lines| >= 3 && lines[0].Amount? && lines[0].amount == amount
  {
    match s
    case CreditCardPayment(number, holder, _, _) =>
      [Amount(CardCharge, amount, "..."), Text("Card Number: " + number), Text("Card Holder: " + holder),
       Text("Credit Card payment processed successfully!")]
    case PayPalPayment(email, _) =>
      [Amount(PayPalCharge, amount, "..."), Text("PayPal Email: " + email),
       Text("PayPal payment processed successfully!")]
  }

  /** One `Pay` charges once, exactly the amount it was given. */
  lemma PayChargesOnce(s: Strategy, amount: real)
    ensures Charges(PayLines(s, amount)) == [amount]
  {
    var lines := PayLines(s, amount);
    assert lines == [lines[0]] + lines[1..];
    ChargesAppend([lines[0]], lines[1..]);
    assert lines[1..] == [lines[1]] + lines[2..];
    ChargesAppend([lines[1]], lines[2..]);
    assert lines[2..] == [lines[2]] + lines[3..];
    ChargesAppend([lines[2]], lines[3..]);
    if s.CreditCardPayment? {
      assert lines[3..] == [lines[3]] + lines[4..];
      ChargesAppend([lines[3]], lines[4..]);
    }
  }

  /** Nothing a credit-card payment prints depends on the CVV or the expiration date. */
  lemma CardSecretsNeverShown(number: string, holder: string, cvv1: string, cvv2: string,
                              expiry1: string, expiry2: string, amount: real)
    ensures PayLines(CreditCardPayment(number, holder, cvv1, expiry1), amount) ==
            PayLines(CreditCardPayment(number, holder, cvv2, expiry2), amount)
  {
  }

  /** Nothing a PayPal payment prints depends on the password. */
  lemma PayPalPasswordNeverShown(email: string, password1: string, password2: string, amount: real)
    ensures PayLines(PayPalPayment(email, password1), amount) == PayLines(PayPalPayment(email, password2), amount)
  {
  }

  /** What `ExecutePayment(amount)` prints for the strategy currently held, if any. */
  function ExecuteLines(held: Option<Strategy>, amount: real): seq<Line> {
    match held
    case None => [Text(NoStrategyError)]
    case Some(s) => [Amount(Attempt, amount, "...")] + PayLines(s, amount)
  }

  /** With no strategy nothing is charged; otherwise exactly one charge of the unchanged amount. */
  lemma ExecuteChargesOnce(held: Option<Strategy>, amount: real)
    ensures Charges(ExecuteLines(held, amount)) == if held.Some? then [amount] else []
  {
    match held
    case None =>
      assert Charges([Text(NoStrategyError)]) == [] + Charges([]);
    case Some(s) =>
      ChargesAppend([Amount(Attempt, amount, "...")], PayLines(s, amount));
      assert Charges([Amount(Attempt, amount, "...")]) == [] + Charges([]);
      PayChargesOnce(s, amount);
  }

  class PaymentContext {
    /** `_paymentStrategy`; `None` stands for null. */
    var strategy: Option<Strategy>
    var console: seq<Line>

    constructor ()
      ensures strategy.None? && console == []
    {
      strategy := None;
      console := [];
    }

    /**
     * Stores the strategy, replacing any earlier one, and announces its type. A null
     * argument is stored too, and then reading its type throws before anything is printed.
     */
    method SetPaymentStrategy(s: Option<Strategy>) returns (fault: Option<string>)
      modifies this
      ensures strategy == s
      ensures s.Some? ==> fault.None? && console == old(console) + [Announce(s.value)]
      ensures s.None? ==> fault == Some(NullReference) && console == old(console)
    {
      strategy := s;
      if s.None? {
        return Some(NullReference);
      }
      console := console + [Announce(s.value)];
      fault := None;
    }

    /** Pays through the held strategy, or reports that there is none; the strategy stays. */
    method ExecutePayment(amount: real)
      modifies this
      ensures strategy == old(strategy)
      ensures console == old(console) + ExecuteLines(strategy, amount)
    {
      if strategy.None? {
        console := console + [Text(NoStrategyError)];
        return;
      }
      console := console + [Amount(Attempt, amount, "...")];
      console := console + PayLines(strategy.value, amount);
    }
  }

  /** The latest strategy set is the one that pays; the earlier one only left its announcement. */
  method LatestStrategyPays(context: PaymentContext, first: Strategy, second: Strategy, amount: real)
    modifies context
    ensures context.strategy == Some(second)
    ensures context.console == old(context.console) + [Announce(first), Announce(second)] +
      ExecuteLines(Some(second), amount)
  {
    var _ := context.SetPaymentStrategy(Some(first));
    var _ := context.SetPaymentStrategy(Some(second));
    context.ExecutePayment(amount);
  }
}
