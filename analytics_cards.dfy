/** The integer counts of the AnalyticsCards component
    (frontend/src/components/AnalyticsCards.tsx) and the places they are shown. */
module AnalyticsCards {
  import opened Mail

  /** The counts computed from the `emails` prop. */
  datatype Counts = Counts(
    total: nat,
    urgent: nat,
    positive: nat,
    negative: nat,
    neutral: nat,
    processed: nat)

  function ComputeCounts(emails: seq<Email>): (c: Counts)
    ensures c.total == |emails|
    ensures c.urgent == UrgentCount(emails) && c.processed == ProcessedCount(emails)
    ensures c.positive == SentimentCount(emails, Positive) && c.negative == SentimentCount(emails, Negative)
    ensures c.neutral == SentimentCount(emails, Neutral)
    ensures c.urgent <= c.total && c.positive <= c.total && c.negative <= c.total
    ensures c.neutral <= c.total && c.processed <= c.total
    ensures c.positive + c.negative + c.neutral == c.total
  {
    SentimentPartition(emails);
    Counts(
      |emails|,
      UrgentCount(emails),
      SentimentCount(emails, Positive),
      SentimentCount(emails, Negative),
      SentimentCount(emails, Neutral),
      ProcessedCount(emails))
  }

  function Plus(a: Counts, b: Counts): Counts {
    Counts(a.total + b.total, a.urgent + b.urgent, a.positive + b.positive,
           a.negative + b.negative, a.neutral + b.neutral, a.processed + b.processed)
  }

  /** The counts of two lists together are the sums of their counts. */
  lemma CountsAdditive(xs: seq<Email>, ys: seq<Email>)
    ensures ComputeCounts(xs + ys) == Plus(ComputeCounts(xs), ComputeCounts(ys))
  {
    CountsAppend(xs, ys);
  }

  /** A card value is a number or a fixed text. */
  datatype CardValue = Number(n: nat) | Text(s: string)
  datatype Card = Card(title: string, value: CardValue)

  /** What the component shows: the four main cards, the three sentiment rows
      and the "Urgent Cases" badge. Percentages are not part of this model. */
  datatype View = View(cards: seq<Card>, sentimentRows: seq<(string, nat)>, urgentCases: nat)

  function Render(emails: seq<Email>): (v: View)
    ensures |v.cards| == 4 && |v.sentimentRows| == 3
    ensures v.cards[0] == Card("Total Emails", Number(|emails|))
    ensures v.cards[1] == Card("Urgent Priority", Number(v.urgentCases))
    ensures v.urgentCases == UrgentCount(emails) <= |emails|
    ensures v.cards[2] == Card("Positive Sentiment", Number(SentimentCount(emails, Positive)))
    ensures v.sentimentRows[0] == ("Positive", SentimentCount(emails, Positive))
    ensures v.sentimentRows[1] == ("Negative", SentimentCount(emails, Negative))
    ensures v.sentimentRows[2] == ("Neutral", SentimentCount(emails, Neutral))
    ensures v.sentimentRows[0].1 + v.sentimentRows[1].1 + v.sentimentRows[2].1 == |emails|
  {
    var c := ComputeCounts(emails);
    View(
      [Card("Total Emails", Number(c.total)),
       Card("Urgent Priority", Number(c.urgent)),
       Card("Positive Sentiment", Number(c.positive)),
       Card("Processing Speed", Text("2.3m"))],
      [("Positive", c.positive), ("Negative", c.negative), ("Neutral", c.neutral)],
      c.urgent)
  }
}
