/** The `Email` record of the presentational dashboard
    (frontend/src/data/mockEmails.ts) and the per-email predicates and counts
    that several components share. */
module Mail {
  import opened Optional
  import opened Seqs

  datatype Sentiment = Positive | Negative | Neutral
  datatype Priority = Urgent | Normal
  datatype Status = Pending | Processed | Sent

  /** The optional members of `extractedInfo`. */
  datatype ExtractedInfo = ExtractedInfo(
    contactDetails: Option<string>,
    requirements: Option<seq<string>>,
    keywords: Option<seq<string>>)

  datatype Email = Email(
    id: string,
    sender: string,
    subject: string,
    body: string,
    dateReceived: string,
    sentiment: Sentiment,
    priority: Priority,
    category: string,
    extractedInfo: ExtractedInfo,
    aiResponse: string,
    status: Status)

  /** The string a sentiment has at run time. */
  function SentimentName(s: Sentiment): string {
    match s
    case Positive => "positive"
    case Negative => "negative"
    case Neutral => "neutral"
  }

  /** `e.priority === 'urgent'`: the test behind the URGENT badges, the urgent
      filter and the urgent counts. */
  function IsUrgent(e: Email): (u: bool)
    ensures u <==> e.priority != Normal
  {
    e.priority == Urgent
  }

  /** `emails.filter(e => e.priority === 'urgent').length`. */
  function UrgentCount(emails: seq<Email>): (n: nat)
    ensures n <= |emails|
  {
    Count(emails, IsUrgent)
  }

  /** `emails.filter(e => e.sentiment === s).length`. */
  function SentimentCount(emails: seq<Email>, s: Sentiment): (n: nat)
    ensures n <= |emails|
  {
    Count(emails, (e: Email) => e.sentiment == s)
  }

  /** `emails.filter(e => e.status === 'processed').length`. */
  function ProcessedCount(emails: seq<Email>): (n: nat)
    ensures n <= |emails|
  {
    Count(emails, (e: Email) => e.status == Processed)
  }

  /** Sentiment takes exactly three values, so the three sentiment counts
      partition the list. */
  lemma {:induction false} SentimentPartition(emails: seq<Email>)
    ensures SentimentCount(emails, Positive) + SentimentCount(emails, Negative)
            + SentimentCount(emails, Neutral) == |emails|
  {
    if emails != [] {
      SentimentPartition(emails[1..]);
    }
  }

  /** Every count is additive over concatenation. */
  lemma CountsAppend(xs: seq<Email>, ys: seq<Email>)
    ensures UrgentCount(xs + ys) == UrgentCount(xs) + UrgentCount(ys)
    ensures ProcessedCount(xs + ys) == ProcessedCount(xs) + ProcessedCount(ys)
    ensures forall s :: SentimentCount(xs + ys, s) == SentimentCount(xs, s) + SentimentCount(ys, s)
  {
    CountAppend(xs, ys, IsUrgent);
    CountAppend(xs, ys, (e: Email) => e.status == Processed);
    forall s {
      CountAppend(xs, ys, (e: Email) => e.sentiment == s);
    }
  }
}
