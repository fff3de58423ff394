/** The presentational logic of the EmailList component
    (frontend/src/components/EmailList.tsx): the sentiment badge class, text
    truncation, the header counts and the row highlight. */
module EmailList {
  import opened Seqs
  import opened Mail

  const PositiveClass := "bg-gradient-success text-positive-foreground"
  const NegativeClass := "bg-gradient-urgent text-negative-foreground"
  const NeutralClass := "bg-neutral text-neutral-foreground"
  const MutedClass := "bg-muted text-muted-foreground"

  /** `getSentimentColor`: a `switch` on the run-time sentiment string. Each
      sentiment has its own class and every other string gets the muted one. */
  function SentimentColor(sentiment: string): (c: string)
    ensures sentiment == SentimentName(Positive) ==> c == PositiveClass
    ensures sentiment == SentimentName(Negative) ==> c == NegativeClass
    ensures sentiment == SentimentName(Neutral) ==> c == NeutralClass
    ensures c == MutedClass <==> sentiment !in {"positive", "negative", "neutral"}
  {
    match sentiment
    case "positive" => PositiveClass
    case "negative" => NegativeClass
    case "neutral" => NeutralClass
    case _ => MutedClass
  }

  /** Distinct sentiments get distinct badge classes. */
  lemma SentimentColorsDistinct(s: Sentiment, t: Sentiment)
    requires s != t
    ensures SentimentColor(SentimentName(s)) != SentimentColor(SentimentName(t))
  {
  }

  /** `truncateText`: texts no longer than `maxLength` are shown whole; longer
      ones are cut to `maxLength` characters followed by "...". JavaScript's
      `substring(0, n)` treats a negative `n` as 0. */
  function TruncateText(text: string, maxLength: int): (r: string)
    ensures |text| <= maxLength ==> r == text
    ensures |text| > maxLength >= 0 ==> r == text[..maxLength] + "..." && |r| == maxLength + 3
    ensures |text| > maxLength && maxLength < 0 ==> r == "..."
    ensures var keep := if |text| <= maxLength then |text| else if maxLength < 0 then 0 else maxLength;
            keep <= |r| && r[..keep] == text[..keep]
    ensures |r| <= |text| + 3
  {
    if |text| > maxLength then
      text[..if maxLength < 0 then 0 else maxLength] + "..."
    else
      text
  }

  /** The card header: "Support Emails (n)" and the "k urgent" badge. */
  datatype ListHeader = ListHeader(total: nat, urgent: nat)

  function Header(emails: seq<Email>): (h: ListHeader)
    ensures h.total == |emails|
    ensures h.urgent == |Filter(emails, IsUrgent)| <= h.total
  {
    ListHeader(|emails|, UrgentCount(emails))
  }

  /** A row is highlighted when its id is the selected email's id; the
      selected email's own row always is. */
  function IsHighlighted(selected: Email, e: Email): (h: bool)
    ensures selected == e ==> h
    ensures h <==> e.id == selected.id
  {
    selected.id == e.id
  }

  predicate DistinctIds(emails: seq<Email>) {
    forall i, j :: 0 <= i < j < |emails| ==> emails[i].id != emails[j].id
  }

  /** With distinct ids, exactly one row is highlighted when the selected
      email's id occurs in the list, and none otherwise. */
  lemma {:induction false} HighlightedRows(emails: seq<Email>, selected: Email)
    requires DistinctIds(emails)
    ensures Count(emails, e => IsHighlighted(selected, e))
            == if exists i :: 0 <= i < |emails| && emails[i].id == selected.id then 1 else 0
  {
    if emails != [] {
      var rest := emails[1..];
      assert DistinctIds(rest) by {
        forall i, j | 0 <= i < j < |rest| ensures rest[i].id != rest[j].id {
          assert rest[i] == emails[i + 1] && rest[j] == emails[j + 1];
        }
      }
      HighlightedRows(rest, selected);
      if emails[0].id == selected.id {
        forall i | 0 <= i < |rest| ensures rest[i].id != selected.id {
          assert rest[i] == emails[i + 1];
        }
      } else {
        if exists i :: 0 <= i < |emails| && emails[i].id == selected.id {
          var i :| 0 <= i < |emails| && emails[i].id == selected.id;
          assert rest[i - 1] == emails[i];
        }
        if exists i :: 0 <= i < |rest| && rest[i].id == selected.id {
          var i :| 0 <= i < |rest| && rest[i].id == selected.id;
          assert emails[i + 1] == rest[i];
        }
      }
    }
  }
}
