/** The `filteredEmails` list of the Dashboard component
    (frontend/src/components/Dashboard.tsx): a filter over the email list
    keyed by the `activeFilter` string that the filter buttons set. */
module Dashboard {
  import opened Seqs
  import opened Mail

  /** The filter names the component recognises; "all" is one of them. */
  const KnownFilters: set<string> := {"all", "urgent", "positive", "negative", "neutral"}

  /** The predicate passed to `.filter`; an unrecognised filter keeps everything. */
  function Matches(activeFilter: string, e: Email): (m: bool)
    ensures activeFilter == "all" || activeFilter !in KnownFilters ==> m
    ensures activeFilter == "urgent" ==> (m <==> IsUrgent(e))
    ensures forall s :: activeFilter == SentimentName(s) ==> (m <==> e.sentiment == s)
  {
    if activeFilter == "all" then true
    else if activeFilter == "urgent" then e.priority == Urgent
    else if activeFilter == "positive" then e.sentiment == Positive
    else if activeFilter == "negative" then e.sentiment == Negative
    else if activeFilter == "neutral" then e.sentiment == Neutral
    else true
  }

  /** `mockEmails.filter(...)`: an order-preserving subsequence of the list
      holding exactly the emails the active filter matches. */
  function FilteredEmails(emails: seq<Email>, activeFilter: string): (r: seq<Email>)
    ensures IsSubsequence(r, emails)
    ensures forall x: Email :: multiset(r)[x] == if Matches(activeFilter, x) then multiset(emails)[x] else 0
    ensures forall x: Email :: x in r <==> x in emails && Matches(activeFilter, x)
  {
    Filter(emails, e => Matches(activeFilter, e))
  }

  /** "all", and any name the component does not know, show the whole list. */
  lemma UnfilteredWhenAllOrUnknown(emails: seq<Email>, activeFilter: string)
    requires activeFilter == "all" || activeFilter !in KnownFilters
    ensures FilteredEmails(emails, activeFilter) == emails
  {
    FilterKeepsAll(emails, e => Matches(activeFilter, e));
  }

  /** "urgent" keeps exactly the urgent emails, in order. */
  lemma UrgentFilter(emails: seq<Email>)
    ensures FilteredEmails(emails, "urgent") == Filter(emails, IsUrgent)
    ensures |FilteredEmails(emails, "urgent")| == UrgentCount(emails)
  {
    FilterCongruent(emails, e => Matches("urgent", e), IsUrgent);
  }

  /** Each sentiment filter keeps exactly the emails with that sentiment, in order. */
  lemma SentimentFilter(emails: seq<Email>, s: Sentiment)
    ensures FilteredEmails(emails, SentimentName(s)) == Filter(emails, (e: Email) => e.sentiment == s)
    ensures |FilteredEmails(emails, SentimentName(s))| == SentimentCount(emails, s)
  {
    FilterCongruent(emails, e => Matches(SentimentName(s), e), (e: Email) => e.sentiment == s);
  }

  /** The three sentiment filters partition the list. */
  lemma SentimentFiltersPartition(emails: seq<Email>)
    ensures |FilteredEmails(emails, "positive")| + |FilteredEmails(emails, "negative")|
            + |FilteredEmails(emails, "neutral")| == |emails|
  {
    SentimentFilter(emails, Positive);
    SentimentFilter(emails, Negative);
    SentimentFilter(emails, Neutral);
    SentimentPartition(emails);
  }
}
