/** The pure part of the live page (frontend/src/pages/Index.tsx): sentiment
    normalisation and the list updaters that the initial load and the
    realtime INSERT and UPDATE events apply to the cached email rows. */
module EmailFeed {
  import opened Optional

  /** A member of an untyped JavaScript object: missing (`undefined`), `null`,
      or present. */
  datatype Field<T> = Absent | Null | Present(value: T)

  /** The untyped `sentiment` column as it arrives. `JsObject` stands for any
      value whose `typeof` is "object" and that is not null (arrays included),
      described by its `label` and `score` members. */
  datatype JsValue =
    | JsUndefined
    | JsNull
    | JsBool(b: bool)
    | JsNumber(x: real)
    | JsString(s: string)
    | JsObject(labelText: Field<string>, score: Field<real>)

  /** `{label, score}`; `label` is a reserved word here, hence `labelText`. */
  datatype Sentiment = Sentiment(labelText: string, score: real)

  const Unknown := Sentiment("N/A", 0.0)

  /** `field ?? fallback`: only undefined and null are replaced. */
  function Coalesce<T>(f: Field<T>, fallback: T): T {
    if f.Present? then f.value else fallback
  }

  /** `normalizeSentiment`: non-objects become {label: "N/A", score: 0}; for an
      object each member is kept when present and replaced independently when
      missing or null. */
  function NormalizeSentiment(s: JsValue): (r: Sentiment)
    ensures !s.JsObject? ==> r == Unknown
    ensures s.JsObject? && s.labelText.Present? ==> r.labelText == s.labelText.value
    ensures s.JsObject? && !s.labelText.Present? ==> r.labelText == "N/A"
    ensures s.JsObject? && s.score.Present? ==> r.score == s.score.value
    ensures s.JsObject? && !s.score.Present? ==> r.score == 0.0
  {
    match s
    case JsObject(l, sc) => Sentiment(Coalesce(l, "N/A"), Coalesce(sc, 0.0))
    case _ => Unknown
  }

  /** The object form of a normalised sentiment. */
  function AsJs(s: Sentiment): JsValue {
    JsObject(Present(s.labelText), Present(s.score))
  }

  /** Normalising is idempotent: a normalised sentiment, stored back as an
      object, normalises to itself. */
  lemma NormalizeIdempotent(v: JsValue)
    ensures NormalizeSentiment(AsJs(NormalizeSentiment(v))) == NormalizeSentiment(v)
  {
  }

  /** One row of the `emails` table; `S` is the type of its sentiment column
      (raw as delivered, normalised once stored). `extracted` is opaque JSON. */
  datatype Row<S> = Row(
    id: int,
    sender: string,
    subject: string,
    body: string,
    receivedAt: string,
    extracted: string,
    sentiment: S,
    priorityScore: int,
    status: string,
    draft: Option<string>)

  type RawRow = Row<JsValue>
  type EmailRow = Row<Sentiment>

  /** `{ ...row, sentiment: normalizeSentiment(row.sentiment) }` */
  function Normalize(row: RawRow): (e: EmailRow)
    ensures e.sentiment == NormalizeSentiment(row.sentiment)
    ensures e.id == row.id && e.priorityScore == row.priorityScore && e.status == row.status
    ensures e.draft == row.draft && e.body == row.body && e.subject == row.subject
    ensures e.sender == row.sender && e.receivedAt == row.receivedAt && e.extracted == row.extracted
  {
    Row(row.id, row.sender, row.subject, row.body, row.receivedAt, row.extracted,
        NormalizeSentiment(row.sentiment), row.priorityScore, row.status, row.draft)
  }

  /** `(data || []).map(...)`: the rows of a successful initial read, in the
      order the query returned them, each with its sentiment normalised. */
  function LoadedRows(data: Option<seq<RawRow>>): (r: seq<EmailRow>)
    ensures |r| == |data.GetOr([])|
    ensures forall i :: 0 <= i < |r| ==> r[i] == Normalize(data.GetOr([])[i])
  {
    var rows := data.GetOr([]);
    seq(|rows|, i requires 0 <= i < |rows| => Normalize(rows[i]))
  }

  /** Non-increasing by priority score: the order that the comparator
      `(a, b) => b.priority_score - a.priority_score` asks for. */
  ghost predicate SortedByPriority(s: seq<EmailRow>) {
    forall i, j :: 0 <= i < j < |s| ==> s[i].priorityScore >= s[j].priorityScore
  }

  /** A sorted list with a head no lower than every element stays sorted. */
  lemma SortedCons(h: EmailRow, t: seq<EmailRow>)
    requires SortedByPriority(t)
    requires forall k :: 0 <= k < |t| ==> t[k].priorityScore <= h.priorityScore
    ensures SortedByPriority([h] + t)
  {
    var r := [h] + t;
    forall i, j | 0 <= i < j < |r| ensures r[i].priorityScore >= r[j].priorityScore {
      assert r[j] == t[j - 1];
      if i > 0 {
        assert r[i] == t[i - 1];
      }
    }
  }

  /** Places `x` before the first element whose score is not above its own. */
  function InsertByPriority(x: EmailRow, s: seq<EmailRow>): (r: seq<EmailRow>)
    ensures |r| == |s| + 1
    ensures multiset(r) == multiset(s) + multiset{x}
  {
    if s == [] then [x]
    else if x.priorityScore >= s[0].priorityScore then [x] + s
    else
      assert s == [s[0]] + s[1..];
      [s[0]] + InsertByPriority(x, s[1..])
  }

  /** Inserting into a sorted list keeps it sorted. */
  lemma {:induction false} InsertKeepsSorted(x: EmailRow, s: seq<EmailRow>)
    requires SortedByPriority(s)
    ensures SortedByPriority(InsertByPriority(x, s))
  {
    if s == [] {
    } else if x.priorityScore >= s[0].priorityScore {
      SortedCons(x, s);
    } else {
      var rest := InsertByPriority(x, s[1..]);
      InsertKeepsSorted(x, s[1..]);
      forall k | 0 <= k < |rest| ensures rest[k].priorityScore <= s[0].priorityScore {
        assert rest[k] in multiset(rest);
        if rest[k] != x {
          assert rest[k] in multiset(s[1..]);
          var j :| 0 <= j < |s[1..]| && s[1..][j] == rest[k];
          assert s[j + 1] == rest[k];
        }
      }
      SortedCons(s[0], rest);
    }
  }

  /** `.sort((a, b) => b.priority_score - a.priority_score)`: a permutation of
      the list, sorted by descending priority score. The relative order of
      rows with equal scores is not part of the contract. */
  function SortByPriority(s: seq<EmailRow>): (r: seq<EmailRow>)
    ensures |r| == |s|
    ensures multiset(r) == multiset(s)
    ensures SortedByPriority(r)
  {
    if s == [] then []
    else
      assert s == [s[0]] + s[1..];
      var sortedTail := SortByPriority(s[1..]);
      InsertKeepsSorted(s[0], sortedTail);
      InsertByPriority(s[0], sortedTail)
  }

  /** Lists with equal multisets hold the same elements. */
  lemma SameElements(a: seq<EmailRow>, b: seq<EmailRow>, e: EmailRow)
    requires multiset(a) == multiset(b)
    ensures e in a <==> e in b
  {
    assert e in a <==> e in multiset(a);
    assert e in b <==> e in multiset(b);
  }

  /** The INSERT handler's updater: `[newEmail, ...prev].sort(...)`. */
  function ApplyInsert(prev: seq<EmailRow>, row: RawRow): (r: seq<EmailRow>)
    ensures |r| == |prev| + 1
    ensures multiset(r) == multiset(prev) + multiset{Normalize(row)}
    ensures SortedByPriority(r)
  {
    SortByPriority([Normalize(row)] + prev)
  }

  /** No row is lost by an insert, and the new row is there. */
  lemma InsertKeepsRows(prev: seq<EmailRow>, row: RawRow, e: EmailRow)
    ensures e in ApplyInsert(prev, row) <==> e in prev || e == Normalize(row)
  {
    SameElements(ApplyInsert(prev, row), [Normalize(row)] + prev, e);
  }

  /** `prev.map(e => e.id === u.id ? u : e)`. */
  function ReplaceById(prev: seq<EmailRow>, u: EmailRow): (r: seq<EmailRow>)
    ensures |r| == |prev|
    ensures forall i :: 0 <= i < |prev| ==> r[i] == if prev[i].id == u.id then u else prev[i]
  {
    if prev == [] then []
    else [if prev[0].id == u.id then u else prev[0]] + ReplaceById(prev[1..], u)
  }

  /** Rows whose id differs from `u`'s keep their multiplicity through the
      replacement, and no row with `u`'s id other than `u` survives it. */
  lemma {:induction false} ReplaceByIdMultiset(prev: seq<EmailRow>, u: EmailRow, e: EmailRow)
    ensures e.id != u.id ==> multiset(ReplaceById(prev, u))[e] == multiset(prev)[e]
    ensures e.id == u.id && e != u ==> multiset(ReplaceById(prev, u))[e] == 0
  {
    if prev != [] {
      ReplaceByIdMultiset(prev[1..], u, e);
      assert prev == [prev[0]] + prev[1..];
      var head := if prev[0].id == u.id then u else prev[0];
      assert ReplaceById(prev, u) == [head] + ReplaceById(prev[1..], u);
    }
  }

  /** The UPDATE handler's updater: replace every row with the incoming id,
      keep the others, then sort. */
  function ApplyUpdate(prev: seq<EmailRow>, row: RawRow): (r: seq<EmailRow>)
    ensures |r| == |prev|
    ensures multiset(r) == multiset(ReplaceById(prev, Normalize(row)))
    ensures SortedByPriority(r)
  {
    SortByPriority(ReplaceById(prev, Normalize(row)))
  }

  /** Rows with another id are kept by an update, with their multiplicity. */
  lemma UpdateKeepsOtherRows(prev: seq<EmailRow>, row: RawRow, e: EmailRow)
    requires e.id != row.id
    ensures multiset(ApplyUpdate(prev, row))[e] == multiset(prev)[e]
  {
    ReplaceByIdMultiset(prev, Normalize(row), e);
  }

  /** Every row carrying the incoming id is the incoming row, and it is in the
      list exactly when its id was. */
  lemma UpdateReplacesMatchingRows(prev: seq<EmailRow>, row: RawRow)
    ensures forall i :: 0 <= i < |ApplyUpdate(prev, row)| && ApplyUpdate(prev, row)[i].id == row.id
              ==> ApplyUpdate(prev, row)[i] == Normalize(row)
    ensures (exists i :: 0 <= i < |prev| && prev[i].id == row.id) <==> Normalize(row) in ApplyUpdate(prev, row)
  {
    var u := Normalize(row);
    var replaced := ReplaceById(prev, u);
    var r := ApplyUpdate(prev, row);
    forall i | 0 <= i < |r| && r[i].id == row.id ensures r[i] == u {
      SameElements(r, replaced, r[i]);
      var j :| 0 <= j < |replaced| && replaced[j] == r[i];
    }
    SameElements(r, replaced, u);
    if u in replaced {
      var j :| 0 <= j < |replaced| && replaced[j] == u;
      assert prev[j].id == row.id;
    }
    if exists i :: 0 <= i < |prev| && prev[i].id == row.id {
      var i :| 0 <= i < |prev| && prev[i].id == row.id;
      assert replaced[i] == u;
    }
  }

  /** An update for an id that is not in the list only re-sorts it. */
  lemma UpdateOfUnknownIdOnlySorts(prev: seq<EmailRow>, row: RawRow)
    requires forall i :: 0 <= i < |prev| ==> prev[i].id != row.id
    ensures multiset(ApplyUpdate(prev, row)) == multiset(prev)
  {
    assert ReplaceById(prev, Normalize(row)) == prev;
  }

  /** `priority_score > 3 ? "Urgent" : "Normal"` */
  function UrgencyLabel(priorityScore: int): (badge: string)
    ensures badge == "Urgent" <==> priorityScore > 3
    ensures badge == "Normal" <==> priorityScore <= 3
  {
    if priorityScore > 3 then "Urgent" else "Normal"
  }

  /** `email.draft && ...`: null and the empty string are falsy, so the draft
      block is shown exactly for a non-empty draft. */
  function ShowsDraft(draft: Option<string>): (shown: bool)
    ensures shown <==> draft != None && draft != Some("")
  {
    match draft
    case Some(d) => |d| > 0
    case None => false
  }

  /** `email.sentiment?.label || "N/A"`: an empty label is shown as "N/A". */
  function SentimentText(s: Sentiment): (t: string)
    ensures t != ""
    ensures s.labelText != "" ==> t == s.labelText
    ensures s.labelText == "" ==> t == "N/A"
  {
    if s.labelText != "" then s.labelText else "N/A"
  }
}
