/** The daily emotion summary (app/services/summary_service.py). Dates are
    day numbers counted in UTC from the epoch and timestamps are seconds, so
    the query `created_at >= today - 1 day` keeps the logs stamped at or
    after the start of yesterday. The session's summaries table is a class
    whose rows the method appends to. */
module SummaryService {
  import opened Values

  datatype EmotionLogRow = EmotionLogRow(emotion: string, createdAt: int)

  /** A ratio count/total kept exact, as numerator and denominator. */
  datatype Ratio = Ratio(num: nat, den: nat)

  datatype DailySummary = DailySummary(
    date: int,
    totalFeedback: nat,
    positiveRatio: Ratio,
    negativeRatio: Ratio,
    neutralRatio: Ratio)

  const SecondsPerDay := 86400

  /** The first second of the day before `today`. */
  function Cutoff(today: int): int
  {
    (today - 1) * SecondsPerDay
  }

  predicate IsRecent(l: EmotionLogRow, today: int)
  {
    l.createdAt >= Cutoff(today)
  }

  /** The logs the query returns, in the order stored: every recent log with
      its multiplicity, and no other. */
  function Recent(logs: seq<EmotionLogRow>, today: int): (r: seq<EmotionLogRow>)
    ensures |r| <= |logs|
    ensures forall l :: multiset(r)[l] == if IsRecent(l, today) then multiset(logs)[l] else 0
    ensures forall l :: l in r ==> IsRecent(l, today)
  {
    if logs == [] then []
    else
      var rest := Recent(logs[1..], today);
      assert logs == [logs[0]] + logs[1..];
      assert multiset(logs) == multiset([logs[0]]) + multiset(logs[1..]);
      if IsRecent(logs[0], today) then [logs[0]] + rest else rest
  }

  /** The filter keeps the stored order: it distributes over concatenation. */
  lemma {:induction false} RecentAppend(a: seq<EmotionLogRow>, b: seq<EmotionLogRow>, today: int)
    ensures Recent(a + b, today) == Recent(a, today) + Recent(b, today)
  {
    if a == [] {
      assert a + b == b;
    } else {
      assert (a + b)[0] == a[0] && (a + b)[1..] == a[1..] + b;
      RecentAppend(a[1..], b, today);
    }
  }

  /** A single log is kept exactly when it is recent. */
  lemma RecentSingle(l: EmotionLogRow, today: int)
    ensures Recent([l], today) == if IsRecent(l, today) then [l] else []
  {
    assert [l][1..] == [];
  }

  /** `sum(1 for l in logs if l.emotion == wanted)`: exact matches only. */
  function CountLabel(logs: seq<EmotionLogRow>, wanted: string): (n: nat)
    ensures n <= |logs|
    ensures n == 0 <==> forall i :: 0 <= i < |logs| ==> logs[i].emotion != wanted
    ensures n == |logs| <==> forall i :: 0 <= i < |logs| ==> logs[i].emotion == wanted
  {
    if logs == [] then 0
    else (if logs[0].emotion == wanted then 1 else 0) + CountLabel(logs[1..], wanted)
  }

  /** Counting distributes over concatenation. */
  lemma {:induction false} CountLabelAppend(a: seq<EmotionLogRow>, b: seq<EmotionLogRow>, wanted: string)
    ensures CountLabel(a + b, wanted) == CountLabel(a, wanted) + CountLabel(b, wanted)
  {
    if a == [] {
      assert a + b == b;
    } else {
      assert (a + b)[0] == a[0] && (a + b)[1..] == a[1..] + b;
      CountLabelAppend(a[1..], b, wanted);
    }
  }

  /** A log whose label is none of the three English ones, such as 긍정,
      changes none of the counts. */
  lemma OtherLabelsCountedInNone(logs: seq<EmotionLogRow>, l: EmotionLogRow)
    requires l.emotion != "positive" && l.emotion != "negative" && l.emotion != "neutral"
    ensures CountLabel(logs + [l], "positive") == CountLabel(logs, "positive")
    ensures CountLabel(logs + [l], "negative") == CountLabel(logs, "negative")
    ensures CountLabel(logs + [l], "neutral") == CountLabel(logs, "neutral")
  {
    CountLabelAppend(logs, [l], "positive");
    CountLabelAppend(logs, [l], "negative");
    CountLabelAppend(logs, [l], "neutral");
  }

  /** The three counts never add up to more than the total. */
  lemma {:induction false} CountsWithinTotal(logs: seq<EmotionLogRow>)
    ensures CountLabel(logs, "positive") + CountLabel(logs, "negative") + CountLabel(logs, "neutral") <= |logs|
  {
    if logs != [] {
      CountsWithinTotal(logs[1..]);
    }
  }

  /** The summary the function stores, or None when there are no logs. */
  function Summarize(logs: seq<EmotionLogRow>, today: int): (r: Option<DailySummary>)
    ensures r.None? <==> logs == []
    ensures r.Some? ==>
      && r.value.date == today
      && r.value.totalFeedback == |logs|
      && r.value.positiveRatio == Ratio(CountLabel(logs, "positive"), |logs|)
      && r.value.negativeRatio == Ratio(CountLabel(logs, "negative"), |logs|)
      && r.value.neutralRatio == Ratio(CountLabel(logs, "neutral"), |logs|)
  {
    if logs == [] then None
    else
      var total := |logs|;
      Some(DailySummary(today, total,
                        Ratio(CountLabel(logs, "positive"), total),
                        Ratio(CountLabel(logs, "negative"), total),
                        Ratio(CountLabel(logs, "neutral"), total)))
  }

  predicate ProperRatio(r: Ratio)
  {
    r.den > 0 && r.num <= r.den
  }

  /** Every stored ratio has a positive denominator and lies in [0, 1], and
      the three ratios together stay within 1. */
  lemma SummaryRatiosAreProper(logs: seq<EmotionLogRow>, today: int)
    requires logs != []
    ensures var s := Summarize(logs, today).value;
      && ProperRatio(s.positiveRatio) && ProperRatio(s.negativeRatio) && ProperRatio(s.neutralRatio)
      && s.positiveRatio.num + s.negativeRatio.num + s.neutralRatio.num <= s.totalFeedback
  {
    CountsWithinTotal(logs);
  }

  /** The committed rows of the summaries table. */
  class SummaryTable {
    var rows: seq<DailySummary>

    constructor ()
      ensures rows == []
    {
      rows := [];
    }
  }

  /** update_daily_summary. The query (`queryFails`) and the commit
      (`commitFails`) may raise; neither is caught, so the call raises (None)
      and nothing is committed. Otherwise, with no recent logs nothing is
      stored and 0 is returned; else exactly one summary is committed and the
      number of recent logs is returned. */
  method UpdateDailySummary(db: SummaryTable, allLogs: seq<EmotionLogRow>, today: int,
                            queryFails: bool, commitFails: bool)
    returns (total: Option<nat>)
    modifies db
    ensures queryFails ==> total.None? && db.rows == old(db.rows)
    ensures !queryFails ==>
      var logs := Recent(allLogs, today);
      && (logs == [] ==> total == Some(0) && db.rows == old(db.rows))
      && (logs != [] && commitFails ==> total.None? && db.rows == old(db.rows))
      && (logs != [] && !commitFails ==>
            total == Some(|logs|) && db.rows == old(db.rows) + [Summarize(logs, today).value])
  {
    if queryFails {
      return None;
    }
    var logs := Recent(allLogs, today);
    if logs == [] {
      return Some(0);
    }
    var count := |logs|;
    var summary := DailySummary(today, count,
                                Ratio(CountLabel(logs, "positive"), count),
                                Ratio(CountLabel(logs, "negative"), count),
                                Ratio(CountLabel(logs, "neutral"), count));
    if commitFails {
      return None;
    }
    db.rows := db.rows + [summary];
    total := Some(count);
  }
}
