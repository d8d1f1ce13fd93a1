/**
 * The dashboard's figures over the church's sermon list: total, processed
 * content, success rate, and the five most recent sermons with their
 * status badges.
 */
module DashboardHome {
  import opened Wrappers
  import opened Records
  import SermonList

  /** A sermon whose content row reports the workflow as completed; a sermon without content is not one. */
  predicate IsProcessed(s: Sermon)
    ensures IsProcessed(s) ==> s.sermon_content.Some?
    ensures s.sermon_content.Some? ==> (IsProcessed(s) <==> s.sermon_content.value.processing_status == Completed)
  {
    s.sermon_content.Some? && s.sermon_content.value.processing_status == Completed
  }

  /** The processed sermons are exactly those whose status badge is green. */
  lemma ProcessedIffGreenBadge(s: Sermon)
    ensures IsProcessed(s) <==> SermonList.SermonBadge(s).Some? && SermonList.SermonBadge(s).value.color == SermonList.Green
  {
  }

  /** `sermons.filter(s => s.sermon_content?.processing_status === 'completed')`. */
  function Processed(sermons: seq<Sermon>): (r: seq<Sermon>)
    ensures |r| <= |sermons|
    ensures forall x :: x in r ==> x in sermons && IsProcessed(x)
    ensures forall x :: x in sermons && IsProcessed(x) ==> x in r
  {
    if |sermons| == 0 then []
    else
      (if IsProcessed(sermons[0]) then [sermons[0]] else []) + Processed(sermons[1..])
  }

  /** The filter keeps every copy of each processed sermon and no copy of any other. */
  lemma {:induction false} ProcessedCounts(sermons: seq<Sermon>)
    ensures forall x :: multiset(Processed(sermons))[x] == if IsProcessed(x) then multiset(sermons)[x] else 0
  {
    if |sermons| > 0 {
      var tail := sermons[1..];
      ProcessedCounts(tail);
      assert sermons == [sermons[0]] + tail;
      assert multiset(sermons) == multiset([sermons[0]]) + multiset(tail);
      assert Processed(sermons) == (if IsProcessed(sermons[0]) then [sermons[0]] else []) + Processed(tail);
    }
  }

  /** The filter keeps every sermon exactly when all are processed. */
  lemma {:induction false} ProcessedAll(sermons: seq<Sermon>)
    ensures |Processed(sermons)| == |sermons| <==> forall i :: 0 <= i < |sermons| ==> IsProcessed(sermons[i])
  {
    if |sermons| > 0 {
      var tail := sermons[1..];
      ProcessedAll(tail);
      assert forall i :: 1 <= i < |sermons| ==> sermons[i] == tail[i - 1];
      assert |Processed(sermons)| == (if IsProcessed(sermons[0]) then 1 else 0) + |Processed(tail)|;
    }
  }

  /** The filter keeps no sermon exactly when none is processed. */
  lemma {:induction false} ProcessedNone(sermons: seq<Sermon>)
    ensures |Processed(sermons)| == 0 <==> forall i :: 0 <= i < |sermons| ==> !IsProcessed(sermons[i])
  {
    if |sermons| > 0 {
      var tail := sermons[1..];
      ProcessedNone(tail);
      assert forall i :: 1 <= i < |sermons| ==> sermons[i] == tail[i - 1];
      assert |Processed(sermons)| == (if IsProcessed(sermons[0]) then 1 else 0) + |Processed(tail)|;
    }
  }

  /**
   * `Math.round((processed / total) * 100)` computed on exact rationals: the nearest
   * whole percentage, halves rounded up.
   */
  function RoundedPercent(processed: nat, total: nat): (p: nat)
    requires 0 < total && processed <= total
    ensures 2 * total * p <= 200 * processed + total < 2 * total * (p + 1)
    ensures p <= 100
    ensures processed == 0 ==> p == 0
    ensures processed == total ==> p == 100
  {
    var p := (200 * processed + total) / (2 * total);
    assert 2 * total * p <= 200 * processed + total < 2 * total * (p + 1);
    PercentBound(processed, total, p);
    p
  }

  /** A round-half-up percentage of at most the whole is at most 100 and exact at both ends. */
  lemma PercentBound(processed: nat, total: nat, p: nat)
    requires 0 < total && processed <= total
    requires 2 * total * p <= 200 * processed + total < 2 * total * (p + 1)
    ensures p <= 100
    ensures processed == 0 ==> p == 0
    ensures processed == total ==> p == 100
  {
    if p > 100 {
      MonotoneProduct(2 * total, 101, p);
      assert false;
    }
    if processed == 0 && p > 0 {
      MonotoneProduct(2 * total, 1, p);
      assert false;
    }
    if processed == total && p < 100 {
      MonotoneProduct(2 * total, p + 1, 100);
      assert false;
    }
  }

  /** Multiplying by a natural number keeps the order. */
  lemma MonotoneProduct(k: nat, a: nat, b: nat)
    requires a <= b
    ensures k * a <= k * b
  {
  }

  /** The decimal digits of a number, as a template literal prints it. */
  function Decimal(n: nat): (s: string)
    ensures 0 < |s|
    ensures forall i :: 0 <= i < |s| ==> '0' <= s[i] <= '9'
    ensures |s| == 1 || s[0] != '0'
  {
    if n < 10 then [DigitChar(n)] else Decimal(n / 10) + [DigitChar(n % 10)]
  }

  function DigitChar(d: nat): (c: char)
    requires d < 10
    ensures '0' <= c <= '9'
    ensures c as int - '0' as int == d
  {
    ['0', '1', '2', '3', '4', '5', '6', '7', '8', '9'][d]
  }

  /** The value of a string of decimal digits. */
  function DecimalValue(s: string): (v: nat)
    requires forall i :: 0 <= i < |s| ==> '0' <= s[i] <= '9'
  {
    if |s| == 0 then 0 else 10 * DecimalValue(s[..|s| - 1]) + (s[|s| - 1] as int - '0' as int)
  }

  /** Printing then reading a number gives it back. */
  lemma {:induction false} DecimalRoundTrip(n: nat)
    ensures DecimalValue(Decimal(n)) == n
  {
    if n >= 10 {
      DecimalRoundTrip(n / 10);
      var s := Decimal(n);
      assert s[..|s| - 1] == Decimal(n / 10);
    }
  }

  /** The dashboard's "Total Sermons", "Processed Content" and "Success Rate" figures; "This Month" needs the clock. */
  datatype Stats = Stats(total: nat, processed: nat, successRate: string)

  /** The success-rate text: "0%" for an empty list, the rounded percentage otherwise. */
  function SuccessRate(sermons: seq<Sermon>): (r: string)
    ensures |sermons| == 0 ==> r == "0%"
    ensures |sermons| > 0 ==> r == Decimal(RoundedPercent(|Processed(sermons)|, |sermons|)) + "%"
  {
    if |sermons| > 0 then Decimal(RoundedPercent(|Processed(sermons)|, |sermons|)) + "%" else "0%"
  }

  function ComputeStats(sermons: seq<Sermon>): (st: Stats)
    ensures st.total == |sermons|
    ensures st.processed == |Processed(sermons)| <= st.total
    ensures st.successRate == SuccessRate(sermons)
  {
    Stats(|sermons|, |Processed(sermons)|, SuccessRate(sermons))
  }

  /** The percentage printed in the success rate lies between 0 and 100. */
  lemma SuccessRateInRange(sermons: seq<Sermon>)
    requires |sermons| > 0
    ensures var p := RoundedPercent(|Processed(sermons)|, |sermons|);
      0 <= p <= 100 && SuccessRate(sermons) == Decimal(p) + "%"
  {
  }

  /** `sermons.slice(0, 5)`: the first five sermons, or all of them when there are fewer, in order. */
  function RecentSermons(sermons: seq<Sermon>): (r: seq<Sermon>)
    ensures |r| == if |sermons| < 5 then |sermons| else 5
    ensures forall i :: 0 <= i < |r| ==> r[i] == sermons[i]
  {
    if |sermons| < 5 then sermons else sermons[..5]
  }

  /** The colour of a recent sermon's badge, written as a chain of comparisons. */
  function RecentBadgeColor(status: ProcessingStatus): (c: SermonList.BadgeColor)
    // The dashboard's badges agree with the sermon list's colour mapping.
    ensures c == SermonList.StatusColor(status)
  {
    if status == Completed then SermonList.Green
    else if status == Processing then SermonList.Yellow
    else if status == Failed then SermonList.Red
    else SermonList.Gray
  }

  /** One row of "Recent Sermons". */
  datatype RecentRow = RecentRow(title: string, speaker: string, badge: Option<SermonList.Badge>)

  function Row(s: Sermon): (r: RecentRow)
    ensures r.title == s.title && r.speaker == s.speaker_name
    ensures r.badge.Some? <==> s.sermon_content.Some?
    ensures r.badge.Some? ==> r.badge.value.color == SermonList.StatusColor(s.sermon_content.value.processing_status)
    ensures r.badge.Some? ==> r.badge.value.text == SermonList.StatusText(s.sermon_content.value.processing_status)
  {
    RecentRow(s.title, s.speaker_name,
      if s.sermon_content.Some? then
        var st := s.sermon_content.value.processing_status;
        Some(SermonList.Badge(SermonList.StatusText(st), RecentBadgeColor(st)))
      else None)
  }

  /** The "Recent Sermons" panel: rows for the recent sermons, or the notice when there are none. */
  datatype RecentPanel = NoSermonsYet | Rows(rows: seq<RecentRow>)

  function Recent(sermons: seq<Sermon>): (p: RecentPanel)
    ensures p == NoSermonsYet <==> |sermons| == 0
    ensures p.Rows? ==> |p.rows| == |RecentSermons(sermons)| <= 5
    ensures p.Rows? ==> forall i :: 0 <= i < |p.rows| ==> p.rows[i] == Row(sermons[i])
  {
    var recent := RecentSermons(sermons);
    if |recent| == 0 then NoSermonsYet else Rows(seq(|recent|, i requires 0 <= i < |recent| => Row(recent[i])))
  }
}
