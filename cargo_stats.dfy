/** The summary statistics shown above the fleet views: the share of shipments that are on
    time, the average number of days left until arrival, and the marker colour of a status.
    All arithmetic is exact: Math.round(x) is floor(x + 1/2), written over integers. */
module CargoStats {
  import opened Util
  import opened CargoRecord

  const MS_PER_DAY: int := 1000 * 60 * 60 * 24

  /** Math.round(num / den) for den > 0: the integer nearest to num / den, halves rounded up. */
  function RoundRatio(num: int, den: int): (r: int)
    requires den > 0
    ensures 2 * den * r <= 2 * num + den < 2 * den * (r + 1)
  {
    (2 * num + den) / (2 * den)
  }

  /** The characterisation in RoundRatio's contract picks one integer only. */
  lemma RoundRatioUnique(num: int, den: int, r: int)
    requires den > 0
    requires 2 * den * r <= 2 * num + den < 2 * den * (r + 1)
    ensures r == RoundRatio(num, den)
  {
    var q := RoundRatio(num, den);
    if r < q {
      MulMono(2 * den, r + 1, q);
    } else if r > q {
      MulMono(2 * den, q + 1, r);
    }
  }

  lemma MulMono(c: int, a: int, b: int)
    requires c > 0 && a <= b
    ensures c * a <= c * b
  {
  }

  /** Rounding a ratio is monotone in the numerator. */
  lemma {:induction false} RoundRatioMono(a: int, b: int, den: int)
    requires den > 0 && a <= b
    ensures RoundRatio(a, den) <= RoundRatio(b, den)
  {
    var ra, rb := RoundRatio(a, den), RoundRatio(b, den);
    if ra > rb {
      MulMono(2 * den, rb + 1, ra);
    }
  }

  /** getOnTimePercentage: 0 for an empty list, else Math.round(100 * k / n) where k counts
      the on-time or delivered records. */
  function OnTimePercentage(items: seq<Cargo>): (p: int)
    ensures 0 <= p <= 100
    ensures items == [] ==> p == 0
    ensures items != [] ==>
      2 * |items| * p <= 200 * CountOnTimeOrDelivered(items) + |items| < 2 * |items| * (p + 1)
    ensures CountOnTimeOrDelivered(items) == 0 ==> p == 0
    ensures items != [] && CountOnTimeOrDelivered(items) == |items| ==> p == 100
  {
    if items == [] then 0
    else
      var k, n := CountOnTimeOrDelivered(items), |items|;
      RoundRatioMono(0, 100 * k, n);
      RoundRatioMono(100 * k, 100 * n, n);
      RoundRatioUnique(0, n, 0);
      RoundRatioUnique(100 * n, n, 100);
      RoundRatio(100 * k, n)
  }

  /** Days left until `eta` seen from `now`: Math.max(0, Math.round((eta - now) / day)). */
  function DaysLeft(eta: int, now: int): (d: nat)
    ensures eta > now ==> 2 * MS_PER_DAY * d <= 2 * (eta - now) + MS_PER_DAY < 2 * MS_PER_DAY * (d + 1)
    ensures eta <= now ==> d == 0
  {
    var r := RoundRatio(eta - now, MS_PER_DAY);
    RoundRatioUnique(0, MS_PER_DAY, 0);
    if eta <= now then
      RoundRatioMono(eta - now, 0, MS_PER_DAY);
      0
    else
      RoundRatioMono(0, eta - now, MS_PER_DAY);
      r
  }

  /** How many records carry an eta. */
  function CountWithEta(items: seq<Cargo>): (c: nat)
    ensures c <= |items|
    ensures c == 0 <==> forall i :: 0 <= i < |items| ==> items[i].eta.None?
  {
    if items == [] then 0
    else (if items[0].eta.Some? then 1 else 0) + CountWithEta(items[1..])
  }

  /** The days left of every record that carries an eta, in list order: one entry per such
      record, and nothing else. */
  function TransitDays(items: seq<Cargo>, now: int): (days: seq<nat>)
    ensures |days| == CountWithEta(items)
  {
    if items == [] then []
    else
      var rest := TransitDays(items[1..], now);
      match items[0].eta
      case None => rest
      case Some(eta) => [DaysLeft(eta, now)] + rest
  }

  /** The entries of TransitDays are exactly the days left of the records with an eta. */
  lemma {:induction false} TransitDaysEntries(items: seq<Cargo>, now: int)
    ensures forall i :: 0 <= i < |items| && items[i].eta.Some? ==>
      DaysLeft(items[i].eta.value, now) in TransitDays(items, now)
    ensures forall d :: d in TransitDays(items, now) ==>
      exists i :: 0 <= i < |items| && items[i].eta.Some? && d == DaysLeft(items[i].eta.value, now)
    decreases |items|
  {
    if items != [] {
      var rest := items[1..];
      TransitDaysEntries(rest, now);
      forall i | 1 <= i < |items|
        ensures items[i] == rest[i - 1]
      {
      }
    }
  }

  /** The days of a concatenation are the concatenated days. */
  lemma {:induction false} TransitDaysConcat(a: seq<Cargo>, b: seq<Cargo>, now: int)
    ensures TransitDays(a + b, now) == TransitDays(a, now) + TransitDays(b, now)
    decreases |a|
  {
    if a != [] {
      assert (a + b)[1..] == a[1..] + b;
      TransitDaysConcat(a[1..], b, now);
    } else {
      assert a + b == b;
    }
  }

  function Sum(s: seq<nat>): nat {
    if s == [] then 0 else s[0] + Sum(s[1..])
  }

  function MinOf(s: seq<nat>): (m: nat)
    requires s != []
    ensures m in s && forall i :: 0 <= i < |s| ==> m <= s[i]
  {
    if |s| == 1 then s[0]
    else var m := MinOf(s[1..]); if s[0] <= m then s[0] else m
  }

  function MaxOf(s: seq<nat>): (m: nat)
    requires s != []
    ensures m in s && forall i :: 0 <= i < |s| ==> s[i] <= m
  {
    if |s| == 1 then s[0]
    else var m := MaxOf(s[1..]); if s[0] >= m then s[0] else m
  }

  /** The sum of a non-empty list lies between |s| times its least and |s| times its
      greatest element. */
  lemma {:induction false} SumBounds(s: seq<nat>, lo: nat, hi: nat)
    requires forall i :: 0 <= i < |s| ==> lo <= s[i] <= hi
    ensures |s| * lo <= Sum(s) <= |s| * hi
    decreases |s|
  {
    if s != [] {
      var t := s[1..];
      forall i | 0 <= i < |t|
        ensures lo <= t[i] <= hi
      {
        assert t[i] == s[i + 1];
      }
      SumBounds(t, lo, hi);
      assert Sum(s) == s[0] + Sum(t);
      assert |s| == |t| + 1;
      assert (|t| + 1) * lo == |t| * lo + lo;
      assert (|t| + 1) * hi == |t| * hi + hi;
    }
  }

  /** getAverageTransitTime as a number of days: 0 for an empty list or when no record has
      an eta, else the rounded mean of the days left. */
  function AverageTransitDays(items: seq<Cargo>, now: int): (avg: nat)
  {
    var days := TransitDays(items, now);
    if days == [] then 0 else
      var r := RoundRatio(Sum(days), |days|);
      if r < 0 then 0 else r
  }

  /** The average lies between the fewest and the most days left of any record with an eta,
      and is 0 when there is none. */
  lemma AverageWithinRange(items: seq<Cargo>, now: int)
    ensures TransitDays(items, now) == [] ==> AverageTransitDays(items, now) == 0
    ensures TransitDays(items, now) != [] ==>
      MinOf(TransitDays(items, now)) <= AverageTransitDays(items, now) <= MaxOf(TransitDays(items, now))
  {
    var days := TransitDays(items, now);
    if days != [] {
      var lo, hi := MinOf(days), MaxOf(days);
      SumBounds(days, lo, hi);
      RoundedMeanBetween(Sum(days), |days|, lo, hi);
    }
  }

  /** A rounded mean stays between the bounds of the values averaged. */
  lemma RoundedMeanBetween(sum: int, n: int, lo: int, hi: int)
    requires n > 0 && n * lo <= sum <= n * hi
    ensures lo <= RoundRatio(sum, n) <= hi
  {
    RoundRatioMono(n * lo, sum, n);
    RoundRatioMono(sum, n * hi, n);
    RoundRatioUnique(n * lo, n, lo);
    RoundRatioUnique(n * hi, n, hi);
  }

  /** A record without an eta contributes no days. */
  lemma NoEtaNoDays(c: Cargo, now: int)
    requires c.eta.None?
    ensures TransitDays([c], now) == []
  {
    assert [c][1..] == [];
  }

  /** The average does not depend on records without an eta: inserting one anywhere changes
      neither the days nor the average. */
  lemma EtaLessIgnored(c: Cargo, items: seq<Cargo>, p: nat, now: int)
    requires c.eta.None? && p <= |items|
    ensures TransitDays(items[..p] + [c] + items[p..], now) == TransitDays(items, now)
    ensures AverageTransitDays(items[..p] + [c] + items[p..], now) == AverageTransitDays(items, now)
  {
    var pre, post := items[..p], items[p..];
    assert pre + post == items;
    calc {
      TransitDays(pre + [c] + post, now);
      { TransitDaysConcat(pre + [c], post, now); }
      TransitDays(pre + [c], now) + TransitDays(post, now);
      { TransitDaysConcat(pre, [c], now); NoEtaNoDays(c, now); }
      TransitDays(pre, now) + TransitDays(post, now);
      { TransitDaysConcat(pre, post, now); }
      TransitDays(items, now);
    }
  }

  /** getAverageTransitTime: the average rendered as "<n>d". Reading the digits back gives
      the average. */
  function AverageTransitTime(items: seq<Cargo>, now: int): (text: string)
    ensures |text| >= 2 && text[|text| - 1] == 'd'
    ensures forall i :: 0 <= i < |text| - 1 ==> '0' <= text[i] <= '9'
    ensures DigitsValue(text[..|text| - 1]) == AverageTransitDays(items, now)
    ensures (items == [] || forall i :: 0 <= i < |items| ==> items[i].eta.None?) ==> text == "0d"
  {
    var digits := NatToString(AverageTransitDays(items, now));
    NatToStringRoundTrip(AverageTransitDays(items, now));
    assert (digits + "d")[..|digits|] == digits;
    digits + "d"
  }

  const GREEN: string := "#22c55e"
  const RED: string := "#ef4444"
  const BLUE: string := "#60a5fa"
  const VIOLET: string := "#a78bfa"
  const GREY: string := "#9ca3af"

  /** getCargoStatusColor. */
  function StatusColor(status: string): (colour: string)
  {
    if status == ON_TIME then GREEN
    else if status == DELAYED then RED
    else if status == IN_TRANSIT then BLUE
    else if status == DELIVERED then VIOLET
    else GREY
  }

  predicate IsKnownStatus(status: string) {
    status == ON_TIME || status == DELAYED || status == IN_TRANSIT || status == DELIVERED
  }

  /** The four known statuses get four different colours, and the neutral grey is given to
      exactly the statuses that are not known. */
  lemma StatusColorDistinct(s1: string, s2: string)
    requires IsKnownStatus(s1) && IsKnownStatus(s2) && s1 != s2
    ensures StatusColor(s1) != StatusColor(s2)
  {
  }

  lemma StatusColorGreyIffUnknown(status: string)
    ensures StatusColor(status) == GREY <==> !IsKnownStatus(status)
  {
  }
}
