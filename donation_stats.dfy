/** The public read side of the donations in backend/server.js: the stats
    endpoint (total, highest, lowest and number of distinct donors over
    completed donations) and the recent-donations endpoint (the four most
    recently updated completed donations, with a relative date and a masked
    donor name). */
module DonationStats {
  import opened Wrappers
  import opened Text
  import opened JsValues
  import opened DonationModel

  // ----- stats -----

  /** `find({status: 'completed'})`, in store order. */
  function CompletedDonations(records: seq<Donation>): (c: seq<Donation>)
    ensures |c| <= |records|
    ensures forall d | d in c :: d in records && d.status == Completed
    ensures forall d | d in records && d.status == Completed :: d in c
  {
    if records == [] then []
    else (if records[0].status == Completed then [records[0]] else []) + CompletedDonations(records[1..])
  }

  /** The filter keeps every completed donation as many times as the store
      holds it, and nothing else. */
  lemma {:induction false} CompletedCount(records: seq<Donation>)
    ensures forall d :: multiset(CompletedDonations(records))[d] ==
                        if d.status == Completed then multiset(records)[d] else 0
  {
    if records != [] {
      assert records == [records[0]] + records[1..];
      CompletedCount(records[1..]);
    }
  }

  /** The filter keeps store order: the completed donations of two runs of
      records are those of the first run followed by those of the second. */
  lemma {:induction false} CompletedAppend(a: seq<Donation>, b: seq<Donation>)
    ensures CompletedDonations(a + b) == CompletedDonations(a) + CompletedDonations(b)
  {
    if a == [] {
      assert a + b == b;
    } else {
      assert (a + b)[1..] == a[1..] + b;
      CompletedAppend(a[1..], b);
    }
  }

  function Amounts(ds: seq<Donation>): (a: seq<int>)
    ensures |a| == |ds| && forall i | 0 <= i < |ds| :: a[i] == ds[i].amount
  {
    seq(|ds|, i requires 0 <= i < |ds| => ds[i].amount)
  }

  /** `$sum` of the amounts. */
  function Sum(xs: seq<int>): int {
    if xs == [] then 0 else xs[0] + Sum(xs[1..])
  }

  /** `Math.max(...xs)`, or 0 for no amounts. */
  function Highest(xs: seq<int>): (m: int)
    ensures xs != [] ==> m in xs && forall x | x in xs :: x <= m
    ensures xs == [] ==> m == 0
  {
    if xs == [] then 0
    else if |xs| == 1 then xs[0]
    else
      var rest := Highest(xs[1..]);
      assert xs == [xs[0]] + xs[1..];
      if xs[0] >= rest then xs[0] else rest
  }

  /** `Math.min(...xs)`, or 0 for no amounts. */
  function Lowest(xs: seq<int>): (m: int)
    ensures xs != [] ==> m in xs && forall x | x in xs :: m <= x
    ensures xs == [] ==> m == 0
  {
    if xs == [] then 0
    else if |xs| == 1 then xs[0]
    else
      var rest := Lowest(xs[1..]);
      assert xs == [xs[0]] + xs[1..];
      if xs[0] <= rest then xs[0] else rest
  }

  /** `distinct('email', {status: 'completed', anonymous: false})`. */
  function Donors(records: seq<Donation>): (s: set<string>)
    ensures forall e | e in s :: exists d | d in records :: d.status == Completed && !d.anonymous && d.email == e
    ensures s == set d | d in records && d.status == Completed && !d.anonymous :: d.email
  {
    if records == [] then {}
    else
      var r0 := records[0];
      assert records == [r0] + records[1..];
      (if r0.status == Completed && !r0.anonymous then {r0.email} else {}) + Donors(records[1..])
  }

  datatype Stats = Stats(totalDonated: int, donorsCount: nat, highestDonation: int, lowestDonation: int)

  function DonationStats(records: seq<Donation>): Stats {
    var amounts := Amounts(CompletedDonations(records));
    Stats(Sum(amounts), |Donors(records)|, Highest(amounts), Lowest(amounts))
  }

  /** Stats over donations of at least 1 (what the schema admits): with no
      completed donation everything is 0; otherwise the lowest and highest
      are amounts of completed donations, every completed amount lies
      between them, the lowest is at least 1, and the total is at least the
      highest. */
  lemma StatsBounds(records: seq<Donation>)
    requires forall d | d in records :: d.amount >= 1
    ensures var s := DonationStats(records);
      var amounts := Amounts(CompletedDonations(records));
      && (amounts == [] ==> s.totalDonated == 0 && s.highestDonation == 0 && s.lowestDonation == 0)
      && (amounts != [] ==>
            && 1 <= s.lowestDonation <= s.highestDonation <= s.totalDonated
            && s.lowestDonation in amounts && s.highestDonation in amounts)
      && (forall d | d in records && d.status == Completed ::
            s.lowestDonation <= d.amount <= s.highestDonation)
  {
    var c := CompletedDonations(records);
    var amounts := Amounts(c);
    forall x | x in amounts ensures x >= 1 {
      var i :| 0 <= i < |amounts| && amounts[i] == x;
      assert c[i] in c;
    }
    SumAtLeastEach(amounts);
    forall d | d in records && d.status == Completed
      ensures Lowest(amounts) <= d.amount <= Highest(amounts)
    {
      assert d in c;
      var i :| 0 <= i < |c| && c[i] == d;
      assert amounts[i] == d.amount;
      assert d.amount in amounts;
    }
  }

  /** With amounts of at least 1, the sum is at least each of them. */
  lemma {:induction false} SumAtLeastEach(xs: seq<int>)
    requires forall x | x in xs :: x >= 1
    ensures forall x | x in xs :: x <= Sum(xs)
    ensures xs != [] ==> Sum(xs) >= 1
  {
    if xs != [] {
      var rest := xs[1..];
      assert xs == [xs[0]] + rest;
      assert xs[0] in xs;
      assert forall x | x in rest :: x in xs;
      SumAtLeastEach(rest);
      assert Sum(xs) == xs[0] + Sum(rest);
      assert Sum(rest) >= 0;
      forall x | x in xs ensures x <= Sum(xs) {
        if x != xs[0] {
          assert x in rest;
        }
      }
    }
  }

  /** Each donor counts once: there are never more donors than completed
      non-anonymous donations. */
  lemma {:induction false} DonorsBound(records: seq<Donation>)
    ensures |Donors(records)| <= |CompletedDonations(records)|
  {
    if records != [] {
      DonorsBound(records[1..]);
    }
  }

  /** A further completed non-anonymous donation adds its e-mail to the
      donors, and nothing else; so a repeat donor leaves the count as it is. */
  lemma {:induction false} NewDonor(records: seq<Donation>, d: Donation)
    requires d.status == Completed && !d.anonymous
    ensures Donors(records + [d]) == Donors(records) + {d.email}
  {
    if records == [] {
      assert [d][1..] == [];
    } else {
      assert (records + [d])[1..] == records[1..] + [d];
      NewDonor(records[1..], d);
    }
  }

  lemma RepeatDonor(records: seq<Donation>, d: Donation)
    requires d.status == Completed && !d.anonymous && d.email in Donors(records)
    ensures |Donors(records + [d])| == |Donors(records)|
  {
    NewDonor(records, d);
    assert Donors(records) + {d.email} == Donors(records);
  }

  // ----- recent donations -----

  /** Newest first: no record is newer than one before it. */
  predicate NewestOrder(r: seq<Donation>) {
    forall i, j | 0 <= i < j < |r| :: r[i].updatedAt >= r[j].updatedAt
  }

  /** `sort({updatedAt: -1})`: newest first; among equal times the record
      stored earlier comes first. */
  function NewestFirst(ds: seq<Donation>): (r: seq<Donation>)
    ensures multiset(r) == multiset(ds) && |r| == |ds|
    ensures NewestOrder(r)
  {
    if ds == [] then []
    else
      assert ds == [ds[0]] + ds[1..];
      Insert(ds[0], NewestFirst(ds[1..]))
  }

  /** Puts `d` after every record strictly newer than it, so in front of
      the records as new as it. */
  function Insert(d: Donation, sorted: seq<Donation>): (r: seq<Donation>)
    requires NewestOrder(sorted)
    ensures multiset(r) == multiset(sorted) + multiset{d}
    ensures |r| == |sorted| + 1 && (r[0] == d || (sorted != [] && r[0] == sorted[0]))
    ensures NewestOrder(r)
  {
    if sorted == [] then [d]
    else if d.updatedAt >= sorted[0].updatedAt then [d] + sorted
    else
      var rest := Insert(d, sorted[1..]);
      InsertStep(d, sorted, rest);
      [sorted[0]] + rest
  }

  /** The step of `Insert` that keeps the head of the list in front. */
  lemma InsertStep(d: Donation, sorted: seq<Donation>, rest: seq<Donation>)
    requires NewestOrder(sorted) && sorted != [] && d.updatedAt < sorted[0].updatedAt
    requires multiset(rest) == multiset(sorted[1..]) + multiset{d}
    requires |rest| == |sorted[1..]| + 1 && (rest[0] == d || (sorted[1..] != [] && rest[0] == sorted[1..][0]))
    requires NewestOrder(rest)
    ensures multiset([sorted[0]] + rest) == multiset(sorted) + multiset{d}
    ensures NewestOrder([sorted[0]] + rest)
  {
    assert sorted == [sorted[0]] + sorted[1..];
    assert multiset(sorted) == multiset{sorted[0]} + multiset(sorted[1..]);
    assert sorted[0].updatedAt >= rest[0].updatedAt by {
      if rest[0] != d {
        assert rest[0] == sorted[1];
      }
    }
    InsertBehind(sorted[0], rest);
  }

  /** A record at least as new as the head of a newest-first list can go in
      front of it. */
  lemma InsertBehind(x: Donation, r: seq<Donation>)
    requires NewestOrder(r) && (r != [] ==> x.updatedAt >= r[0].updatedAt)
    ensures NewestOrder([x] + r)
  {
    var t := [x] + r;
    forall i, j | 0 <= i < j < |t| ensures t[i].updatedAt >= t[j].updatedAt {
      if i == 0 {
        assert t[j] == r[j - 1];
        if j > 1 {
          assert r[0].updatedAt >= r[j - 1].updatedAt;
        }
      } else {
        assert t[i] == r[i - 1] && t[j] == r[j - 1];
      }
    }
  }

  /** `find({status: 'completed'}).sort({updatedAt: -1}).limit(4)`. */
  function RecentCompleted(records: seq<Donation>): (r: seq<Donation>)
    ensures |r| <= 4
  {
    var sorted := NewestFirst(CompletedDonations(records));
    if |sorted| <= 4 then sorted else sorted[..4]
  }

  /** At most four completed donations come back, newest first, and every
      completed donation left out is no newer than each one shown. */
  lemma RecentSelection(records: seq<Donation>)
    ensures var r := RecentCompleted(records);
      && |r| <= 4
      && |r| == (if |CompletedDonations(records)| < 4 then |CompletedDonations(records)| else 4)
      && (forall d | d in r :: d in records && d.status == Completed)
      && NewestOrder(r)
      && (forall d | d in records && d.status == Completed && d !in r ::
            forall x | x in r :: x.updatedAt >= d.updatedAt)
  {
    var c := CompletedDonations(records);
    var n := if |c| < 4 then |c| else 4;
    PrefixSelection(c, n);
    var r := RecentCompleted(records);
    assert r == NewestFirst(c)[..n];
    forall d | d in r ensures d in records && d.status == Completed {
      assert d in c;
    }
    forall d | d in records && d.status == Completed && d !in r
      ensures forall x | x in r :: x.updatedAt >= d.updatedAt
    {
      assert d in c;
    }
  }

  /** The first `n` of a list sorted newest first come from the list, keep
      the order, and are at least as new as everything left behind. */
  lemma PrefixSelection(c: seq<Donation>, n: nat)
    requires n <= |c|
    ensures var p := NewestFirst(c)[..n];
      && (forall d | d in p :: d in c)
      && NewestOrder(p)
      && (forall d | d in c && d !in p :: forall x | x in p :: x.updatedAt >= d.updatedAt)
  {
    var sorted := NewestFirst(c);
    var p := sorted[..n];
    forall d | d in p ensures d in c {
      assert d in multiset(sorted);
    }
    forall d | d in c && d !in p
      ensures forall x | x in p :: x.updatedAt >= d.updatedAt
    {
      assert d in multiset(c);
      assert d in sorted;
      TakeIsNewest(sorted, n, d);
    }
  }

  /** In a newest-first list, whatever lies outside a prefix is no newer
      than anything inside it. */
  lemma TakeIsNewest(sorted: seq<Donation>, n: nat, d: Donation)
    requires NewestOrder(sorted) && n <= |sorted| && d in sorted && d !in sorted[..n]
    ensures forall x | x in sorted[..n] :: x.updatedAt >= d.updatedAt
  {
    var k :| 0 <= k < |sorted| && sorted[k] == d;
    assert forall i | 0 <= i < n :: sorted[..n][i] == sorted[i] && sorted[i] != d;
    assert k >= n;
    forall x | x in sorted[..n] ensures x.updatedAt >= d.updatedAt {
      var i :| 0 <= i < n && sorted[..n][i] == x;
    }
  }

  // ----- relative time -----

  const DayMs := 1000 * 60 * 60 * 24

  /** `Math.ceil(Math.abs(now - createdAt) / 86400000)`. */
  function DiffDays(now: int, createdAt: int): (d: nat)
    ensures var gap := if now >= createdAt then now - createdAt else createdAt - now;
      (d - 1) * DayMs < gap <= d * DayMs || (gap == 0 && d == 0)
  {
    var gap := if now >= createdAt then now - createdAt else createdAt - now;
    (gap + DayMs - 1) / DayMs
  }

  datatype Unit = Day | Week | Month

  /** A count of days, weeks or months. */
  datatype Ago = Ago(count: nat, unit: Unit)

  /** The bucket for a number of days: days below 7, whole weeks below 30,
      whole months from 30 on. */
  function Bucket(days: nat): (a: Ago)
    ensures a.unit == Day <==> days < 7
    ensures a.unit == Week <==> 7 <= days < 30
    ensures a.unit == Day ==> a.count == days
    ensures a.unit == Week ==> 1 <= a.count <= 4 && a.count * 7 <= days < a.count * 7 + 7
    ensures a.unit == Month ==> 1 <= a.count && a.count * 30 <= days < a.count * 30 + 30
  {
    if days < 7 then Ago(days, Day)
    else if days < 30 then Ago(days / 7, Week)
    else Ago(days / 30, Month)
  }

  function UnitName(u: Unit): string {
    match u
    case Day => "day"
    case Week => "week"
    case Month => "month"
  }

  /** The wording of a bucket: `1 day ago`, `N days ago` (0 included),
      and for weeks and months an `s` only when the count is above 1. */
  function Phrase(a: Ago): string {
    if a.unit == Day && a.count == 1 then "1 day ago"
    else if a.unit == Day then NatToString(a.count) + " days ago"
    else NatToString(a.count) + " " + UnitName(a.unit) + (if a.count > 1 then "s" else "") + " ago"
  }

  function RelativeTime(now: int, createdAt: int): string {
    Phrase(Bucket(DiffDays(now, createdAt)))
  }

  /** The number at the front of the phrase is the bucket's count, and the
      unit is plural exactly when that count is not 1. */
  lemma PhraseReadsBack(days: nat)
    ensures var a := Bucket(days);
      var p := Phrase(a);
      && ParseInt(p) == Some(a.count as int)
      && (p == NatToString(a.count) + " " + UnitName(a.unit) + "s ago" <==> a.count != 1)
      && (p == NatToString(a.count) + " " + UnitName(a.unit) + " ago" <==> a.count == 1)
  {
    PhraseNumber(Bucket(days));
    PhrasePlural(Bucket(days));
  }

  lemma PhraseNumber(a: Ago)
    ensures ParseInt(Phrase(a)) == Some(a.count as int)
  {
    var p := Phrase(a);
    var n := NatToString(a.count);
    assert p == n + p[|n|..];
    LeadingNumber(n, p[|n|..]);
    DigitsValueOfNatToString(a.count);
  }

  lemma PhrasePlural(a: Ago)
    requires a.unit != Day ==> a.count >= 1
    ensures Phrase(a) == NatToString(a.count) + " " + UnitName(a.unit) + "s ago" <==> a.count != 1
    ensures Phrase(a) == NatToString(a.count) + " " + UnitName(a.unit) + " ago" <==> a.count == 1
  {
    var n := NatToString(a.count);
    if a.count == 1 {
      assert n == "1";
    }
  }

  /** `parseInt` of a numeral followed by a space reads the numeral. */
  lemma LeadingNumber(n: string, tail: string)
    requires n != [] && (forall i | 0 <= i < |n| :: IsDigit(n[i])) && (|n| > 1 ==> n[0] != '0')
    requires tail != [] && tail[0] == ' '
    ensures ParseInt(n + tail) == Some(DigitsValue(n, 10))
  {
    var s := n + tail;
    assert LeadingSpaces(s) == 0;
    assert TrimStart(s) == s;
    assert s[0] != '-' && s[0] != '+';
    assert !HasHexPrefix(s);
    DigitRunStops(n, tail);
    assert s[..|n|] == n;
  }

  lemma {:induction false} DigitRunStops(n: string, tail: string)
    requires (forall i | 0 <= i < |n| :: IsDigit(n[i])) && tail != [] && !IsDigit(tail[0])
    ensures DigitRun(n + tail, 10) == |n|
  {
    if n != [] {
      assert (n + tail)[1..] == n[1..] + tail;
      DigitRunStops(n[1..], tail);
    } else {
      assert n + tail == tail;
    }
  }

  // ----- donor names -----

  const AnonymousDonor := "Anonymous Donor"

  function DonorName(d: Donation): string {
    if d.anonymous then AnonymousDonor
    else if d.name.Some? && d.name.value != [] then d.name.value
    else AnonymousDonor
  }

  /** An anonymous donor's name is never shown; a named donor's is shown as
      stored. */
  lemma DonorNameMasked(d: Donation)
    ensures d.anonymous ==> DonorName(d) == AnonymousDonor
    ensures DonorName(d) != AnonymousDonor ==> !d.anonymous && d.name == Some(DonorName(d))
    ensures DonationOk(d) && !d.anonymous ==> DonorName(d) == d.name.value
  {
  }

  /** One entry of the recent list; the amount's `toLocaleString` text is
      not modelled, the number is kept. */
  datatype Entry = Entry(donorName: string, amount: int, purpose: string, date: string)

  function RecentDonations(records: seq<Donation>, now: int): (r: seq<Entry>)
    ensures |r| == |RecentCompleted(records)| <= 4
    ensures forall i | 0 <= i < |r| ::
      var d := RecentCompleted(records)[i];
      r[i] == Entry(DonorName(d), d.amount, "Donation to SDGConnect", RelativeTime(now, d.createdAt))
  {
    var ds := RecentCompleted(records);
    seq(|ds|, i requires 0 <= i < |ds| =>
      Entry(DonorName(ds[i]), ds[i].amount, "Donation to SDGConnect", RelativeTime(now, ds[i].createdAt)))
  }
}
