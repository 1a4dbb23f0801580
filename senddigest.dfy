/** The stand-alone delivery script: it picks the newest digest page of the output
    directory, derives the subject from its file name, and sends the page to every
    active recipient. The directory listing, the recipient list and what each
    transport attempt does are parameters. */
module SendDigest {
  import opened Model
  import opened Text
  import Seqs
  import Gmail
  import Composer

  // ---------------------------------------------------------------- the newest digest

  /** Python's `a <= b` on strings: code point by code point. */
  predicate LexLe(a: string, b: string)
    decreases |a|
  {
    a == [] || (b != [] && (a[0] < b[0] || (a[0] == b[0] && LexLe(a[1..], b[1..]))))
  }

  /** Any two strings are ordered one way or the other. */
  lemma {:induction false} LexTotal(a: string, b: string)
    ensures LexLe(a, b) || LexLe(b, a)
    decreases |a|
  {
    if a != [] && b != [] && a[0] == b[0] {
      LexTotal(a[1..], b[1..]);
    }
  }

  /** The order is transitive. */
  lemma {:induction false} LexTrans(a: string, b: string, c: string)
    requires LexLe(a, b) && LexLe(b, c)
    ensures LexLe(a, c)
    decreases |a|
  {
    if a != [] && a[0] == b[0] && b[0] == c[0] {
      LexTrans(a[1..], b[1..], c[1..]);
    }
  }

  /** Every string is ordered before itself. */
  lemma {:induction false} LexRefl(a: string)
    ensures LexLe(a, a)
    decreases |a|
  {
    if a != [] {
      LexRefl(a[1..]);
    }
  }

  /** `digest-*.html`: the pattern's fixed ends, which cannot overlap. */
  predicate IsDigestName(name: string) {
    |name| >= 12 && StartsWith(name, "digest-") && EndsWith(name, ".html")
  }

  /** `sorted(glob("digest-*.html"))[-1]`: the greatest matching name, or None when
      nothing matches. */
  function Latest(names: seq<string>): (r: Option<string>)
    ensures r.Some? ==> r.value in names && IsDigestName(r.value)
    decreases |names|
  {
    if names == [] then None
    else
      var prev := Latest(names[..|names| - 1]);
      var last := names[|names| - 1];
      if IsDigestName(last) && (prev.None? || LexLe(prev.value, last)) then Some(last) else prev
  }

  /** There is a newest digest exactly when a name matches, and every matching name
      is ordered no later than it. */
  lemma {:induction false} LatestIsGreatest(names: seq<string>)
    ensures Latest(names).Some? <==> exists i :: 0 <= i < |names| && IsDigestName(names[i])
    ensures Latest(names).Some? ==>
      forall i :: 0 <= i < |names| && IsDigestName(names[i]) ==> LexLe(names[i], Latest(names).value)
    decreases |names|
  {
    if names != [] {
      var init := names[..|names| - 1];
      LatestIsGreatest(init);
      var prev := Latest(init);
      var last := names[|names| - 1];
      var r := Latest(names);
      if IsDigestName(last) {
        assert IsDigestName(names[|names| - 1]);
        if prev.Some? {
          LexTotal(prev.value, last);
          LexRefl(prev.value);
          LexRefl(last);
          forall i | 0 <= i < |names| && IsDigestName(names[i])
            ensures LexLe(names[i], r.value)
          {
            if i < |names| - 1 {
              assert names[i] == init[i];
              if r.value == last {
                LexTrans(names[i], prev.value, last);
              }
            }
          }
        } else {
          LexRefl(last);
          assert forall i :: 0 <= i < |init| ==> init[i] == names[i];
        }
      } else {
        assert forall i :: 0 <= i < |init| ==> init[i] == names[i];
      }
    }
  }

  /** `Path.stem` of a digest page: the name without ".html". */
  function Stem(name: string): (r: string)
    requires IsDigestName(name)
    ensures r + ".html" == name
  {
    name[..|name| - 5]
  }

  // ---------------------------------------------------------------- the subject

  /** The week number the subject shows for a digest stem: the last "-" part if
      there are at least three, with its "W"s removed and without leading zeros;
      "0" when nothing is left. */
  function WeekOfStem(stem: string): (r: string)
    ensures r != []
    ensures r[0] == '0' ==> r == "0"
  {
    var parts := Split(stem, '-');
    var week := if |parts| >= 3 then parts[|parts| - 1] else "W00";
    var digits := LStrip(ReplaceAll(week, "W", ""), '0');
    if digits == "" then "0" else digits
  }

  function Subject(weekNumber: string): string {
    "VPG Intel [Week " + weekNumber + "]: Competitive Threats, Revenue Opportunities + 6 more signals"
  }

  /** The decimal form of a positive number does not start with a zero. */
  lemma {:induction false} NoLeadingZero(n: nat)
    requires n >= 1
    ensures NatToString(n)[0] != '0'
  {
    if n >= 10 {
      NoLeadingZero(n / 10);
      assert NatToString(n)[0] == NatToString(n / 10)[0];
    }
  }

  /** Removing the zeros of a zero-padded week gives the week's decimal form, or
      nothing for week zero. */
  lemma StripPadding(week: nat)
    ensures LStrip(TwoDigits(week), '0') == (if week == 0 then "" else NatToString(week))
  {
    var t := TwoDigits(week);
    if week == 0 {
      assert t == ['0', '0'];
      assert t[1..] == ['0'];
      assert t[1..][1..] == [];
    } else if week < 10 {
      assert t == ['0', DigitChar(week)];
      assert t[1..] == [DigitChar(week)] == NatToString(week);
      NoLeadingZero(week);
    } else {
      NoLeadingZero(week);
    }
  }

  /** Only the part after a stem's last "-" decides its week. */
  lemma WeekOfLastPart(head: string, middle: string, last: string)
    requires '-' !in head && '-' !in last
    ensures WeekOfStem(head + "-" + middle + "-" + last) == WeekOfStem("--" + last)
  {
    SplitWithout(head, '-');
    SplitWithout(last, '-');
    assert head + "-" + middle + "-" + last == head + ['-'] + (middle + ['-'] + last);
    SplitConcat(head, '-', middle + ['-'] + last);
    SplitConcat(middle, '-', last);
    assert "--" + last == [] + ['-'] + ([] + ['-'] + last);
    SplitConcat([], '-', [] + ['-'] + last);
    SplitConcat([], '-', last);
  }

  /** The subject of a digest named by the composer shows its week: the name
      matches the pattern, and the week read back from its stem is the week number
      written without padding. */
  lemma WeekRoundTrip(week: nat, year: int)
    ensures IsDigestName(Composer.DigestFileName(None, week, year))
    ensures WeekOfStem(Stem(Composer.DigestFileName(None, week, year))) == NatToString(week)
  {
    Composer.DefaultFileName(None, week, year);
    var name := Composer.DigestFileName(None, week, year);
    var stem := Composer.DigestStem(week, year);
    assert Stem(name) == stem by {
      assert Stem(name) + ".html" == stem + ".html";
    }
    StemWeek(week, year);
  }

  /** The week read back from the composer's stem. */
  lemma StemWeek(week: nat, year: int)
    ensures WeekOfStem(Composer.DigestStem(week, year)) == NatToString(week)
  {
    var t, y := TwoDigits(week), IntToString(year);
    var last, head := "W" + t, "digest";
    NoDashInWeek(week);
    assert '-' !in head;
    assert "digest-" == head + "-" && "-W" == "-" + "W";
    Regroup(head, "-", y, "W", t);
    WeekOfLastPart(head, y, last);
    WeekOfPart(week);
  }

  /** The stem's parts regrouped around the dashes. */
  lemma Regroup<T>(head: seq<T>, dash: seq<T>, y: seq<T>, w: seq<T>, t: seq<T>)
    ensures (head + dash) + y + (dash + w) + t == head + dash + y + dash + (w + t)
  {
  }

  /** "W" and a zero-padded week hold no "-". */
  lemma NoDashInWeek(week: nat)
    ensures '-' !in "W" + TwoDigits(week)
  {
    var t := TwoDigits(week);
    forall i | 0 <= i < |"W" + t|
      ensures ("W" + t)[i] != '-'
    {
      if i > 0 {
        assert ("W" + t)[i] == t[i - 1];
        assert IsDigit(t[i - 1]);
      }
    }
  }

  /** Splitting "--" and a last part gives two empty parts, then the last one. */
  lemma SplitTwoDashes(last: string)
    requires '-' !in last
    ensures Split("--" + last, '-') == [[], [], last]
  {
    assert "--" + last == [] + ['-'] + ([] + ['-'] + last);
    SplitConcat([], '-', [] + ['-'] + last);
    SplitConcat([], '-', last);
    SplitWithout(last, '-');
  }

  /** A last part "W" and digits reads back as the digits without leading zeros. */
  lemma WeekOfDashes(last: string, digits: string)
    requires last == ['W'] + digits && 'W' !in digits && '-' !in digits
    ensures WeekOfStem("--" + last) == (if LStrip(digits, '0') == "" then "0" else LStrip(digits, '0'))
  {
    assert '-' !in last;
    SplitTwoDashes(last);
    ReplaceCharOnce([], 'W', digits, "");
    assert [] + ['W'] + digits == last;
    assert [] + "" + digits == digits;
  }

  /** The last part "W" and a zero-padded week reads back as the week. */
  lemma WeekOfPart(week: nat)
    ensures WeekOfStem("--" + ("W" + TwoDigits(week))) == NatToString(week)
  {
    var t := TwoDigits(week);
    forall i | 0 <= i < |t|
      ensures t[i] != 'W' && t[i] != '-'
    {
      assert IsDigit(t[i]);
    }
    WeekOfDashes("W" + t, t);
    StripPadding(week);
  }

  /** A stem with fewer than three "-" parts reads as week 0, as does one whose
      last part is "W00"; "digest" is such a stem. */
  lemma WeekOfStemDefault(stem: string)
    ensures |Split(stem, '-')| < 3 ==> WeekOfStem(stem) == "0"
    ensures WeekOfStem("--W00") == "0"
    ensures WeekOfStem("digest") == "0"
  {
    if |Split(stem, '-')| < 3 {
      ShortStemWeek(stem);
    }
    ShortStemWeek("digest") by {
      SplitWithout("digest", '-');
    }
    ZeroWeekPart();
  }

  lemma ZeroWeekPart()
    ensures WeekOfStem("--W00") == "0"
  {
    WeekOfPart(0);
    assert TwoDigits(0) == "00";
    assert "--" + ("W" + TwoDigits(0)) == "--W00";
  }

  lemma ShortStemWeek(stem: string)
    requires |Split(stem, '-')| < 3
    ensures WeekOfStem(stem) == "0"
  {
    DefaultWeekDigits();
  }

  /** The default part "W00" has no digits left once stripped. */
  lemma DefaultWeekDigits()
    ensures LStrip(ReplaceAll("W00", "W", ""), '0') == ""
    ensures LStrip("00", '0') == ""
  {
    ReplaceCharOnce([], 'W', "00", "");
    assert [] + ['W'] + "00" == "W00";
    assert "00"[1..] == "0" && "0"[1..] == [];
  }


  // ---------------------------------------------------------------- delivery

  /** What the script does: it exits with status 1 when there is no digest page,
      otherwise it reports one result per active recipient and how many were sent. */
  datatype Outcome =
    | NoDigest
    | Finished(digest: string, subject: string, results: seq<Gmail.SendResult>, sent: nat)

  function IsSent(r: Gmail.SendResult): bool {
    r.Sent?
  }

  /** The default number of attempts of `send_email`. */
  const MaxRetries := 3

  /** `main`: recipient `i` of the active list is sent the page with the attempts
      `transport(i)`. */
  method SendLatest(names: seq<string>, recipients: seq<Recipient>, st: Gmail.Setup,
                    transport: nat -> nat -> Gmail.Attempt) returns (outcome: Outcome)
    ensures outcome.NoDigest? <==> Latest(names).None?
    ensures outcome.Finished? ==>
      var active := Seqs.Filter(recipients, IsActive);
      && outcome.digest == Latest(names).value
      && outcome.subject == Subject(WeekOfStem(Stem(outcome.digest)))
      && |outcome.results| == |active|
      && (forall i :: 0 <= i < |active| ==>
            outcome.results[i] == Gmail.SendEmailSpec(st, active[i].email, MaxRetries, None, transport(i)).0)
      && outcome.sent == Seqs.Count(outcome.results, IsSent)
  {
    var latest := Latest(names);
    if latest.None? {
      return NoDigest;
    }
    var digest := latest.value;
    var subject := Subject(WeekOfStem(Stem(digest)));
    var active := Seqs.Filter(recipients, IsActive);
    var results := SendToAll(active, st, transport);
    outcome := Finished(digest, subject, results, Seqs.Count(results, IsSent));
  }

  /** The loop of `main` over the active recipients: one result each, in order. */
  method SendToAll(active: seq<Recipient>, st: Gmail.Setup, transport: nat -> nat -> Gmail.Attempt)
    returns (results: seq<Gmail.SendResult>)
    ensures |results| == |active|
    ensures forall i :: 0 <= i < |active| ==>
      results[i] == Gmail.SendEmailSpec(st, active[i].email, MaxRetries, None, transport(i)).0
  {
    results := [];
    var k := 0;
    while k < |active|
      invariant k <= |active|
      invariant |results| == k
      invariant forall i :: 0 <= i < k ==>
        results[i] == Gmail.SendEmailSpec(st, active[i].email, MaxRetries, None, transport(i)).0
    {
      var result, waits := Gmail.SendEmail(st, active[k].email, MaxRetries, None, transport(k));
      results := results + [result];
      k := k + 1;
    }
  }

  /** Only active recipients are sent anything, each once: the number of results is
      the number of recipients whose status is "active", and no more are sent. */
  lemma SentBound(recipients: seq<Recipient>, results: seq<Gmail.SendResult>)
    requires |results| == |Seqs.Filter(recipients, IsActive)|
    ensures Seqs.Count(results, IsSent) <= Seqs.Count(recipients, IsActive)
  {
    Seqs.CountIsFilterLength(recipients, IsActive);
  }
}
