/** What the order of versions means for versions written out as numbers, dots and a pre-release. */
module VersionOrder {
  import opened Wrappers
  import opened Text
  import opened Versions

  /** A version as its numbers and its pre-release, the latter empty for a release. */
  datatype Written = Written(marked: bool, numbers: seq<nat>, pre: string)

  function Dotted(numbers: seq<nat>): string
    requires numbers != []
  {
    Decimal(numbers[0]) + if |numbers| == 1 then "" else "." + Dotted(numbers[1..])
  }

  function TextOf(w: Written): string
    requires w.numbers != []
  {
    (if w.marked then "v" else "") + (Dotted(w.numbers) + if w.pre == "" then "" else "-" + w.pre)
  }

  /** Numbers beyond 64 bits are not read, and count as zero. */
  function Kept(numbers: seq<nat>): (kept: seq<int>)
    ensures |kept| == |numbers|
    ensures forall i | 0 <= i < |numbers| :: kept[i] == if numbers[i] <= MAX_INT64 then numbers[i] else 0
  {
    seq(|numbers|, i requires 0 <= i < |numbers| => if numbers[i] <= MAX_INT64 then numbers[i] else 0)
  }

  // ----- Reading a version back

  lemma NumberReads(n: nat)
    ensures Number(Decimal(n)) == if n <= MAX_INT64 then n else 0
  {
    DecimalRoundTrip(n);
    assert IsDigit(Decimal(n)[0]);
  }

  lemma {:induction false} DottedHasDigitsAndDots(numbers: seq<nat>)
    requires numbers != []
    ensures Dotted(numbers) != "" && IsDigit(Dotted(numbers)[0])
    ensures forall i | 0 <= i < |Dotted(numbers)| :: IsDigit(Dotted(numbers)[i]) || Dotted(numbers)[i] == '.'
  {
    DecimalRoundTrip(numbers[0]);
    if |numbers| > 1 {
      DottedHasDigitsAndDots(numbers[1..]);
    }
  }

  lemma FirstIndex(head: string, c: char, rest: string)
    requires c !in head
    ensures IndexOf(head + [c] + rest, c) == Some(|head|)
  {
    var s := head + [c] + rest;
    assert s[|head|] == c;
    assert s[..|head|] == head;
    assert forall j | 0 <= j < |head| :: s[j] == head[j];
    assert forall j | |head| < j <= |s| :: s[..j][|head|] == c;
  }

  lemma {:induction false} SplitReads(numbers: seq<nat>)
    requires numbers != []
    ensures |Split(Dotted(numbers), '.')| == |numbers|
    ensures forall i | 0 <= i < |numbers| :: Split(Dotted(numbers), '.')[i] == Decimal(numbers[i])
  {
    var first := Decimal(numbers[0]);
    DecimalRoundTrip(numbers[0]);
    assert '.' !in first;
    if |numbers| == 1 {
      assert Dotted(numbers) == first;
    } else {
      hide Decimal, IndexOf, AllDigits;
      var rest := Dotted(numbers[1..]);
      SplitReads(numbers[1..]);
      assert Dotted(numbers) == first + ['.'] + rest by {
        assert "." + rest == ['.'] + rest;
      }
      SplitHead(first, '.', rest);
    }
  }

  lemma SplitHead(head: string, c: char, rest: string)
    requires c !in head
    ensures Split(head + [c] + rest, c) == [head] + Split(rest, c)
  {
    var s := head + [c] + rest;
    FirstIndex(head, c, rest);
    assert s[..|head|] == head && s[|head| + 1..] == rest;
  }

  lemma BodyReads(numbers: seq<nat>, pre: string)
    requires numbers != []
    ensures var body := Dotted(numbers) + if pre == "" then "" else "-" + pre;
            && IndexOf(body, '-') == (if pre == "" then None else Some(|Dotted(numbers)|))
            && TrimPrefix(body, "v") == body
  {
    DottedHasDigitsAndDots(numbers);
    var dotted := Dotted(numbers);
    assert '-' !in dotted;
    var body := dotted + if pre == "" then "" else "-" + pre;
    assert body[0] == dotted[0] != 'v';
    if pre == "" {
      assert body == dotted;
    } else {
      FirstIndex(dotted, '-', pre);
      assert body == dotted + ['-'] + pre;
    }
  }

  /** A version is read back as it was written, with or without the leading mark. */
  lemma WrittenIsRead(w: Written)
    requires w.numbers != []
    ensures Parse(TextOf(w)) == Parsed(Kept(w.numbers), w.pre)
  {
    hide Core, PreRelease, Split, Dotted, TextOf;
    PartsRead(w);
    NumbersRead(w.numbers);
  }

  lemma PartsRead(w: Written)
    requires w.numbers != []
    ensures Core(TextOf(w)) == Dotted(w.numbers) && PreRelease(TextOf(w)) == w.pre
  {
    hide Dotted, IndexOf;
    var dotted := Dotted(w.numbers);
    var body := dotted + if w.pre == "" then "" else "-" + w.pre;
    BodyReads(w.numbers, w.pre);
    MarkIsTrimmed(w.marked, body);
    if w.pre != "" {
      assert body == dotted + ("-" + w.pre) && body[..|dotted|] == dotted && body[|dotted| + 1..] == w.pre;
    } else {
      assert body == dotted;
    }
  }

  lemma MarkIsTrimmed(marked: bool, body: string)
    requires TrimPrefix(body, "v") == body
    ensures TrimPrefix((if marked then "v" else "") + body, "v") == body
  {
    if marked {
      assert ("v" + body)[1..] == body;
    } else {
      assert "" + body == body;
    }
  }

  lemma NumbersRead(numbers: seq<nat>)
    requires numbers != []
    ensures Numbers(Split(Dotted(numbers), '.')) == Kept(numbers)
  {
    hide Dotted, Split, Number;
    SplitReads(numbers);
    forall i | 0 <= i < |numbers| ensures Numbers(Split(Dotted(numbers), '.'))[i] == Kept(numbers)[i] {
      NumberReads(numbers[i]);
    }
  }

  // ----- What the order says

  /** At the first place where the lists differ, short ones going on with zeros, the first is smaller. */
  predicate NumbersBefore(a: seq<int>, b: seq<int>) {
    exists k | 0 <= k < Max(|a|, |b|) :: Part(a, k) < Part(b, k) && SameUpTo(a, b, k)
  }

  predicate SameUpTo(a: seq<int>, b: seq<int>, k: nat) {
    forall j | 0 <= j < k :: Part(a, j) == Part(b, j)
  }

  predicate SameNumbers(a: seq<int>, b: seq<int>) {
    SameUpTo(a, b, Max(|a|, |b|))
  }

  /** Texts in order of their first differing character, a beginning of a text before the text. */
  predicate TextBefore(a: string, b: string) {
    exists k | 0 <= k <= |a| && k < |b| :: a[..k] == b[..k] && (k == |a| || a[k] < b[k])
  }

  /** By the numbers first; of equal ones, a pre-release before its release, and pre-releases as texts. */
  predicate Before(x: Written, y: Written) {
    var a, b := Kept(x.numbers), Kept(y.numbers);
    NumbersBefore(a, b)
    || (SameNumbers(a, b) && x.pre != "" && (y.pre == "" || TextBefore(x.pre, y.pre)))
  }

  lemma {:induction false} CompareFromMeans(a: seq<int>, b: seq<int>, i: nat, n: nat)
    ensures CompareFrom(a, b, i, n) < 0 <==>
            exists k | i <= k < n :: Part(a, k) < Part(b, k) && forall j | i <= j < k :: Part(a, j) == Part(b, j)
    ensures CompareFrom(a, b, i, n) == 0 <==> forall j | i <= j < n :: Part(a, j) == Part(b, j)
    decreases n - i
  {
    if i < n {
      CompareFromMeans(a, b, i + 1, n);
      if Part(a, i) == Part(b, i) {
        if k :| i <= k < n && Part(a, k) < Part(b, k) && forall j | i <= j < k :: Part(a, j) == Part(b, j) {
          assert k != i;
        }
      }
    }
  }

  lemma NumbersCompareMeans(a: seq<int>, b: seq<int>)
    ensures CompareNumbers(a, b) < 0 <==> NumbersBefore(a, b)
    ensures CompareNumbers(a, b) == 0 <==> SameNumbers(a, b)
  {
    var n := Max(|a|, |b|);
    CompareFromMeans(a, b, 0, n);
    if NumbersBefore(a, b) {
      var k :| 0 <= k < n && Part(a, k) < Part(b, k) && SameUpTo(a, b, k);
      assert forall j | 0 <= j < k :: Part(a, j) == Part(b, j);
    }
    if CompareNumbers(a, b) < 0 {
      var k :| 0 <= k < n && Part(a, k) < Part(b, k) && forall j | 0 <= j < k :: Part(a, j) == Part(b, j);
      assert SameUpTo(a, b, k);
    }
  }

  lemma SameBeginning(a: string, b: string, k: nat)
    requires 0 < k <= |a| && k <= |b| && a[..k] == b[..k]
    ensures a[0] == b[0]
  {
    assert a[..k][0] == b[..k][0];
  }

  lemma {:induction false} CompareTextMeans(a: string, b: string)
    ensures CompareText(a, b) < 0 <==> TextBefore(a, b)
  {
    if a == "" {
      assert b != "" ==> a[..0] == b[..0];
    } else if b != "" {
      if a[0] != b[0] {
        assert a[..0] == b[..0];
        if TextBefore(a, b) {
          var k :| 0 <= k <= |a| && k < |b| && a[..k] == b[..k] && (k == |a| || a[k] < b[k]);
          if k > 0 {
            SameBeginning(a, b, k);
            assert false;
          }
        }
      } else {
        CompareTextMeans(a[1..], b[1..]);
        if k :| 0 <= k <= |a[1..]| && k < |b[1..]| && a[1..][..k] == b[1..][..k] && (k == |a[1..]| || a[1..][k] < b[1..][k]) {
          assert a[..k + 1] == [a[0]] + a[1..][..k] && b[..k + 1] == [b[0]] + b[1..][..k];
        }
        if k :| 0 <= k <= |a| && k < |b| && a[..k] == b[..k] && (k == |a| || a[k] < b[k]) {
          assert k > 0;
          assert a[1..][..k - 1] == a[..k][1..] && b[1..][..k - 1] == b[..k][1..];
        }
      }
    }
  }

  /** For all versions written as numbers and dots, marked or not, with or without a pre-release: one compares
      as older exactly if it is before the other. */
  lemma CompareIsTheOrder(x: Written, y: Written)
    requires x.numbers != [] && y.numbers != []
    ensures Compare(TextOf(x), TextOf(y)) < 0 <==> Before(x, y)
    ensures Compare(TextOf(x), TextOf(y)) > 0 <==> Before(y, x)
  {
    OlderMeansBefore(x, y);
    OlderMeansBefore(y, x);
    CompareAntisymmetric(TextOf(x), TextOf(y));
  }

  lemma OlderMeansBefore(x: Written, y: Written)
    requires x.numbers != [] && y.numbers != []
    ensures Compare(TextOf(x), TextOf(y)) < 0 <==> Before(x, y)
  {
    hide Parse, TextOf, CompareNumbers, NumbersBefore, SameNumbers, TextBefore, CompareText;
    WrittenIsRead(x);
    WrittenIsRead(y);
    NumbersCompareMeans(Kept(x.numbers), Kept(y.numbers));
    CompareTextMeans(x.pre, y.pre);
    CompareTextAntisymmetric(x.pre, y.pre);
  }

  /** A pre-release is older than its release, and a larger number in any place is a later version. */
  lemma TheOrderOnExamples(numbers: seq<nat>, pre: string, i: nat, n: nat, marked: bool)
    requires numbers != [] && pre != "" && i < |numbers| && numbers[i] < n <= MAX_INT64
    ensures Compare(TextOf(Written(marked, numbers, pre)), TextOf(Written(false, numbers, ""))) < 0
    ensures Compare(TextOf(Written(marked, numbers, "")), TextOf(Written(false, numbers[i := n], pre))) < 0
  {
    var low, high := Kept(numbers), Kept(numbers[i := n]);
    assert Part(low, i) < Part(high, i) && SameUpTo(low, high, i);
    CompareIsTheOrder(Written(marked, numbers, pre), Written(false, numbers, ""));
    CompareIsTheOrder(Written(marked, numbers, ""), Written(false, numbers[i := n], pre));
  }

  // ----- The latest version of a channel

  predicate InChannel(v: Version, channel: string) {
    channel == "" || v.channel == channel
  }

  lemma {:induction false} CandidatesAreOfTheChannel(versions: seq<Version>, channel: string, v: string)
    ensures v in Candidates(versions, channel) <==>
            exists i | 0 <= i < |versions| :: InChannel(versions[i], channel) && versions[i].version == v
  {
    if versions != [] {
      var n := |versions| - 1;
      CandidatesAreOfTheChannel(versions[..n], channel, v);
      if i :| 0 <= i < n && InChannel(versions[..n][i], channel) && versions[..n][i].version == v {
        assert versions[i] == versions[..n][i];
      }
      if i :| 0 <= i < |versions| && InChannel(versions[i], channel) && versions[i].version == v {
        assert i < n ==> versions[..n][i] == versions[i];
      }
    }
  }

  /** The latest version of a channel is one of the channel that no other one of the channel is after. */
  lemma LatestIsAfterNone(versions: seq<Version>, channel: string, written: seq<Written>) returns (k: nat)
    requires |written| == |versions| && exists i | 0 <= i < |versions| :: InChannel(versions[i], channel)
    requires forall i | 0 <= i < |versions| :: written[i].numbers != [] && versions[i].version == TextOf(written[i])
    ensures k < |versions| && InChannel(versions[k], channel)
    ensures Latest(Candidates(versions, channel)) == versions[k].version
    ensures forall j | 0 <= j < |versions| && InChannel(versions[j], channel) :: !Before(written[k], written[j])
  {
    hide Compare, TextOf, Before;
    var candidates := Candidates(versions, channel);
    var best := Latest(candidates);
    forall v ensures v in candidates <==> exists i | 0 <= i < |versions| :: InChannel(versions[i], channel) && versions[i].version == v {
      CandidatesAreOfTheChannel(versions, channel, v);
    }
    var some :| 0 <= some < |versions| && InChannel(versions[some], channel);
    assert versions[some].version in candidates;
    forall i | 0 <= i < |versions| ensures versions[i].version != "" {
      WrittenIsSomething(written[i]);
    }
    assert "" !in candidates;
    LatestIsHighestExactly(candidates);
    k :| 0 <= k < |versions| && InChannel(versions[k], channel) && versions[k].version == best;
    forall j | 0 <= j < |versions| && InChannel(versions[j], channel) ensures !Before(written[k], written[j]) {
      assert versions[j].version in candidates;
      CompareIsTheOrder(written[k], written[j]);
      CompareAntisymmetric(versions[k].version, versions[j].version);
    }
  }

  lemma WrittenIsSomething(w: Written)
    requires w.numbers != []
    ensures TextOf(w) != ""
  {
    DottedHasDigitsAndDots(w.numbers);
  }
}
