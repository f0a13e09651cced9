/** The order of catalog versions, and the latest version of a channel. */
module Versions {
  import opened Wrappers
  import opened Text

  /** A version taken apart: its numeric parts, and what follows the first hyphen. */
  datatype Parsed = Parsed(numbers: seq<int>, pre: string)

  function IndexOf(s: string, c: char): (i: Option<nat>)
    ensures i.Some? ==> i.value < |s| && s[i.value] == c && c !in s[..i.value]
    ensures i.None? ==> c !in s
  {
    if s == "" then None
    else if s[0] == c then Some(0)
    else
      match IndexOf(s[1..], c)
      case None => None
      case Some(i) => Some(i + 1)
  }

  function Split(s: string, c: char): (parts: seq<string>)
    ensures parts != []
    decreases |s|
  {
    match IndexOf(s, c)
    case None => [s]
    case Some(i) => [s[..i]] + Split(s[i + 1..], c)
  }

  function Number(s: string): int {
    match Atoi(s)
    case None => 0
    case Some(n) => n
  }

  function Numbers(parts: seq<string>): (r: seq<int>)
    ensures |r| == |parts|
    ensures forall i | 0 <= i < |parts| :: r[i] == Number(parts[i])
  {
    seq(|parts|, i requires 0 <= i < |parts| => Number(parts[i]))
  }

  function Core(v: string): string {
    match IndexOf(TrimPrefix(v, "v"), '-')
    case None => TrimPrefix(v, "v")
    case Some(i) => TrimPrefix(v, "v")[..i]
  }

  function PreRelease(v: string): string {
    match IndexOf(TrimPrefix(v, "v"), '-')
    case None => ""
    case Some(i) => TrimPrefix(v, "v")[i + 1..]
  }

  function Parse(v: string): Parsed {
    Parsed(Numbers(Split(Core(v), '.')), PreRelease(v))
  }

  method SplitVersion(version: string) returns (p: Parsed)
    ensures p == Parse(version)
  {
    var v := TrimPrefix(version, "v");
    var pre := "";
    var i := IndexOf(v, '-');
    if i.Some? {
      pre := v[i.value + 1..];
      v := v[..i.value];
    }
    var parts := Split(v, '.');
    var numbers: seq<int> := [];
    for k := 0 to |parts|
      invariant |numbers| == k && forall j | 0 <= j < k :: numbers[j] == Number(parts[j])
    {
      var n := Atoi(parts[k]);
      if n.None? {
        numbers := numbers + [0];
        continue;
      }
      numbers := numbers + [n.value];
    }
    assert numbers == Numbers(parts);
    return Parsed(numbers, pre);
  }

  // ----- The order

  function Sign(x: int, y: int): int {
    if x < y then -1 else if x > y then 1 else 0
  }

  /** Missing parts count as zero. */
  function Part(numbers: seq<int>, i: nat): int {
    if i < |numbers| then numbers[i] else 0
  }

  function CompareFrom(a: seq<int>, b: seq<int>, i: nat, n: nat): int
    decreases n - i
  {
    if i >= n then 0
    else if Part(a, i) != Part(b, i) then Sign(Part(a, i), Part(b, i))
    else CompareFrom(a, b, i + 1, n)
  }

  function Max(x: nat, y: nat): nat {
    if x < y then y else x
  }

  function CompareNumbers(a: seq<int>, b: seq<int>): int {
    CompareFrom(a, b, 0, Max(|a|, |b|))
  }

  function CompareText(a: string, b: string): int {
    if a == "" && b == "" then 0
    else if a == "" then -1
    else if b == "" then 1
    else if a[0] != b[0] then Sign(a[0] as int, b[0] as int)
    else CompareText(a[1..], b[1..])
  }

  /** A pre-release comes before its release; two pre-releases compare as whole texts. */
  function ComparePre(a: string, b: string): int {
    if a == b then 0 else if a == "" then 1 else if b == "" then -1 else CompareText(a, b)
  }

  function Compare(a: string, b: string): int {
    var p, q := Parse(a), Parse(b);
    if CompareNumbers(p.numbers, q.numbers) != 0 then CompareNumbers(p.numbers, q.numbers) else ComparePre(p.pre, q.pre)
  }

  method CompareVersions(a: string, b: string) returns (r: int)
    ensures r == Compare(a, b)
  {
    hide Parse, CompareText;
    var pa := SplitVersion(a);
    var pb := SplitVersion(b);
    var i := 0;
    while i < |pa.numbers| || i < |pb.numbers|
      invariant 0 <= i <= Max(|pa.numbers|, |pb.numbers|)
      invariant CompareNumbers(pa.numbers, pb.numbers) == CompareFrom(pa.numbers, pb.numbers, i, Max(|pa.numbers|, |pb.numbers|))
      decreases Max(|pa.numbers|, |pb.numbers|) - i
    {
      var x, y := 0, 0;
      if i < |pa.numbers| {
        x := pa.numbers[i];
      }
      if i < |pb.numbers| {
        y := pb.numbers[i];
      }
      if x != y {
        if x < y {
          return -1;
        }
        return 1;
      }
      i := i + 1;
    }
    if pa.pre == pb.pre {
      return 0;
    }
    if pa.pre == "" {
      return 1;
    }
    if pb.pre == "" {
      return -1;
    }
    return CompareText(pa.pre, pb.pre);
  }

  // ----- Laws

  lemma {:induction false} CompareFromAntisymmetric(a: seq<int>, b: seq<int>, i: nat, n: nat)
    ensures CompareFrom(a, b, i, n) == -CompareFrom(b, a, i, n)
    decreases n - i
  {
    if i < n {
      CompareFromAntisymmetric(a, b, i + 1, n);
    }
  }

  lemma {:induction false} CompareFromTransitive(a: seq<int>, b: seq<int>, c: seq<int>, i: nat, n: nat)
    requires CompareFrom(a, b, i, n) <= 0 && CompareFrom(b, c, i, n) <= 0
    ensures CompareFrom(a, c, i, n) <= 0
    ensures CompareFrom(a, c, i, n) == 0 ==> CompareFrom(a, b, i, n) == 0 && CompareFrom(b, c, i, n) == 0
    decreases n - i
  {
    if i < n && Part(a, i) == Part(b, i) == Part(c, i) {
      CompareFromTransitive(a, b, c, i + 1, n);
    }
  }

  /** Comparing further than both lists reach changes nothing. */
  lemma {:induction false} PaddingDoesNotMatter(a: seq<int>, b: seq<int>, i: nat, n: nat, m: nat)
    requires Max(|a|, |b|) <= n <= m
    ensures CompareFrom(a, b, i, m) == CompareFrom(a, b, i, n)
    decreases m - i
  {
    if i < m {
      PaddingDoesNotMatter(a, b, i + 1, n, m);
      if i >= n {
        assert CompareFrom(a, b, i + 1, n) == 0;
      }
    }
  }

  lemma {:induction false} CompareTextAntisymmetric(a: string, b: string)
    ensures CompareText(a, b) == -CompareText(b, a)
    ensures CompareText(a, b) == 0 <==> a == b
  {
    if a != "" && b != "" && a[0] == b[0] {
      CompareTextAntisymmetric(a[1..], b[1..]);
      assert a == [a[0]] + a[1..] && b == [b[0]] + b[1..];
    }
  }

  lemma {:induction false} CompareTextTransitive(a: string, b: string, c: string)
    requires CompareText(a, b) <= 0 && CompareText(b, c) <= 0
    ensures CompareText(a, c) <= 0
    ensures CompareText(a, c) == 0 ==> CompareText(a, b) == 0 && CompareText(b, c) == 0
  {
    if a != "" && b != "" && c != "" && a[0] == b[0] == c[0] {
      CompareTextTransitive(a[1..], b[1..], c[1..]);
    }
  }

  /** Comparing the other way round gives the opposite, and every version equals itself. */
  lemma CompareAntisymmetric(a: string, b: string)
    ensures Compare(a, b) == -Compare(b, a) && Compare(a, a) == 0 && Compare(a, b) in {-1, 0, 1}
  {
    var p, q := Parse(a), Parse(b);
    var n := Max(|p.numbers|, |q.numbers|);
    CompareFromAntisymmetric(p.numbers, q.numbers, 0, n);
    CompareFromAntisymmetric(p.numbers, p.numbers, 0, |p.numbers|);
    CompareTextAntisymmetric(p.pre, q.pre);
    SignsOnly(p.numbers, q.numbers, 0, n);
    TextSignsOnly(p.pre, q.pre);
  }

  lemma {:induction false} SignsOnly(a: seq<int>, b: seq<int>, i: nat, n: nat)
    ensures CompareFrom(a, b, i, n) in {-1, 0, 1}
    decreases n - i
  {
    if i < n {
      SignsOnly(a, b, i + 1, n);
    }
  }

  lemma {:induction false} TextSignsOnly(a: string, b: string)
    ensures CompareText(a, b) in {-1, 0, 1}
  {
    if a != "" && b != "" {
      TextSignsOnly(a[1..], b[1..]);
    }
  }

  lemma ComparePreTransitive(a: string, b: string, c: string)
    requires ComparePre(a, b) <= 0 && ComparePre(b, c) <= 0
    ensures ComparePre(a, c) <= 0
    ensures ComparePre(a, c) == 0 ==> ComparePre(a, b) == 0 && ComparePre(b, c) == 0
  {
    CompareTextAntisymmetric(a, b);
    CompareTextAntisymmetric(b, c);
    CompareTextAntisymmetric(a, c);
    if a != "" && b != "" && c != "" {
      CompareTextTransitive(a, b, c);
    }
  }

  /** The order is transitive on all texts, strictly so if either step is strict. */
  lemma CompareTransitive(a: string, b: string, c: string)
    requires Compare(a, b) <= 0 && Compare(b, c) <= 0
    ensures Compare(a, c) <= 0
    ensures Compare(a, c) == 0 ==> Compare(a, b) == 0 && Compare(b, c) == 0
  {
    var p, q, r := Parse(a), Parse(b), Parse(c);
    var n := Max(Max(|p.numbers|, |q.numbers|), |r.numbers|);
    PaddingDoesNotMatter(p.numbers, q.numbers, 0, Max(|p.numbers|, |q.numbers|), n);
    PaddingDoesNotMatter(q.numbers, r.numbers, 0, Max(|q.numbers|, |r.numbers|), n);
    PaddingDoesNotMatter(p.numbers, r.numbers, 0, Max(|p.numbers|, |r.numbers|), n);
    CompareFromTransitive(p.numbers, q.numbers, r.numbers, 0, n);
    if CompareNumbers(p.numbers, q.numbers) == 0 && CompareNumbers(q.numbers, r.numbers) == 0 {
      CompareFromAntisymmetric(p.numbers, q.numbers, 0, n);
      CompareFromAntisymmetric(q.numbers, r.numbers, 0, n);
      CompareFromAntisymmetric(p.numbers, r.numbers, 0, n);
      CompareFromTransitive(r.numbers, q.numbers, p.numbers, 0, n);
      ComparePreTransitive(p.pre, q.pre, r.pre);
    }
  }

  // ----- The latest version of a channel

  datatype Version = Version(version: string, channel: string)

  function Candidates(versions: seq<Version>, channel: string): seq<string> {
    if versions == [] then []
    else
      var last := versions[|versions| - 1];
      Candidates(versions[..|versions| - 1], channel)
      + (if channel != "" && last.channel != channel then [] else [last.version])
  }

  function Better(best: string, v: string): string {
    if best == "" || Compare(v, best) > 0 then v else best
  }

  function Latest(candidates: seq<string>): string {
    if candidates == [] then "" else Better(Latest(candidates[..|candidates| - 1]), candidates[|candidates| - 1])
  }

  method LatestInChannel(versions: seq<Version>, channel: string) returns (best: string)
    ensures best == Latest(Candidates(versions, channel))
  {
    hide Compare;
    best := "";
    for i := 0 to |versions|
      invariant best == Latest(Candidates(versions[..i], channel))
    {
      assert versions[..i + 1][..i] == versions[..i];
      ghost var before := Candidates(versions[..i], channel);
      if channel != "" && versions[i].channel != channel {
        assert Candidates(versions[..i + 1], channel) == before;
        continue;
      }
      assert (before + [versions[i].version])[..|before|] == before;
      var take := best == "";
      if !take {
        var order := CompareVersions(versions[i].version, best);
        take := order > 0;
      }
      if take {
        best := versions[i].version;
      }
    }
    assert versions[..|versions|] == versions;
  }

  predicate Highest(best: string, candidates: seq<string>) {
    if candidates == [] then best == ""
    else best in candidates && forall c | c in candidates :: Compare(c, best) <= 0
  }

  /** A version that is not empty and not below the empty one. */
  predicate HasSolid(candidates: seq<string>) {
    exists c | c in candidates :: c != "" && Compare(c, "") >= 0
  }

  /** The empty text doubles as "nothing yet"; it does no harm where one of these holds. */
  predicate EmptyIsHarmless(candidates: seq<string>) {
    "" !in candidates || HasSolid(candidates) || candidates[|candidates| - 1] == ""
  }

  predicate LatestShape(candidates: seq<string>) {
    var best := Latest(candidates);
    if candidates == [] then best == ""
    else if HasSolid(candidates) then best != "" && Compare(best, "") >= 0 && Highest(best, candidates)
    else if "" !in candidates then best != "" && Highest(best, candidates)
    else if candidates[|candidates| - 1] == "" then best == ""
    else best != "" && best in candidates
  }

  lemma {:induction false} LatestHasShape(candidates: seq<string>)
    ensures LatestShape(candidates)
  {
    if candidates != [] {
      var before, last := candidates[..|candidates| - 1], candidates[|candidates| - 1];
      assert candidates == before + [last];
      LatestHasShape(before);
      hide LatestShape, Latest, HasSolid;
      if HasSolid(before) {
        AfterSolid(before, last);
      } else if last != "" && Compare(last, "") >= 0 {
        FirstSolid(before, last);
      } else {
        NothingSolid(before, last);
      }
    }
  }

  lemma BetterIs(before: seq<string>, last: string)
    ensures Latest(before + [last]) == Better(Latest(before), last)
    ensures HasSolid(before + [last]) <==> HasSolid(before) || (last != "" && Compare(last, "") >= 0)
  {
    var candidates := before + [last];
    assert candidates[..|candidates| - 1] == before;
    if HasSolid(before) {
      var s :| s in before && s != "" && Compare(s, "") >= 0;
      assert s in candidates;
    }
    assert last in candidates;
  }

  lemma HighestStep(before: seq<string>, last: string, held: string)
    requires held != "" && Highest(held, before)
    ensures Highest(Better(held, last), before + [last])
  {
    CompareAntisymmetric(last, held);
    CompareAntisymmetric(last, last);
    forall c | c in before + [last] ensures Compare(c, Better(held, last)) <= 0 {
      if c in before && Better(held, last) == last && Compare(last, held) > 0 {
        CompareTransitive(c, held, last);
      }
    }
  }

  lemma AfterSolid(before: seq<string>, last: string)
    requires HasSolid(before) && LatestShape(before)
    ensures LatestShape(before + [last])
  {
    var held := Latest(before);
    BetterIs(before, last);
    HighestStep(before, last, held);
    CompareAntisymmetric(last, held);
    CompareAntisymmetric(held, "");
    CompareAntisymmetric(last, "");
    if Compare(last, held) > 0 {
      CompareTransitive("", held, last);
    }
  }

  lemma FirstSolid(before: seq<string>, last: string)
    requires !HasSolid(before) && LatestShape(before) && last != "" && Compare(last, "") >= 0
    ensures LatestShape(before + [last])
  {
    var held := Latest(before);
    BetterIs(before, last);
    CompareAntisymmetric(last, "");
    CompareAntisymmetric(last, last);
    CompareAntisymmetric("", "");
    forall c | c in before ensures Compare(c, last) <= 0 && (c != "" ==> Compare(c, last) < 0) {
      CompareAntisymmetric(c, "");
      CompareTransitive(c, "", last);
    }
    CompareAntisymmetric(held, last);
  }

  lemma NothingSolid(before: seq<string>, last: string)
    requires !HasSolid(before) && LatestShape(before) && (last == "" || Compare(last, "") < 0)
    ensures LatestShape(before + [last])
  {
    var held := Latest(before);
    BetterIs(before, last);
    CompareAntisymmetric(held, "");
    CompareAntisymmetric(last, last);
    if last != "" && "" !in before && before != [] {
      HighestStep(before, last, held);
    }
  }

  /** The result is a highest version of the channel exactly where the empty text does no harm, whatever the
      order of the list. */
  lemma LatestIsHighestExactly(candidates: seq<string>)
    ensures Highest(Latest(candidates), candidates) <==> EmptyIsHarmless(candidates)
  {
    LatestHasShape(candidates);
    CompareAntisymmetric("", "");
    if candidates != [] && !HasSolid(candidates) && "" in candidates {
      forall c | c in candidates ensures Compare(c, "") <= 0 {
        CompareAntisymmetric(c, "");
      }
      if candidates[|candidates| - 1] != "" {
        CompareAntisymmetric(Latest(candidates), "");
      }
    }
  }

  /** The order of the list decides nothing but the spelling: two lists of the same versions, none empty,
      have latest versions that compare as equal. */
  lemma ListOrderDoesNotMatter(a: seq<string>, b: seq<string>)
    requires "" !in a && "" !in b && forall v :: v in a <==> v in b
    ensures Compare(Latest(a), Latest(b)) == 0
  {
    LatestIsHighestExactly(a);
    LatestIsHighestExactly(b);
    CompareAntisymmetric(Latest(a), Latest(b));
    assert a != [] ==> a[0] in a;
    assert b != [] ==> b[0] in b;
  }

  lemma PreReleaseOfZeroIsBelowEmpty()
    ensures Compare("0-a", "") < 0
  {
    assert IndexOf("0-a", '-') == Some(1);
    assert "0-a"[..1] == "0" && "0-a"[2..] == "a";
    assert Parse("0-a").pre == "a";
    assert Split("0", '.') == ["0"];
    assert DigitsValue("0") == 0;
    assert Number("0") == 0;
    assert Parse("0-a").numbers == [0];
    assert Parse("").numbers == [0] && Parse("").pre == "";
  }

  /** An empty version followed by a pre-release of zero: the pre-release is returned, though it is lower. */
  lemma EmptyVersionHidesTheHighest()
    ensures !Highest(Latest(["", "0-a"]), ["", "0-a"])
  {
    PreReleaseOfZeroIsBelowEmpty();
    LatestIsHighestExactly(["", "0-a"]);
  }
}
